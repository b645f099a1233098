/** The parser of `git status --porcelain=v1 -z` output in src/dispatcher/repository.py, against a
    printer of that format.
 */
module GitStatus {
  import opened Common
  import opened Text

  const NUL: char := '\0'

  datatype ChangeType = Created | Modified | Deleted | Renamed | Untracked

  datatype Change = Change(kind: ChangeType, paths: seq<string>, index: char, worktree: char, modeChanged: bool)

  datatype Parsed =
    | Changes(changes: seq<Change>, ignored: seq<string>)
    | Malformed
    | CopyUnsupported
    | PairOmitted

  /** One status entry: the two status letters, the path, and for a rename the path it came from. */
  datatype Entry = Entry(x: char, y: char, path: string, from: Option<string>)

  predicate IsRename(e: Entry) {
    !IsIgnored(e) && (e.x == 'R' || e.y == 'R')
  }

  predicate IsIgnored(e: Entry) { e.x == '!' && e.y == '!' }

  predicate Plain(path: string) {
    path != "" && NUL !in path
  }

  /** The status letters of Git, without the one for copies. */
  const LETTERS: set<char> := {' ', 'M', 'T', 'A', 'D', 'R', 'U', '?', '!'}

  /** What Git prints, without copies. */
  predicate Valid(e: Entry) {
    && e.x in LETTERS && e.y in LETTERS && Plain(e.path)
    && (e.from.Some? <==> IsRename(e))
    && (e.from.Some? ==> Plain(e.from.value))
  }

  /** The NUL-separated fields of an entry. */
  function Fields(e: Entry): seq<string> {
    [[e.x, e.y, ' '] + e.path] + if e.from.Some? then [e.from.value] else []
  }

  function AllFields(entries: seq<Entry>): seq<string> {
    if entries == [] then [] else Fields(entries[0]) + AllFields(entries[1..])
  }

  function Terminated(fields: seq<string>): string {
    if fields == [] then "" else fields[0] + [NUL] + Terminated(fields[1..])
  }

  /** The printed form: every field ends with NUL. */
  function Print(entries: seq<Entry>): string {
    Terminated(AllFields(entries))
  }

  // ---------------------------------------------------------------------------------------------
  // How the output is received

  const CR: char := '\r'

  /** Universal newlines, which reading the output as text brings with it. */
  function Translate(s: string): (r: string)
    ensures CR !in r
  {
    if s == "" then ""
    else if s[0] == CR then "\n" + Translate(if |s| > 1 && s[1] == '\n' then s[2..] else s[1..])
    else [s[0]] + Translate(s[1..])
  }

  /** `rstrip` of newlines. */
  function Stripped(s: string): (r: string)
    ensures r <= s
  {
    if s != "" && s[|s| - 1] == '\n' then Stripped(s[..|s| - 1]) else s
  }

  /** What `_git` returns for an output. */
  function Received(output: string): string {
    Stripped(Translate(output))
  }

  // ---------------------------------------------------------------------------------------------
  // Meaning of an entry

  function KindOf(x: char, y: char): ChangeType {
    if x == 'R' || y == 'R' then Renamed
    else if x == '?' && y == '?' then Untracked
    else if x == 'D' || y == 'D' then Deleted
    else if x == 'A' || y == 'A' then Created
    else Modified
  }

  predicate AnyIn(paths: seq<string>, modes: set<string>) {
    exists p :: p in paths && p in modes
  }

  function ChangeOf(e: Entry, modes: set<string>): Change {
    var paths := if e.from.Some? then [e.path, e.from.value] else [e.path];
    Change(KindOf(e.x, e.y), paths, e.x, e.y, AnyIn(paths, modes))
  }

  function ChangesOf(entries: seq<Entry>, modes: set<string>): seq<Change> {
    if entries == [] then []
    else (if IsIgnored(entries[0]) then [] else [ChangeOf(entries[0], modes)]) + ChangesOf(entries[1..], modes)
  }

  function IgnoredOf(entries: seq<Entry>): seq<string> {
    if entries == [] then []
    else (if IsIgnored(entries[0]) then [entries[0].path] else []) + IgnoredOf(entries[1..])
  }

  // ---------------------------------------------------------------------------------------------
  // The parser

  function Behind(changes: seq<Change>, ignored: seq<string>, rest: Parsed): Parsed {
    match rest
    case Changes(c, i) => Changes(changes + c, ignored + i)
    case _ => rest
  }

  /** One turn of the loop: nothing, an error, an ignored path, or a change that takes `used` fields. */
  datatype Turn = Skip | Bad(error: Parsed) | Ignore(path: string) | One(change: Change, used: nat)

  function TurnOf(fields: seq<string>, modes: set<string>): (t: Turn)
    requires fields != []
    ensures t.One? ==> 1 <= t.used <= |fields|
    ensures t.Bad? ==> !t.error.Changes?
  {
    var field := fields[0];
    if field == "" then Skip
    else if |field| < 4 then Bad(Malformed)
    else
      var x, y, path := field[0], field[1], field[3..];
      if x == '!' && y == '!' then Ignore(path)
      else if x == 'C' || y == 'C' then Bad(CopyUnsupported)
      else if x == 'R' || y == 'R' then
        if |fields| == 1 || fields[1] == "" then Bad(PairOmitted)
        else One(Change(Renamed, [path, fields[1]], x, y, AnyIn([path, fields[1]], modes)), 2)
      else One(Change(KindOf(x, y), [path], x, y, AnyIn([path], modes)), 1)
  }

  /** What the loop makes of the fields from here on. */
  function ParseFields(fields: seq<string>, modes: set<string>): Parsed
    decreases |fields|
  {
    if fields == [] then Changes([], [])
    else match TurnOf(fields, modes)
      case Skip => ParseFields(fields[1..], modes)
      case Bad(error) => error
      case Ignore(path) => Behind([], [path], ParseFields(fields[1..], modes))
      case One(change, used) => Behind([change], [], ParseFields(fields[used..], modes))
  }

  /** The changes read from an output. */
  function Parse(output: string, modes: set<string>): Parsed {
    ParseFields(Split(Received(output), NUL), modes)
  }

  /** `_git_changes`. */
  method GitChanges(output: string, modes: set<string>) returns (r: Parsed)
    ensures r == Parse(output, modes)
  {
    hide Split, TurnOf, Behind, Received;
    var fields := Split(Received(output), NUL);
    var changes: seq<Change>, ignored: seq<string> := [], [];
    var index := 0;
    assert fields[0..] == fields;
    BehindNothing(ParseFields(fields, modes));
    while index < |fields|
      invariant 0 <= index <= |fields|
      invariant ParseFields(fields, modes) == Behind(changes, ignored, ParseFields(fields[index..], modes))
    {
      ghost var here := fields[index..];
      var turn := ReadEntry(fields, index, modes);
      assert here[1..] == fields[index + 1..];
      match turn {
        case Skip =>
          index := index + 1;
        case Bad(error) =>
          BehindError(changes, ignored, error);
          return error;
        case Ignore(path) =>
          index := index + 1;
          BehindTwice(changes, ignored, [], [path], ParseFields(fields[index..], modes));
          assert changes + [] == changes;
          ignored := ignored + [path];
        case One(change, used) =>
          assert here[used..] == fields[index + used..];
          index := index + used;
          BehindTwice(changes, ignored, [change], [], ParseFields(fields[index..], modes));
          assert ignored + [] == ignored;
          changes := changes + [change];
      }
    }
    assert fields[index..] == [];
    BehindEnd(changes, ignored);
    r := Changes(changes, ignored);
  }

  /** One turn, as the code takes it. */
  method ReadEntry(fields: seq<string>, start: nat, modes: set<string>) returns (t: Turn)
    requires start < |fields|
    ensures t == TurnOf(fields[start..], modes)
  {
    var index := start;
    var field := fields[index];
    index := index + 1;
    if field == "" {
      return Skip;
    }
    if |field| < 4 {
      return Bad(Malformed);
    }
    var x, y, path := field[0], field[1], field[3..];
    if x == '!' && y == '!' {
      return Ignore(path);
    }
    if x == 'C' || y == 'C' {
      return Bad(CopyUnsupported);
    }
    var paths, kind := [path], Modified;
    if x == 'R' || y == 'R' {
      if index >= |fields| || fields[index] == "" {
        return Bad(PairOmitted);
      }
      paths, kind := [path, fields[index]], Renamed;
      index := index + 1;
    } else if x == '?' && y == '?' {
      kind := Untracked;
    } else if x == 'D' || y == 'D' {
      kind := Deleted;
    } else if x == 'A' || y == 'A' {
      kind := Created;
    }
    return One(Change(kind, paths, x, y, AnyIn(paths, modes)), index - start);
  }

  lemma BehindError(changes: seq<Change>, ignored: seq<string>, error: Parsed)
    requires !error.Changes?
    ensures Behind(changes, ignored, error) == error
  {
  }

  lemma BehindEnd(changes: seq<Change>, ignored: seq<string>)
    ensures Behind(changes, ignored, Changes([], [])) == Changes(changes, ignored)
  {
    assert changes + [] == changes && ignored + [] == ignored;
  }

  lemma BehindNothing(p: Parsed)
    ensures Behind([], [], p) == p
  {
  }

  lemma BehindTwice(c0: seq<Change>, i0: seq<string>, c1: seq<Change>, i1: seq<string>, p: Parsed)
    ensures Behind(c0, i0, Behind(c1, i1, p)) == Behind(c0 + c1, i0 + i1, p)
  {
    if p.Changes? {
      assert c0 + (c1 + p.changes) == c0 + c1 + p.changes;
      assert i0 + (i1 + p.ignored) == i0 + i1 + p.ignored;
    }
  }

  // ---------------------------------------------------------------------------------------------
  // Round trip

  lemma {:induction false} SplitTerminated(fields: seq<string>)
    requires forall f | f in fields :: NUL !in f
    ensures Split(Terminated(fields), NUL) == fields + [""]
  {
    if fields == [] {
    } else {
      assert fields[0] in fields;
      SplitTerminated(fields[1..]);
      SplitBehind(fields[0], Terminated(fields[1..]), NUL);
      assert fields == [fields[0]] + fields[1..];
    }
  }

  lemma {:induction false} FieldsPlain(entries: seq<Entry>)
    requires forall e | e in entries :: Valid(e)
    ensures forall f | f in AllFields(entries) :: NUL !in f
  {
    if entries != [] {
      assert entries[0] in entries;
      FieldsPlain(entries[1..]);
    }
  }

  /** The turn over a printed entry. */
  lemma TurnBack(e: Entry, tail: seq<string>, modes: set<string>)
    requires Valid(e)
    ensures Fields(e) + tail != []
    ensures TurnOf(Fields(e) + tail, modes) ==
            if IsIgnored(e) then Ignore(e.path) else One(ChangeOf(e, modes), |Fields(e)|)
    ensures IsIgnored(e) ==> |Fields(e)| == 1
    ensures (Fields(e) + tail)[|Fields(e)|..] == tail
  {
    var first := [e.x, e.y, ' '] + e.path;
    assert first[3..] == e.path;
    assert (Fields(e) + tail)[0] == first;
  }

  lemma {:induction false} ParseBack(entries: seq<Entry>, modes: set<string>)
    requires forall e | e in entries :: Valid(e)
    ensures ParseFields(AllFields(entries) + [""], modes) == Changes(ChangesOf(entries, modes), IgnoredOf(entries))
  {
    hide TurnOf, Fields, ChangeOf, Valid, IsIgnored;
    if entries == [] {
      EmptyTail(modes);
    } else {
      var e, rest := entries[0], entries[1..];
      assert e in entries;
      ParseBack(rest, modes);
      var tail := AllFields(rest) + [""];
      TurnBack(e, tail, modes);
      assert AllFields(entries) + [""] == Fields(e) + tail;
    }
  }

  lemma EmptyTail(modes: set<string>)
    ensures ParseFields([] + [""], modes) == Changes([], [])
  {
    assert ([] + [""])[1..] == [];
  }

  lemma {:induction false} TranslatePlain(s: string)
    requires CR !in s
    ensures Translate(s) == s
  {
    if s != "" {
      TranslatePlain(s[1..]);
      assert s == [s[0]] + s[1..];
    }
  }

  /** Output that ends in NUL, or that is empty, has no newline to strip. */
  lemma {:induction false} PrintedEnd(fields: seq<string>)
    ensures Stripped(Terminated(fields)) == Terminated(fields)
    ensures fields != [] ==> Terminated(fields)[|Terminated(fields)| - 1] == NUL
  {
    if fields != [] {
      PrintedEnd(fields[1..]);
    }
  }

  /** No path of an entry holds a carriage return. */
  predicate NoReturn(e: Entry) {
    CR !in e.path && (e.from.Some? ==> CR !in e.from.value)
  }

  lemma {:induction false} FieldsWithoutReturn(entries: seq<Entry>)
    requires forall e | e in entries :: Valid(e) && NoReturn(e)
    ensures CR !in Terminated(AllFields(entries))
  {
    if entries != [] {
      var e := entries[0];
      assert e in entries;
      FieldsWithoutReturn(entries[1..]);
      TerminatedParts(Fields(e), AllFields(entries[1..]));
      assert CR !in [e.x, e.y, ' '] + e.path;
      OneTerminated([e.x, e.y, ' '] + e.path);
      if e.from.Some? {
        OneTerminated(e.from.value);
        TerminatedParts([[e.x, e.y, ' '] + e.path], [e.from.value]);
      }
    }
  }

  lemma OneTerminated(f: string)
    ensures Terminated([f]) == f + [NUL]
  {
    assert f + [NUL] + "" == f + [NUL];
  }

  lemma {:induction false} TerminatedParts(a: seq<string>, b: seq<string>)
    ensures Terminated(a + b) == Terminated(a) + Terminated(b)
  {
    if a == [] {
      assert a + b == b;
    } else {
      assert (a + b)[1..] == a[1..] + b;
      TerminatedParts(a[1..], b);
      assert a[0] + [NUL] + (Terminated(a[1..]) + Terminated(b)) == a[0] + [NUL] + Terminated(a[1..]) + Terminated(b);
    }
  }

  /** Everything that is read is part of the text. */
  ghost predicate ReadsNoReturn(p: Parsed) {
    p.Changes? ==>
      && (forall c | c in p.changes :: forall path | path in c.paths :: CR !in path)
      && (forall path | path in p.ignored :: CR !in path)
  }

  lemma {:induction false} SplitWithoutReturn(s: string)
    requires CR !in s
    ensures forall f | f in Split(s, NUL) :: CR !in f
  {
    if s != "" {
      SplitWithoutReturn(s[1..]);
      var r := Split(s[1..], NUL);
      assert r[0] in r;
      forall f | f in Split(s, NUL)
        ensures CR !in f
      {
        if f != [] && f !in r {
          assert f == [s[0]] + r[0];
        }
      }
    }
  }

  lemma {:induction false} ParsedWithoutReturn(fields: seq<string>, modes: set<string>)
    requires forall f | f in fields :: CR !in f
    ensures ReadsNoReturn(ParseFields(fields, modes))
    decreases |fields|
  {
    hide KindOf, AnyIn;
    if fields != [] {
      assert fields[0] in fields;
      assert |fields| > 1 ==> fields[1] in fields;
      match TurnOf(fields, modes) {
        case Skip => ParsedWithoutReturn(fields[1..], modes);
        case Bad(error) =>
        case Ignore(path) => ParsedWithoutReturn(fields[1..], modes);
        case One(change, used) => ParsedWithoutReturn(fields[used..], modes);
      }
    }
  }

  /** Every path of an entry is among those the entries mean. */
  lemma {:induction false} PathsAreMeant(entries: seq<Entry>, modes: set<string>)
    requires forall e | e in entries :: Valid(e)
    requires ReadsNoReturn(Changes(ChangesOf(entries, modes), IgnoredOf(entries)))
    ensures forall e | e in entries :: NoReturn(e)
  {
    if entries != [] {
      var e, rest := entries[0], entries[1..];
      assert e in entries;
      if IsIgnored(e) {
        assert IgnoredOf(entries)[0] == e.path;
        assert forall p | p in IgnoredOf(rest) :: p in IgnoredOf(entries);
        assert forall c | c in ChangesOf(rest, modes) :: c in ChangesOf(entries, modes);
      } else {
        var c := ChangesOf(entries, modes)[0];
        assert c in ChangesOf(entries, modes) && c.paths[0] == e.path;
        assert e.from.Some? ==> c.paths[1] == e.from.value;
        assert forall d | d in ChangesOf(rest, modes) :: d in ChangesOf(entries, modes);
      }
      PathsAreMeant(rest, modes);
      forall d | d in entries
        ensures NoReturn(d)
      {
        assert d == e || d in rest;
      }
    }
  }

  /** Parsing what was printed gives every change back, in order and with the ignored paths apart, if
      and only if no path holds a carriage return: those are translated before the parser sees them. */
  lemma PrintParses(entries: seq<Entry>, modes: set<string>)
    requires forall e | e in entries :: Valid(e)
    ensures Parse(Print(entries), modes) == Changes(ChangesOf(entries, modes), IgnoredOf(entries)) <==>
            forall e | e in entries :: NoReturn(e)
  {
    hide Split, ParseFields, NoReturn, ReadsNoReturn, ChangesOf, IgnoredOf, Translate, Stripped, AllFields,
      Terminated, Valid;
    if forall e | e in entries :: NoReturn(e) {
      FieldsWithoutReturn(entries);
      TranslatePlain(Print(entries));
      PrintedEnd(AllFields(entries));
      FieldsPlain(entries);
      SplitTerminated(AllFields(entries));
      ParseBack(entries, modes);
    } else {
      var text := Received(Print(entries));
      SplitWithoutReturn(text);
      ParsedWithoutReturn(Split(text, NUL), modes);
      if Parse(Print(entries), modes) == Changes(ChangesOf(entries, modes), IgnoredOf(entries)) {
        PathsAreMeant(entries, modes);
      }
    }
  }
}
