/** Writable path scopes of src/dispatcher/plan.py and their overlap test of
    src/dispatcher/scheduler.py: the syntactic test is exact for what the scopes authorize.
 */
module WritableScopes {
  import opened Common
  import opened Text

  type Path = seq<string>

  datatype Scope = Scope(path: Path, directory: bool)

  // ---------------------------------------------------------------------------------------------
  // Text

  /** Unicode category Cc. */
  predicate IsControl(c: char) {
    c as int < 32 || 127 <= c as int < 160
  }

  predicate Plain(s: string) {
    forall c | c in s :: !IsControl(c) && c != '\\'
  }

  predicate DoubleSlash(s: string) {
    exists i :: 0 <= i < |s| - 1 && s[i] == '/' && s[i + 1] == '/'
  }

  /** A segment of a canonical repository path. */
  predicate Segment(part: string) {
    Plain(part) && '/' !in part && part !in {"", ".", "..", ".git"}
  }

  predicate Canonical(path: Path) {
    path != [] && forall part | part in path :: Segment(part)
  }

  /** `parse_writable_path`. */
  function Parse(value: string): Option<Scope> {
    if !Plain(value) then None
    else
      var directory := value != "" && value[|value| - 1] == '/';
      var logical := if directory then value[..|value| - 1] else value;
      if logical == "" || logical[0] == '/' || DoubleSlash(logical) then None
      else
        var parts := Split(logical, '/');
        if exists part :: part in parts && part in {"", ".", ".."} then None
        else if ".git" in parts then None
        else Some(Scope(parts, directory))
  }

  function Print(s: Scope): string
    requires s.path != []
  {
    Join(s.path, '/') + if s.directory then "/" else ""
  }

  lemma {:induction false} SplitParts(s: string)
    requires Plain(s)
    ensures forall p | p in Split(s, '/') :: Plain(p) && '/' !in p
  {
    if s != "" {
      SplitParts(s[1..]);
      var r := Split(s[1..], '/');
      assert r[0] in r;
    }
  }

  /** The text of a canonical path. */
  predicate PathText(s: string) {
    s != "" && Plain(s) && s[0] != '/' && s[|s| - 1] != '/' && !DoubleSlash(s)
  }

  lemma SegmentText(part: string)
    requires Segment(part)
    ensures PathText(part)
  {
  }

  lemma JoinedText(part: string, rest: string)
    requires Segment(part) && PathText(rest)
    ensures PathText(part + "/" + rest)
  {
    var s := part + "/" + rest;
    forall i | 0 <= i < |s| - 1
      ensures !(s[i] == '/' && s[i + 1] == '/')
    {
      if i > |part| {
        assert s[i] == rest[i - |part| - 1] && s[i + 1] == rest[i - |part|];
      }
    }
  }

  lemma {:induction false} CanonicalText(path: Path)
    requires Canonical(path)
    ensures PathText(Join(path, '/'))
  {
    assert path[0] in path;
    if |path| == 1 {
      SegmentText(path[0]);
    } else {
      CanonicalText(path[1..]);
      JoinedText(path[0], Join(path[1..], '/'));
    }
  }

  /** Parsing what was printed gives the scope back. */
  lemma PrintParses(s: Scope)
    requires Canonical(s.path)
    ensures Parse(Print(s)) == Some(s)
  {
    CanonicalText(s.path);
    var text := Join(s.path, '/');
    SplitJoin(s.path, '/');
    assert (text + "/")[..|text|] == text;
    assert text + "" == text;
    hide Split, Join, Segment;
    assert forall part | part in s.path :: Segment(part);
    SegmentsPass(s.path);
  }

  lemma SegmentsPass(path: Path)
    requires Canonical(path)
    ensures !exists part :: part in path && part in {"", ".", ".."}
    ensures ".git" !in path
  {
    hide Plain;
    assert forall part | part in path :: part != ".git" && Segment(part);
  }

  /** A text that parses is the one way to write its scope, and the scope is canonical. */
  lemma ParsePrints(value: string)
    requires Parse(value).Some?
    ensures Canonical(Parse(value).value.path) && Print(Parse(value).value) == value
  {
    hide Split, Join, DoubleSlash;
    var directory := value != "" && value[|value| - 1] == '/';
    var logical := if directory then value[..|value| - 1] else value;
    JoinSplit(logical, '/');
    assert Plain(logical);
    SplitParts(logical);
    assert value == logical + if directory then "/" else "";
  }

  // ---------------------------------------------------------------------------------------------
  // Meaning

  /** `_is_within` on segments. */
  predicate Within(path: Path, root: Path) {
    root <= path
  }

  /** What a scope authorizes: its file, or everything at or below its directory. */
  predicate Allows(s: Scope, path: Path) {
    path == s.path || (s.directory && Within(path, s.path))
  }

  /** `writable_path_allows`. */
  predicate AllowsAny(scopes: seq<Scope>, path: Path) {
    exists s :: s in scopes && Allows(s, path)
  }

  /** `_writable_paths_overlap`. */
  predicate Overlap(a: Scope, b: Scope) {
    a.path == b.path || (a.directory && Within(b.path, a.path)) || (b.directory && Within(a.path, b.path))
  }

  /** Some repository path is allowed by both. */
  ghost predicate Share(a: Scope, b: Scope) {
    exists p: Path :: Canonical(p) && Allows(a, p) && Allows(b, p)
  }

  /** The overlap test is exact: it fails only when no repository path is allowed by both scopes. */
  lemma OverlapIsExact(a: Scope, b: Scope)
    requires Canonical(a.path) && Canonical(b.path)
    ensures Overlap(a, b) <==> Share(a, b)
  {
    if Overlap(a, b) {
      var p := if a.path == b.path || (a.directory && Within(b.path, a.path)) then b.path else a.path;
      assert Canonical(p) && Allows(a, p) && Allows(b, p);
    }
    if p: Path :| Canonical(p) && Allows(a, p) && Allows(b, p) {
      if a.directory && b.directory {
        PrefixesNest(a.path, b.path, p);
      }
    }
  }

  lemma PrefixesNest(a: Path, b: Path, p: Path)
    requires a <= p && b <= p
    ensures a <= b || b <= a
  {
    assert a == p[..|a|] && b == p[..|b|];
  }

  // ---------------------------------------------------------------------------------------------
  // The scopes of one step

  predicate Parses(values: seq<string>) {
    forall v | v in values :: Parse(v).Some?
  }

  function Scopes(values: seq<string>): (r: seq<Scope>)
    requires Parses(values)
    ensures |r| == |values|
  {
    seq(|values|, i requires 0 <= i < |values| => assert values[i] in values; Parse(values[i]).value)
  }

  /** No two scopes share a path. */
  ghost predicate Disjoint(scopes: seq<Scope>) {
    forall i, j | 0 <= i < j < |scopes| :: !Share(scopes[i], scopes[j])
  }

  /** `valid_writable_paths`: accepted exactly when every text parses and no path belongs to two scopes. */
  method ValidWritablePaths(values: seq<string>) returns (ok: bool)
    ensures ok <==> Parses(values) && Disjoint(Scopes(values))
  {
    var normalized: seq<Scope> := [];
    var i := 0;
    while i < |values|
      invariant 0 <= i <= |values|
      invariant Parses(values[..i]) && normalized == Scopes(values[..i])
      invariant Disjoint(normalized)
    {
      assert values[..i + 1] == values[..i] + [values[i]];
      var parsed := Parse(values[i]);
      if parsed.None? {
        assert values[i] in values;
        return false;
      }
      var scope := parsed.value;
      ParsePrints(values[i]);
      var clear := ClearOf(values[..i], normalized, scope);
      if !clear {
        NotDisjoint(values, i);
        return false;
      }
      assert Scopes(values[..i + 1]) == normalized + [scope];
      normalized := normalized + [scope];
      i := i + 1;
    }
    assert values[..|values|] == values;
    return true;
  }

  /** The inner loop: duplicate or nested paths are refused. */
  method ClearOf(ghost values: seq<string>, normalized: seq<Scope>, scope: Scope) returns (clear: bool)
    requires Parses(values) && normalized == Scopes(values) && Canonical(scope.path)
    ensures clear <==> forall s | s in normalized :: !Share(s, scope)
  {
    hide Parse, Share, Segment;
    var k := 0;
    while k < |normalized|
      invariant 0 <= k <= |normalized|
      invariant forall s | s in normalized[..k] :: !Share(s, scope)
    {
      var existing := normalized[k];
      assert existing in normalized && normalized[..k + 1] == normalized[..k] + [existing];
      assert values[k] in values;
      ParsePrints(values[k]);
      OverlapIsExact(existing, scope);
      if scope.path == existing.path {
        return false;
      }
      if existing.directory && Within(scope.path, existing.path) {
        return false;
      }
      if scope.directory && Within(existing.path, scope.path) {
        return false;
      }
      k := k + 1;
    }
    assert normalized[..|normalized|] == normalized;
    return true;
  }

  lemma NotDisjoint(values: seq<string>, i: nat)
    requires i < |values| && Parses(values[..i]) && Parse(values[i]).Some?
    requires exists s :: s in Scopes(values[..i]) && Share(s, Parse(values[i]).value)
    ensures !(Parses(values) && Disjoint(Scopes(values)))
  {
    hide Share, Parse;
    var s :| s in Scopes(values[..i]) && Share(s, Parse(values[i]).value);
    var k :| 0 <= k < i && Scopes(values[..i])[k] == s;
    if Parses(values) {
      assert Scopes(values)[k] == s && Scopes(values)[i] == Parse(values[i]).value;
    }
  }
}
