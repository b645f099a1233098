/** The incremental line splitter and event decoder of src/dispatcher/sessions.py. */
module EventStream {
  import opened Common
  import opened Text

  type Bytes = seq<bv8>

  const NEWLINE: bv8 := 10

  datatype Tokens = Tokens(total: nat, input: nat, output: nat, reasoning: nat, cacheRead: nat, cacheWrite: nat)

  /** A cost as it was sent; an integer beyond the range of a float cannot be converted to one. */
  datatype Price = Price(value: real) | Unconvertible

  /** A decoded line.  `Broken` stands for everything that is refused before the session is looked at. */
  datatype Event =
    | Broken
    | NoSession
    | Text(session: string, valid: bool, size: nat)
    | StepFinish(session: string, valid: bool, tokens: Tokens, cost: Price, id: string, message: string)
    | ErrorReport(session: string, valid: bool)
    | Other(session: string)
    | PartMissing(session: string)

  datatype Failure =
    | BadEvent
    | SessionMissing
    | SessionsMixed
    | BadPart
    | TextTooLong
    | DuplicateFinish
    | CostTooLarge
    | LineTooLong

  datatype Decoder = Decoder(
    session: string, usage: Tokens, cost: Option<real>, finishes: set<string>, texts: nat, textBytes: nat,
    sawFinish: bool, structuredError: bool)

  function Fresh(): Decoder {
    Decoder("", Zero(), None, {}, 0, 0, false, false)
  }

  function Zero(): Tokens { Tokens(0, 0, 0, 0, 0, 0) }

  function Plus(a: Tokens, b: Tokens): Tokens {
    Tokens(a.total + b.total, a.input + b.input, a.output + b.output, a.reasoning + b.reasoning,
           a.cacheRead + b.cacheRead, a.cacheWrite + b.cacheWrite)
  }

  /** The identity of a step_finish event: its part id, or its message and line. */
  function FinishId(e: Event, line: nat): string
    requires e.StepFinish?
  {
    if e.id != "" then e.id else e.message + ":" + Decimal(line)
  }

  datatype Step = Step(decoder: Decoder, failure: Option<Failure>)

  /** Claims the session of an event. */
  function Claim(d: Decoder, session: string): Decoder {
    if d.session == "" then d.(session := session) else d
  }

  /** The tokens are added before the cost is converted. */
  function Counted(d: Decoder, e: Event, line: nat): Decoder
    requires e.StepFinish?
  {
    d.(finishes := d.finishes + {FinishId(e, line)}, usage := Plus(d.usage, e.tokens))
  }

  function Finished(d: Decoder, e: Event, line: nat): Decoder
    requires e.StepFinish? && e.cost.Price?
  {
    Counted(d, e, line).(cost := Some((if d.cost.Some? then d.cost.value else 0.0) + e.cost.value), sawFinish := true)
  }

  /** `consume_line` on a decoded event. */
  function Consume(d: Decoder, e: Event, line: nat, maxBytes: nat): Step {
    if e.Broken? then Step(d, Some(BadEvent))
    else if e.NoSession? || e.session == "" then Step(d, Some(SessionMissing))
    else if d.session != "" && d.session != e.session then Step(d, Some(SessionsMixed))
    else
      var c := Claim(d, e.session);
      match e
      case PartMissing(_) => Step(c, Some(BadPart))
      case Text(_, valid, size) =>
        if !valid then Step(c, Some(BadPart))
        else
          var t := c.(textBytes := c.textBytes + size);
          if t.textBytes > maxBytes then Step(t, Some(TextTooLong)) else Step(t.(texts := t.texts + 1), None)
      case StepFinish(_, valid, _, _, _, _) =>
        if !valid then Step(c, Some(BadPart))
        else if FinishId(e, line) in c.finishes then Step(c, Some(DuplicateFinish))
        else if e.cost.Unconvertible? then Step(Counted(c, e, line), Some(CostTooLarge))
        else Step(Finished(c, e, line), None)
      case ErrorReport(_, valid) =>
        if !valid then Step(c, Some(BadPart)) else Step(c.(structuredError := true), None)
      case _ => Step(c, None)
  }

  // ---------------------------------------------------------------------------------------------
  // A whole stream, line by line

  datatype State = State(decoder: Decoder, failure: Option<Failure>, lines: nat)

  /** One complete line.  After a failure lines are still counted, but not decoded. */
  function Line(s: State, line: Bytes, decode: Bytes -> Event, maxBytes: nat): State {
    if s.failure.Some? then s.(lines := s.lines + 1)
    else
      var step := Consume(s.decoder, decode(line), s.lines + 1, maxBytes);
      State(step.decoder, step.failure, s.lines + 1)
  }

  function Lines(s: State, lines: seq<Bytes>, decode: Bytes -> Event, maxBytes: nat): State {
    if lines == [] then s
    else Line(Lines(s, lines[..|lines| - 1], decode, maxBytes), lines[|lines| - 1], decode, maxBytes)
  }

  /** The lines of a stream: everything up to each newline, and what is left behind the last one. */
  function LinesOf(stream: Bytes): seq<Bytes> {
    var parts := Split(stream, NEWLINE);
    if Last(parts) == [] then Front(parts) else parts
  }

  predicate Fits(stream: Bytes, maxBytes: nat) {
    forall l | l in Split(stream, NEWLINE) :: |l| <= maxBytes
  }

  function Concat(chunks: seq<Bytes>): Bytes {
    if chunks == [] then [] else Concat(chunks[..|chunks| - 1]) + chunks[|chunks| - 1]
  }

  lemma {:induction false} LinesAppend(s: State, a: seq<Bytes>, b: seq<Bytes>, decode: Bytes -> Event, maxBytes: nat)
    ensures Lines(s, a + b, decode, maxBytes) == Lines(Lines(s, a, decode, maxBytes), b, decode, maxBytes)
    decreases |b|
  {
    hide Line;
    if b == [] {
      assert a + b == a;
    } else {
      LinesAppend(s, a, b[..|b| - 1], decode, maxBytes);
      assert (a + b)[..|a + b| - 1] == a + b[..|b| - 1];
    }
  }

  /** The decoder, as an object that is updated line by line. */
  class OpenCodeJsonlDecoder {
    const maxBytes: nat
    var session: string
    var usage: Tokens
    var cost: Option<real>
    var finishes: set<string>
    var texts: nat
    var textBytes: nat
    var sawFinish: bool
    var structuredError: bool

    function Current(): Decoder
      reads this
    {
      Decoder(session, usage, cost, finishes, texts, textBytes, sawFinish, structuredError)
    }

    constructor (maxBytes: nat)
      ensures this.maxBytes == maxBytes && Current() == Fresh()
    {
      this.maxBytes := maxBytes;
      session, usage, cost, finishes := "", Zero(), None, {};
      texts, textBytes, sawFinish, structuredError := 0, 0, false, false;
    }

    /** `consume_line`. */
    method ConsumeLine(e: Event, line: nat) returns (failure: Option<Failure>)
      modifies this
      ensures Step(Current(), failure) == Consume(old(Current()), e, line, maxBytes)
    {
      if e.Broken? {
        return Some(BadEvent);
      }
      if e.NoSession? || e.session == "" {
        return Some(SessionMissing);
      }
      if session != "" && session != e.session {
        return Some(SessionsMixed);
      }
      if session == "" {
        session := e.session;
      }
      match e {
        case PartMissing(_) =>
          return Some(BadPart);
        case Text(_, valid, size) =>
          if !valid {
            return Some(BadPart);
          }
          textBytes := textBytes + size;
          if textBytes > maxBytes {
            return Some(TextTooLong);
          }
          texts := texts + 1;
        case StepFinish(_, valid, tokens, price, _, _) =>
          if !valid {
            return Some(BadPart);
          }
          var id := FinishId(e, line);
          if id in finishes {
            return Some(DuplicateFinish);
          }
          finishes := finishes + {id};
          usage := Plus(usage, tokens);
          if price.Unconvertible? {
            return Some(CostTooLarge);
          }
          cost := Some((if cost.Some? then cost.value else 0.0) + price.value);
          sawFinish := true;
        case ErrorReport(_, valid) =>
          if !valid {
            return Some(BadPart);
          }
          structuredError := true;
        case Other(_) =>
      }
      return None;
    }
  }

  /** `_split_complete_lines`. */
  function SplitComplete(buffer: Bytes): (r: (Bytes, seq<Bytes>))
    ensures NEWLINE !in r.0
    ensures Split(buffer, NEWLINE) == r.1 + [r.0]
  {
    var parts := Split(buffer, NEWLINE);
    PartsPlain(buffer, NEWLINE);
    assert Last(parts) in parts;
    (Last(parts), Front(parts))
  }

  /** The stdout part of `_run_streaming_process`.  Whenever every line fits, the result depends on the
      stream alone and not on how it was cut into chunks: it is what decoding the stream's lines, numbered
      from 1, gives. */
  method RunStream(chunks: seq<Bytes>, decode: Bytes -> Event, maxBytes: nat) returns (s: State)
    ensures Fits(Concat(chunks), maxBytes) ==>
              s == Lines(State(Fresh(), None, 0), LinesOf(Concat(chunks)), decode, maxBytes)
  {
    hide Consume, Split, Line, Lines, LinesOf, Concat, Fits, Fresh, Front, Last, SplitComplete;
    var decoder := new OpenCodeJsonlDecoder(maxBytes);
    var buffer: Bytes, failure: Option<Failure>, lineNumber: nat := [], None, 0;
    ghost var start := State(Fresh(), None, 0);
    ghost var fits := Fits(Concat(chunks), maxBytes);
    SplitEmpty(start, decode, maxBytes);
    var i := 0;
    while i < |chunks|
      invariant 0 <= i <= |chunks| && fresh(decoder) && decoder.maxBytes == maxBytes
      invariant Split(Concat(chunks[..i]), NEWLINE) != [] && buffer == Last(Split(Concat(chunks[..i]), NEWLINE))
      invariant fits ==>
                  State(decoder.Current(), failure, lineNumber) ==
                  Lines(start, Front(Split(Concat(chunks[..i]), NEWLINE)), decode, maxBytes)
    {
      ghost var before := Split(Concat(chunks[..i]), NEWLINE);
      var split := SplitComplete(buffer + chunks[i]);
      NextChunk(chunks, i, split, maxBytes);
      buffer := split.0;
      if |buffer| > maxBytes && failure.None? {
        failure := Some(LineTooLong);
      }
      ghost var base := State(decoder.Current(), failure, lineNumber);
      failure, lineNumber := FeedLines(decoder, split.1, decode, failure, lineNumber);
      LinesAppend(start, Front(before), split.1, decode, maxBytes);
      i := i + 1;
    }
    assert chunks[..|chunks|] == chunks;
    ghost var parts := Split(Concat(chunks), NEWLINE);
    LastLine(Concat(chunks));
    if buffer != [] {
      LinesAppend(start, Front(parts), [buffer], decode, maxBytes);
      OneLine(State(decoder.Current(), failure, lineNumber), buffer, decode, maxBytes);
      failure, lineNumber := FeedLines(decoder, [buffer], decode, failure, lineNumber);
    }
    s := State(decoder.Current(), failure, lineNumber);
  }

  /** What one more chunk does to the split stream. */
  lemma NextChunk(chunks: seq<Bytes>, i: nat, split: (Bytes, seq<Bytes>), maxBytes: nat)
    requires i < |chunks|
    requires split == SplitComplete(Last(Split(Concat(chunks[..i]), NEWLINE)) + chunks[i])
    ensures var before, after := Split(Concat(chunks[..i]), NEWLINE), Split(Concat(chunks[..i + 1]), NEWLINE);
            Front(after) == Front(before) + split.1 && Last(after) == split.0
    ensures Fits(Concat(chunks), maxBytes) ==> |split.0| <= maxBytes
  {
    hide Split, Concat, Front, Last, SplitComplete;
    var before, after := Split(Concat(chunks[..i]), NEWLINE), Split(Concat(chunks[..i + 1]), NEWLINE);
    ConcatNext(chunks, i);
    SplitMore(Concat(chunks[..i]), chunks[i], NEWLINE);
    Regroup(after, Front(before), Split(Last(before) + chunks[i], NEWLINE), split.1, split.0);
    if Fits(Concat(chunks), maxBytes) {
      PrefixFits(chunks, i + 1, maxBytes);
    }
  }

  lemma SplitEmpty(start: State, decode: Bytes -> Event, maxBytes: nat)
    ensures Concat([]) == [] && Split(Concat([]), NEWLINE) != [] && Last(Split(Concat([]), NEWLINE)) == []
    ensures Lines(start, Front(Split(Concat([]), NEWLINE)), decode, maxBytes) == start
  {
  }

  /** What is left behind the last newline is a line of its own, unless it is empty. */
  lemma LastLine(stream: Bytes)
    ensures var parts := Split(stream, NEWLINE);
            && parts != [] && LinesOf(stream) == if Last(parts) == [] then Front(parts) else Front(parts) + [Last(parts)]
  {
    hide Split;
    var parts := Split(stream, NEWLINE);
    assert parts == Front(parts) + [Last(parts)];
  }

  lemma OneLine(s: State, line: Bytes, decode: Bytes -> Event, maxBytes: nat)
    ensures Lines(s, [line], decode, maxBytes) == Line(s, line, decode, maxBytes)
  {
    assert [line][..0] == [];
  }

  lemma ConcatNext(chunks: seq<Bytes>, i: nat)
    requires i < |chunks|
    ensures Concat(chunks[..i + 1]) == Concat(chunks[..i]) + chunks[i]
  {
    assert chunks[..i + 1][..i] == chunks[..i];
  }

  /** The lines of a prefix are no longer than those of the whole stream. */
  lemma {:induction false} PrefixFits(chunks: seq<Bytes>, i: nat, maxBytes: nat)
    requires i <= |chunks| && Fits(Concat(chunks), maxBytes)
    ensures Fits(Concat(chunks[..i]), maxBytes)
    decreases |chunks| - i
  {
    hide Concat, Fits;
    if i == |chunks| {
      assert chunks[..i] == chunks;
    } else {
      PrefixFits(chunks, i + 1, maxBytes);
      ConcatNext(chunks, i);
      ShorterFits(Concat(chunks[..i]), chunks[i], maxBytes);
    }
  }

  lemma ShorterFits(stream: Bytes, more: Bytes, maxBytes: nat)
    requires Fits(stream + more, maxBytes)
    ensures Fits(stream, maxBytes)
  {
    hide Split;
    SplitMore(stream, more, NEWLINE);
    var parts := Split(stream, NEWLINE);
    var rest := Split(Last(parts) + more, NEWLINE);
    PartsPlain(stream, NEWLINE);
    assert parts[|parts| - 1] in parts;
    FirstPart(Last(parts), more);
    forall l | l in parts
      ensures |l| <= maxBytes
    {
      var k :| 0 <= k < |parts| && parts[k] == l;
      if k < |parts| - 1 {
        assert (Front(parts) + rest)[k] == l;
      } else {
        assert (Front(parts) + rest)[|parts| - 1] == rest[0];
      }
    }
  }

  /** The first part of a text that starts without a newline covers that start. */
  lemma FirstPart(start: Bytes, more: Bytes)
    ensures NEWLINE !in start ==> |Split(start + more, NEWLINE)[0]| >= |start|
  {
    if NEWLINE !in start && start != [] {
      FirstPart(start[1..], more);
      assert (start + more)[1..] == start[1..] + more;
    }
  }

  /** The loop over the complete lines of a chunk. */
  method FeedLines(decoder: OpenCodeJsonlDecoder, lines: seq<Bytes>, decode: Bytes -> Event,
                   failure0: Option<Failure>, number0: nat)
    returns (failure: Option<Failure>, lineNumber: nat)
    modifies decoder
    ensures State(decoder.Current(), failure, lineNumber) ==
            Lines(State(old(decoder.Current()), failure0, number0), lines, decode, decoder.maxBytes)
  {
    hide Consume;
    failure, lineNumber := failure0, number0;
    ghost var start := State(decoder.Current(), failure, lineNumber);
    var i := 0;
    while i < |lines|
      invariant 0 <= i <= |lines|
      invariant State(decoder.Current(), failure, lineNumber) == Lines(start, lines[..i], decode, decoder.maxBytes)
    {
      assert lines[..i + 1][..i] == lines[..i];
      lineNumber := lineNumber + 1;
      if failure.None? {
        failure := decoder.ConsumeLine(decode(lines[i]), lineNumber);
      }
      i := i + 1;
    }
    assert lines[..|lines|] == lines;
  }

  // ---------------------------------------------------------------------------------------------
  // What a stream without failure adds up to

  function EventsOf(lines: seq<Bytes>, decode: Bytes -> Event): seq<Event> {
    seq(|lines|, i requires 0 <= i < |lines| => decode(lines[i]))
  }

  function UsageOf(events: seq<Event>): Tokens {
    if events == [] then Zero()
    else
      var last := events[|events| - 1];
      if last.StepFinish? then Plus(UsageOf(events[..|events| - 1]), last.tokens) else UsageOf(events[..|events| - 1])
  }

  function CostOf(events: seq<Event>): real {
    if events == [] then 0.0 else CostOf(events[..|events| - 1]) + PriceOf(events[|events| - 1])
  }

  function PriceOf(e: Event): real {
    if e.StepFinish? && e.cost.Price? then e.cost.value else 0.0
  }

  function SessionOf(e: Event): string {
    match e
    case Broken => ""
    case NoSession => ""
    case Text(s, _, _) => s
    case StepFinish(s, _, _, _, _, _) => s
    case ErrorReport(s, _) => s
    case Other(s) => s
    case PartMissing(s) => s
  }

  /** Without a failure the usage and the cost are the sums over the step_finish events, every event
      belongs to the one session, and no two step_finish events share their identity. */
  lemma {:induction false} CleanStream(lines: seq<Bytes>, decode: Bytes -> Event, maxBytes: nat)
    requires Lines(State(Fresh(), None, 0), lines, decode, maxBytes).failure.None?
    ensures var s, events := Lines(State(Fresh(), None, 0), lines, decode, maxBytes), EventsOf(lines, decode);
            && s.lines == |lines|
            && s.decoder.usage == UsageOf(events)
            && (if s.decoder.cost.Some? then s.decoder.cost.value else 0.0) == CostOf(events)
            && (forall e | e in events :: SessionOf(e) == s.decoder.session && SessionOf(e) != "")
            && (s.decoder.session != "" <==> lines != [])
            && (forall i | 0 <= i < |events| && events[i].StepFinish? ::
                  FinishId(events[i], i + 1) in s.decoder.finishes)
            && DistinctFinishes(events)
  {
    hide Consume, DistinctFinishes, Plus, FinishId;
    if lines == [] {
      assert DistinctFinishes([]) by { NothingFinished(); }
    } else {
      var front := lines[..|lines| - 1];
      var last := decode(lines[|lines| - 1]);
      CleanStream(front, decode, maxBytes);
      var s := Lines(State(Fresh(), None, 0), front, decode, maxBytes);
      var events := EventsOf(lines, decode);
      assert events[..|events| - 1] == EventsOf(front, decode) && events[|events| - 1] == last;
      LastEvent(s.decoder, last, |lines|, maxBytes);
      AppendClean(EventsOf(front, decode), last, s.decoder.finishes);
      assert events == EventsOf(front, decode) + [last];
    }
  }

  lemma NothingFinished()
    ensures DistinctFinishes([])
  {
  }

  predicate DistinctFinishes(events: seq<Event>) {
    forall i, j | 0 <= i < j < |events| && events[i].StepFinish? && events[j].StepFinish? ::
      FinishId(events[i], i + 1) != FinishId(events[j], j + 1)
  }

  /** What one accepted event does. */
  lemma LastEvent(d: Decoder, e: Event, line: nat, maxBytes: nat)
    requires Consume(d, e, line, maxBytes).failure.None?
    ensures var u := Consume(d, e, line, maxBytes).decoder;
            && SessionOf(e) == u.session && SessionOf(e) != "" && (d.session == "" || d.session == u.session)
            && (if e.StepFinish? then
                  && u.usage == Plus(d.usage, e.tokens) && u.cost.Some? && e.cost.Price?
                  && u.cost.value == (if d.cost.Some? then d.cost.value else 0.0) + e.cost.value
                  && FinishId(e, line) !in d.finishes && u.finishes == d.finishes + {FinishId(e, line)}
                else u.usage == d.usage && u.cost == d.cost && u.finishes == d.finishes)
  {
    hide FinishId, Plus;
  }

  lemma AppendClean(events: seq<Event>, e: Event, finishes: set<string>)
    requires DistinctFinishes(events)
    requires forall i | 0 <= i < |events| && events[i].StepFinish? :: FinishId(events[i], i + 1) in finishes
    requires e.StepFinish? ==> FinishId(e, |events| + 1) !in finishes
    ensures DistinctFinishes(events + [e])
  {
    hide FinishId;
  }

  /** How many lines were decoded before the first failing one. */
  function Accepted(lines: seq<Bytes>, decode: Bytes -> Event, maxBytes: nat): (n: nat)
    ensures n <= |lines|
    ensures n == |lines| <==> Lines(State(Fresh(), None, 0), lines, decode, maxBytes).failure.None?
  {
    if Lines(State(Fresh(), None, 0), lines, decode, maxBytes).failure.None? then |lines|
    else Accepted(lines[..|lines| - 1], decode, maxBytes)
  }

  /** A refused event leaves what was counted alone, except that one whose cost cannot be converted has
      had its tokens added. */
  lemma RefusedEvent(d: Decoder, e: Event, line: nat, maxBytes: nat)
    requires Consume(d, e, line, maxBytes).failure.Some?
    ensures var u, failure := Consume(d, e, line, maxBytes).decoder, Consume(d, e, line, maxBytes).failure;
            && u.cost == d.cost && u.texts == d.texts
            && (failure == Some(CostTooLarge) <==> u.finishes != d.finishes)
            && (failure == Some(CostTooLarge) ==> e.StepFinish? && e.cost.Unconvertible?)
            && u.usage == if failure == Some(CostTooLarge) then Plus(d.usage, e.tokens) else d.usage
  {
    hide FinishId, Finished;
  }

  /** The usage that is kept: that of the accepted lines, and that of the failing line if only the
      conversion of its cost failed. */
  predicate KeptUsage(u: Tokens, accepted: Tokens, failure: Option<Failure>, next: Event) {
    if failure == Some(CostTooLarge) then
      next.StepFinish? && next.cost.Unconvertible? && u == Plus(accepted, next.tokens)
    else u == accepted
  }

  /** The first line that was not accepted. */
  function Failing(lines: seq<Bytes>, decode: Bytes -> Event, n: nat): Event {
    if n < |lines| then decode(lines[n]) else Broken
  }

  lemma {:induction false} AcceptedPrefix(lines: seq<Bytes>, decode: Bytes -> Event, maxBytes: nat)
    ensures var start, n := State(Fresh(), None, 0), Accepted(lines, decode, maxBytes);
            var s, t := Lines(start, lines, decode, maxBytes), Lines(start, lines[..n], decode, maxBytes);
            && t.failure.None? && s.lines == |lines|
            && s.decoder.cost == t.decoder.cost && s.decoder.texts == t.decoder.texts
            && KeptUsage(s.decoder.usage, t.decoder.usage, s.failure, Failing(lines, decode, n))
  {
    hide Consume;
    var start, n := State(Fresh(), None, 0), Accepted(lines, decode, maxBytes);
    if n == |lines| {
      assert lines[..n] == lines;
      CleanStream(lines, decode, maxBytes);
    } else {
      var front := lines[..|lines| - 1];
      AcceptedPrefix(front, decode, maxBytes);
      assert front[..n] == lines[..n];
      var s := Lines(start, front, decode, maxBytes);
      if s.failure.None? {
        RefusedEvent(s.decoder, decode(lines[|lines| - 1]), |lines|, maxBytes);
      }
    }
  }

  /** Any stream, failing or not: usage and cost are the sums over the step_finish events of the lines in
      front of the first failing one, and those events have distinct identities and one session.  Only when
      the failing line's cost cannot be converted, its tokens are counted as well. */
  lemma AnyStream(lines: seq<Bytes>, decode: Bytes -> Event, maxBytes: nat)
    ensures var n := Accepted(lines, decode, maxBytes);
            var s, events := Lines(State(Fresh(), None, 0), lines, decode, maxBytes), EventsOf(lines[..n], decode);
            && s.lines == |lines| && (s.failure.None? <==> n == |lines|)
            && KeptUsage(s.decoder.usage, UsageOf(events), s.failure, Failing(lines, decode, n))
            && (if s.decoder.cost.Some? then s.decoder.cost.value else 0.0) == CostOf(events)
            && DistinctFinishes(events)
            && (forall i, j | 0 <= i < j < |events| :: SessionOf(events[i]) == SessionOf(events[j]) != "")
  {
    hide Consume, DistinctFinishes, Lines, UsageOf, CostOf;
    var n := Accepted(lines, decode, maxBytes);
    AcceptedPrefix(lines, decode, maxBytes);
    CleanStream(lines[..n], decode, maxBytes);
  }
}
