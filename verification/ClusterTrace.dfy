/** What one execution does, in order: its journal writes and its external effects.

    A crash at any point leaves a prefix of such a trace, so everything that must survive crashes is
    stated here in a prefix-closed way.
 */
module ClusterTrace {
  import opened Common
  import opened ClusterManifest
  import opened ClusterLifecycle
  import opened ClusterHistory

  datatype Command = Command(id: CommandId, action: nat, kind: CommandKind)

  /** What the injected runner reports: a bounded result, or nothing that can be used. */
  datatype CommandOutcome = Completed(returncode: int) | NoResult

  datatype SpawnOutcome = Child(pid: int, createdAt: int, argv: Token) | SpawnRaised

  datatype Readiness = IsReady | ReadyTimeout | ReadyFailed | ReadyAmbiguous | ReadyRaised

  datatype CloseOutcome = IsClosed | PidReused | Unowned | CloseTimeout | CloseFailed | CloseRaised

  datatype ProbeOutcome = Probed(outcome: TlsOutcome) | ProbeRaised

  /** What a probe is recorded as: an exception counts as ambiguous. */
  function Noted(o: ProbeOutcome): TlsOutcome {
    if o.Probed? then o.outcome else ProbeAmbiguous
  }

  /** What happened, with the answer that was observed. */
  datatype Event =
    /** A durable write; the caller may not have learned of it. */
    | Wrote(before: Record, op: Op, after: Record, acknowledged: bool)
    | Ran(command: Command, outcome: CommandOutcome)
    | Spawned(id: string, child: SpawnOutcome)
    | Awaited(id: string, readiness: Readiness)
    | ProbeMade(id: string, probe: ProbeOutcome)
    | CloseTried(ownership: Ownership, close: CloseOutcome)

  type Trace = seq<Event>

  function Last(t: Trace): Event
    requires t != []
  {
    t[|t| - 1]
  }

  function Init(t: Trace): Trace
    requires t != []
  {
    t[..|t| - 1]
  }

  /** The commands issued, in order. */
  function Commands(t: Trace): (r: seq<Command>)
  {
    if t == [] then [] else
      Commands(Init(t)) + (if Last(t).Ran? then [Last(t).command] else [])
  }

  /** What those commands reported, in the same order. */
  function Outcomes(t: Trace): seq<CommandOutcome> {
    if t == [] then [] else
      Outcomes(Init(t)) + (if Last(t).Ran? then [Last(t).outcome] else [])
  }

  /** The children whose exact identity became durable and was acknowledged, in order. */
  function Children(t: Trace): seq<Ownership> {
    if t == [] then [] else
      Children(Init(t)) + ChildOf(Last(t))
  }

  function ChildOf(e: Event): seq<Ownership> {
    if e.Wrote? && e.acknowledged && e.op.ForwardStarted? && Has(e.after.forwards, e.op.id) then
      [At(e.after.forwards, e.op.id)]
    else []
  }

  /** The close attempts, in order, with the identity they were made with. */
  function Closes(t: Trace): seq<Ownership> {
    if t == [] then [] else
      Closes(Init(t)) + (if Last(t).CloseTried? then [Last(t).ownership] else [])
  }

  /** What the process and probe adapters answered. */
  datatype Sight =
    | SawSpawn(id: string, child: SpawnOutcome)
    | SawWait(id: string, readiness: Readiness)
    | SawProbe(id: string, probe: ProbeOutcome)
    | SawClose(id: string, close: CloseOutcome)

  /** The adapters' answers, in order. */
  function Sights(t: Trace): seq<Sight> {
    if t == [] then [] else Sights(Init(t)) + SightOf(Last(t))
  }

  function SightOf(e: Event): seq<Sight> {
    match e
    case Wrote(_, _, _, _) => []
    case Ran(_, _) => []
    case Spawned(id, child) => [SawSpawn(id, child)]
    case Awaited(id, readiness) => [SawWait(id, readiness)]
    case ProbeMade(id, probe) => [SawProbe(id, probe)]
    case CloseTried(o, close) => [SawClose(o.id, close)]
  }

  /** How many of these commands reported a usable result. */
  function CountCompleted(outcomes: seq<CommandOutcome>): (n: nat)
    ensures n <= |outcomes|
  {
    if outcomes == [] then 0
    else CountCompleted(outcomes[..|outcomes| - 1]) + if outcomes[|outcomes| - 1].Completed? then 1 else 0
  }

  lemma {:induction false} CountBoth(a: seq<CommandOutcome>, b: seq<CommandOutcome>)
    ensures CountCompleted(a + b) == CountCompleted(a) + CountCompleted(b)
    decreases |b|
  {
    if b == [] {
      assert a + b == a;
    } else {
      CountBoth(a, b[..|b| - 1]);
      assert (a + b)[..|a + b| - 1] == a + b[..|b| - 1];
    }
  }

  /** The evidence of a completed command. */
  function EvidenceOf(c: Command, returncode: int): Evidence {
    Evidence(c.id, c.action, c.kind, returncode == 0, returncode)
  }

  predicate IsOpening(e: Event) {
    e.Wrote? && e.acknowledged && OpensMutation(e.before, e.after)
  }

  /** The mutation phase was opened by this very execution, durably and acknowledged. */
  predicate Opened(t: Trace) {
    t != [] && (IsOpening(Last(t)) || Opened(Init(t)))
  }

  predicate IsIntent(e: Event, id: string) {
    e.Wrote? && e.acknowledged && e.op.ForwardIntent? && e.op.ownership.id == id
  }

  predicate IsStart(e: Event, id: string) {
    e.Wrote? && e.acknowledged && e.op.ForwardStarted? && e.op.id == id
  }

  predicate IsProbing(e: Event) {
    e.Wrote? && e.acknowledged && e.op.ToStatus? && e.op.target.TlsDc8Probing?
  }

  /** What one execution may write next: a forward is declared only while every forward of the row is
      STOPPED, and whatever else a write says about a command, a child or a probe is what was observed
      directly before. */
  predicate MayWrite(past: Trace, before: Record, op: Op) {
    match op
    case ToStatus(_, _) => true
    case WithSnapshot(_, _) => true
    case WithApproval(_, _) => true
    case WithEvidence(e, _) =>
      && past != [] && Last(past).Ran? && Last(past).outcome.Completed?
      && e == EvidenceOf(Last(past).command, Last(past).outcome.returncode)
    case ForwardIntent(_, _) => AllStopped(before.forwards)
    case ForwardStarted(id, pid, at, _) =>
      && Has(before.forwards, id) && pid >= 1
      && past != [] && Last(past) == Spawned(id, Child(pid, at, At(before.forwards, id).argv))
    case WithTls(e, _) =>
      past != [] && Last(past).ProbeMade? && Last(past).id == e.forward && e.outcome == Noted(Last(past).probe)
    case ForwardStopped(id, _) => Closing(past, id) && Last(past).close.IsClosed?
    case ForwardAmbiguous(id, _) => Closing(past, id) && !Last(past).close.IsClosed?
  }

  predicate Closing(past: Trace, id: string) {
    past != [] && Last(past).CloseTried? && Last(past).ownership.id == id
  }

  /** What one execution may do next.  A command is never repeated; a mutation, a readiness probe or a
      rollback needs the opening write; a spawn comes right after its durable intent, a wait right after
      the durable start, a probe right after the child was ready; a close attempt goes to the next child
      not yet closed, with its durable identity. */
  predicate May(past: Trace, e: Event) {
    match e
    case Wrote(before, op, _, _) => MayWrite(past, before, op)
    case Ran(c, _) => Unused(Commands(past), c.id) && (c.kind.ServerDryRun? || Opened(past))
    case Spawned(id, _) => past != [] && IsIntent(Last(past), id)
    case Awaited(id, _) => past != [] && IsStart(Last(past), id)
    case ProbeMade(id, _) => |past| > 1 && IsProbing(Last(past)) && past[|past| - 2] == Awaited(id, IsReady)
    case CloseTried(o, _) => Closes(past) + [o] <= Children(past)
  }

  predicate Unused(commands: seq<Command>, id: CommandId) {
    forall c | c in commands :: c.id != id
  }

  predicate Disciplined(t: Trace) {
    t == [] || (Disciplined(Init(t)) && May(Init(t), Last(t)))
  }

  lemma AppendEvent(t: Trace, e: Event)
    ensures Init(t + [e]) == t && Last(t + [e]) == e
    ensures Disciplined(t + [e]) <==> Disciplined(t) && May(t, e)
    ensures Commands(t + [e]) == Commands(t) + (if e.Ran? then [e.command] else [])
    ensures Outcomes(t + [e]) == Outcomes(t) + (if e.Ran? then [e.outcome] else [])
    ensures Children(t + [e]) == Children(t) + ChildOf(e)
    ensures Closes(t + [e]) == Closes(t) + (if e.CloseTried? then [e.ownership] else [])
    ensures Sights(t + [e]) == Sights(t) + SightOf(e)
    ensures Opened(t + [e]) <==> IsOpening(e) || Opened(t)
  {
    assert (t + [e])[..|t|] == t;
  }

  /** Discipline survives a crash at any point. */
  lemma {:induction false} DisciplinedPrefix(t: Trace, n: nat)
    requires Disciplined(t) && n <= |t|
    ensures Disciplined(t[..n])
    decreases |t| - n
  {
    if n < |t| {
      DisciplinedPrefix(t, n + 1);
      assert Init(t[..n + 1]) == t[..n];
    } else {
      assert t[..n] == t;
    }
  }

  /** A disciplined execution repeats no command. */
  lemma {:induction false} CommandOnce(t: Trace, i: nat, j: nat)
    requires Disciplined(t) && i <= j < |t|
    requires t[i].Ran? && t[j].Ran? && t[i].command.id == t[j].command.id
    ensures i == j
  {
    if i < j {
      DisciplinedPrefix(t, j + 1);
      assert Init(t[..j + 1]) == t[..j] && Last(t[..j + 1]) == t[j];
      IssuedBy(t[..j], i);
    }
  }

  lemma {:induction false} IssuedBy(t: Trace, i: nat)
    requires i < |t| && t[i].Ran?
    ensures t[i].command in Commands(t)
    decreases |t|
  {
    if i < |t| - 1 {
      IssuedBy(Init(t), i);
    }
  }

  /** An execution that issues anything but a dry-run made the opening write before it. */
  lemma {:induction false} OpeningWrite(t: Trace) returns (i: nat)
    requires Opened(t)
    ensures i < |t| && IsOpening(t[i])
    decreases |t|
  {
    if IsOpening(Last(t)) {
      i := |t| - 1;
    } else {
      i := OpeningWrite(Init(t));
    }
  }

  lemma GuardedCommand(t: Trace, j: nat) returns (i: nat)
    requires Disciplined(t) && j < |t|
    requires t[j].Ran? && !t[j].command.kind.ServerDryRun?
    ensures i < j && IsOpening(t[i])
  {
    DisciplinedPrefix(t, j + 1);
    assert Init(t[..j + 1]) == t[..j] && Last(t[..j + 1]) == t[j];
    i := OpeningWrite(t[..j]);
  }

  lemma GuardedSpawn(t: Trace, j: nat)
    requires Disciplined(t) && j < |t| && t[j].Spawned?
    ensures j > 0 && IsIntent(t[j - 1], t[j].id)
  {
    DisciplinedStep(t, j);
  }

  /** Every event of a disciplined trace is one that `May` allows. */
  lemma DisciplinedStep(t: Trace, n: nat)
    requires Disciplined(t) && n < |t|
    ensures May(t[..n], t[n])
  {
    hide May;
    DisciplinedPrefix(t, n + 1);
    assert Init(t[..n + 1]) == t[..n] && Last(t[..n + 1]) == t[n];
  }

  /** Probe evidence is what the probe of a ready child of this execution answered: behind it stand, in
      this order and with nothing between, the durable intent, the spawn of exactly the child whose
      identity was written, its readiness, and the probe. */
  lemma ProbeEvidenceIsTrue(t: Trace, j: nat)
    requires Disciplined(t) && j < |t| && t[j].Wrote? && t[j].op.WithTls?
    ensures var id := t[j].op.tls.forward;
            && j >= 6 && IsIntent(t[j - 6], id) && t[j - 5].Spawned? && IsStart(t[j - 4], id)
            && Has(t[j - 4].before.forwards, id)
            && t[j - 5] == Spawned(id, Child(t[j - 4].op.pid, t[j - 4].op.createdAt,
                                             At(t[j - 4].before.forwards, id).argv))
            && t[j - 3] == Awaited(id, IsReady) && IsProbing(t[j - 2])
            && t[j - 1].ProbeMade? && t[j - 1].id == id && t[j].op.tls.outcome == Noted(t[j - 1].probe)
  {
    hide Find;
    DisciplinedStep(t, j);
    DisciplinedStep(t, j - 1);
    DisciplinedStep(t, j - 3);
    DisciplinedStep(t, j - 4);
    DisciplinedStep(t, j - 5);
  }

  /** A forward is marked STOPPED exactly behind a close attempt that the adapter confirmed, and
      CLEANUP_AMBIGUOUS behind one that it did not; the attempt was made with an identity this execution
      had written durably. */
  lemma ClosureIsTrue(t: Trace, j: nat)
    requires Disciplined(t) && j < |t| && t[j].Wrote? && (t[j].op.ForwardStopped? || t[j].op.ForwardAmbiguous?)
    ensures j > 0 && t[j - 1].CloseTried? && t[j - 1].ownership.id == t[j].op.id
    ensures t[j].op.ForwardStopped? <==> t[j - 1].close.IsClosed?
    ensures t[j - 1].ownership in Children(t[..j - 1])
  {
    hide Disciplined, Children, Closes;
    DisciplinedStep(t, j);
    DisciplinedStep(t, j - 1);
    NextInside(Closes(t[..j - 1]), t[j - 1].ownership, Children(t[..j - 1]));
  }

  lemma NextInside(s: seq<Ownership>, o: Ownership, whole: seq<Ownership>)
    requires s + [o] <= whole
    ensures o in whole
  {
    assert (s + [o])[|s|] == o;
  }

  /** The acknowledged write that attaches the snapshot. */
  predicate IsAttach(e: Event) {
    e.Wrote? && e.acknowledged && e.op.WithSnapshot?
  }

  /** No command and no spawn comes before this execution's own snapshot. */
  predicate Coordinated(t: Trace) {
    forall a | 0 <= a < |t| && (t[a].Ran? || t[a].Spawned?) :: Attached(t[..a])
  }

  predicate Attached(t: Trace) {
    exists e :: e in t && IsAttach(e)
  }

  /** Every write of the trace is in the journal, at its generation. */
  predicate Anchored(t: Trace, h: seq<Record>) {
    forall e | e in t && e.Wrote? :: AnchoredWrite(e, h)
  }

  predicate AnchoredWrite(e: Event, h: seq<Record>)
    requires e.Wrote?
  {
    && 1 <= e.before.generation < |h|
    && e.after.generation == e.before.generation + 1
    && h[e.before.generation - 1] == e.before
    && h[e.before.generation] == e.after
    && Commit(e.before, e.op) == Ok(e.after)
  }

  lemma AnchoredGrows(t: Trace, h: seq<Record>, h': seq<Record>)
    requires Anchored(t, h) && h <= h'
    ensures Anchored(t, h')
  {
    forall e | e in t && e.Wrote?
      ensures AnchoredWrite(e, h')
    {
      assert AnchoredWrite(e, h);
    }
  }

  lemma AnchoredAppend(t: Trace, e: Event, h: seq<Record>)
    requires Anchored(t, h) && (e.Wrote? ==> AnchoredWrite(e, h))
    ensures Anchored(t + [e], h)
  {
  }

  /** The writes follow each other: each one is made on a version no older than the one before left. */
  predicate Ordered(t: Trace) {
    forall i, j | 0 <= i < j < |t| && t[i].Wrote? && t[j].Wrote? :: t[i].after.generation <= t[j].before.generation
  }

  lemma OrderedAppend(t: Trace, e: Event, h: seq<Record>)
    requires Ordered(t) && Anchored(t, h) && (e.Wrote? ==> e.before.generation >= |h|)
    ensures Ordered(t + [e])
  {
    forall i | 0 <= i < |t| && t[i].Wrote?
      ensures t[i].after.generation <= |h|
    {
      assert AnchoredWrite(t[i], h);
    }
  }
}
