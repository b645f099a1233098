/** The part of src/dispatcher/execution.py that drives one row from review to its end, and that meets
    the row again after a crash.
 */
module ClusterCoordinator {
  import opened Common
  import opened ClusterManifest
  import opened ClusterLifecycle
  import opened ClusterHistory
  import opened ClusterProgress
  import opened ClusterTrace
  import opened ClusterCommands
  import opened ClusterWorld
  import opened ClusterSteps
  import opened ClusterPlan
  import opened ClusterVerdict
  import opened ClusterRunner

  /** `_validate_existing_cluster_operation`. */
  predicate SameOperation(existing: Record, expected: Record) {
    && existing.identity.step == expected.identity.step && existing.identity.target == expected.identity.target
    && existing.identity.plan == expected.identity.plan && existing.identity.config == expected.identity.config
    && existing.identity.manifest == expected.identity.manifest
    && existing.actions == expected.actions && existing.rollback == expected.rollback
  }

  /** The status `_transition_cluster_operation_to_safe_failure` writes, if any. */
  function SafeFailure(s: Status): Option<Status> {
    if s in {MutationStarted, Mutated, Probing, PortForwardIntent, PortForwardStarted, TlsDc8Probing, RollbackStarted}
    then Some(ReconciliationRequired)
    else if s in {Discovered, StaticValidated, SnapshotCaptured, Approved, ServerDryRunPassed} then Some(Failed)
    else None
  }

  /** The status a row has after its safe failure. */
  function SafeStatus(s: Status): Status {
    if SafeFailure(s).Some? then SafeFailure(s).value else s
  }

  /** A row is marked for reconciliation exactly when it reached the mutation boundary or the forwards
      without being settled; any earlier row just fails. */
  lemma SafeFailureAllowed(s: Status)
    ensures SafeFailure(s).None? <==> AtRest(s)
    ensures SafeFailure(s) == Some(ReconciliationRequired) <==> Rank(s) >= 5 && !AtRest(s)
    ensures SafeFailure(s) == Some(Failed) <==> Rank(s) < 5
    ensures SafeFailure(s).Some? ==>
              SafeFailure(s).value in Transitions(s) && SafeFailure(s).value in {Failed, ReconciliationRequired}
  {
  }

  lemma SettleAccepted(r: Record, target: Status, now: int)
    requires ValidRecord(r) && now >= r.createdAt
    requires target in Transitions(r.status) && target in {Failed, ReconciliationRequired}
    requires target.Failed? ==> r.forwards == []
    ensures Commit(r, ToStatus(target, now)).Ok?
  {
    hide ValidForwards, DistinctEvidence, DistinctProbes, DistinctActions, ValidApproval, ValidSnapshot, Position;
  }

  /** Only writes so far. */
  predicate OnlyWrites(t: Trace) {
    forall e | e in t :: e.Wrote?
  }

  lemma WritesAreCoordinated(t: Trace)
    requires OnlyWrites(t)
    ensures Coordinated(t)
  {
    forall a | 0 <= a < |t|
      ensures !t[a].Ran? && !t[a].Spawned?
    {
      assert t[a] in t;
    }
  }

  /** Whatever follows the attachment is coordinated. */
  lemma AttachedFirst(t0: Trace, t1: Trace)
    requires OnlyWrites(t0) && Attached(t0) && t0 <= t1
    ensures Coordinated(t1)
  {
    var e :| e in t0 && IsAttach(e);
    assert forall b | 0 <= b < |t0| :: t1[b] == t0[b] && t0[b] in t0;
    forall a | 0 <= a < |t1| && (t1[a].Ran? || t1[a].Spawned?)
      ensures Attached(t1[..a])
    {
      var i :| 0 <= i < |t0| && t0[i] == e;
      if a >= |t0| {
        assert t1[..a][i] == e;
      }
    }
  }

  lemma {:induction false} WritesMakeNothing(t: Trace)
    requires OnlyWrites(t)
    ensures Commands(t) == [] && Outcomes(t) == [] && Closes(t) == [] && Sights(t) == []
  {
    if t != [] {
      assert forall e | e in Init(t) :: e in t;
      assert Last(t) in t;
      WritesMakeNothing(Init(t));
    }
  }

  /** SUCCEEDED is for good. */
  lemma {:induction false} SucceededStays(h: seq<Record>, i: nat, j: nat)
    requires IsHistory(h) && i <= j < |h| && h[i].status.Succeeded?
    ensures h[j].status.Succeeded?
    decreases j - i
  {
    hide Written, ValidRecord;
    if i < j {
      SucceededStays(h, i, j - 1);
      WriteEffect(h[j - 1], h[j]);
    }
  }

  /** One run of the runner: the approved row it was given, what it did and how it ended. */
  datatype Run = Run(runner: ClusterOperationRunner, approved: Record, plan: Plan, account: Account, outcome: Outcome)

  /** A run that raised behind its own first accepted write: a dry-run other than the first reported
      nothing, or, before the forwards, more results came than the row can hold evidence of. */
  predicate Stranded(a: Account) {
    Strands(0, a) && a.results != [NoResult]
  }

  class ClusterOperationCoordinator {
    const world: World
    const digest: Action -> Token
    const argv: Action -> Token
    const config: Token
    const toolchain: Token
    const adapters: bool

    constructor (world: World, digest: Action -> Token, argv: Action -> Token, config: Token, toolchain: Token,
                 adapters: bool)
      ensures this.world == world && this.digest == digest && this.argv == argv
      ensures this.config == config && this.toolchain == toolchain && this.adapters == adapters
    {
      this.world := world;
      this.digest := digest;
      this.argv := argv;
      this.config := config;
      this.toolchain := toolchain;
      this.adapters := adapters;
    }

    /** No other writer, and `record` is the row as it stands. */
    ghost predicate Alone(record: Record)
      reads world
    {
      world.Still() && record.generation == |world.history| && record.createdAt <= world.clock
    }

    ghost function Latest(): Record
      requires world.Valid()
      reads world
    {
      world.history[|world.history| - 1]
    }

    /** One write of the coordinator itself. */
    method Store(record: Record, op: Op) returns (r: Option<Record>)
      requires world.Valid() && world.Known(record) && Disciplined(world.trace)
      requires op.ToStatus? || op.WithSnapshot? || op.WithApproval?
      modifies world`cursor, world`history, world`trace, world`faults
      ensures world.Valid() && old(world.history) <= world.history && world.cursor == old(world.cursor) + 1
      ensures Disciplined(world.trace) && Children(world.trace) == Children(old(world.trace))
      ensures OneWrite(old(world.trace), world.trace) && world.Known(record)
      ensures r.Some? ==>
                && world.Known(r.value) && r.value == After(record, op)
                && world.trace == old(world.trace) + [Wrote(record, op, r.value, true)]
                && r.value.generation == |world.history|
      ensures old(Alone(record)) ==> (r.Some? <==> Commit(record, op).Ok?)
      ensures old(Alone(record)) ==> Alone(if r.Some? then r.value else record)
      ensures old(world.Still()) && record.generation < |old(world.history)| ==>
                world.Still() && world.history == old(world.history)
    {
      hide Commit, ForwardGuard, ForwardsAfter, World.Valid, ValidRecord;
      ghost var t := world.trace;
      r := world.Update(record, op);
      AppendEvent(t, Wrote(record, op, After(record, op), r.Some?));
    }

    /** `_transition_cluster_operation_to_safe_failure`: the row is settled when `record` is the row as it
        stands; a record that is no longer the newest is refused, and the row stays as it is. */
    method FailSafely(record: Record)
      requires world.Valid() && world.Known(record) && Disciplined(world.trace)
      modifies world`cursor, world`clock, world`history, world`trace, world`faults
      ensures world.Valid() && old(world.history) <= world.history
      ensures Disciplined(world.trace) && OneWrite(old(world.trace), world.trace)
      ensures old(Alone(record)) ==>
                AtRest(Latest().status) && Latest().status == SafeStatus(record.status)
      ensures old(world.Still()) && record.generation < |old(world.history)| ==>
                world.Still() && world.history == old(world.history)
    {
      hide Commit, World.Valid, ValidRecord, After, Transitions, Disciplined;
      SafeFailureAllowed(record.status);
      KnownFacts(record);
      match SafeFailure(record.status) {
        case None =>
        case Some(target) =>
          ghost var alone := world.clock >= record.createdAt;
          var now := world.Now();
          assert old(Alone(record)) ==> alone && Alone(record);
          if alone {
            SettleAccepted(record, target, now);
          }
          var w := Store(record, ToStatus(target, now));
          AfterMove(record, target, now);
          if w.Some? {
            KnownFacts(w.value);
          }
      }
    }

    lemma KnownFacts(record: Record)
      requires world.Valid() && world.Known(record)
      ensures ValidRecord(record)
      ensures Rank(record.status) < 6 ==> record.forwards == []
      ensures record.generation == |world.history| ==> Latest() == record
    {
      hide ValidRecord;
      HistoryBasics(world.history, record.generation - 1);
      if Rank(record.status) < 6 {
        EarlyRecordsHoldNoForward(world.history, record.generation - 1);
      }
    }

    /** One more write. */
    lemma StillOnlyWrites(t0: Trace, t1: Trace)
      requires OnlyWrites(t0) && OneWrite(t0, t1)
      ensures OnlyWrites(t1) && Coordinated(t1) && t0 <= t1
    {
      if t1 != t0 {
        assert t1 == t0 + [t1[|t0|]];
      }
      WritesAreCoordinated(t1);
    }

    /** The row that the review makes of a STATIC_VALIDATED one: its snapshot and its approval attached, when
        the envelope, the capture and both writes allow it. */
    ghost function Reviewed(record: Record, c: nat, clock: int): Option<Record> {
      var snapshot := world.script(c).captured;
      var now := Later(clock, world.script(c + 1).time);
      if snapshot.None? || Commit(record, WithSnapshot(snapshot.value, now)).Err? then None
      else ApprovedRow(After(record, WithSnapshot(snapshot.value, now)), c + 3, now)
    }

    ghost function ApprovedRow(record: Record, c: nat, clock: int): Option<Record> {
      var approval := world.script(c).granted;
      var now := Later(clock, world.script(c + 1).time);
      if approval.None? || Commit(record, WithApproval(approval.value, now)).Err? then None
      else Some(After(record, WithApproval(approval.value, now)))
    }

    /** A run of this coordinator's runner on a row it approved. */
    ghost predicate Ours(run: Run) {
      && run.runner.world == world && run.runner.digest == digest && run.runner.argv == argv
      && run.runner.config == config && run.runner.toolchain == toolchain && run.runner.adapters == adapters
      && run.runner.earlier == [] && run.approved.status.Approved?
    }

    /** Whether the runner started, when it inspects the environment with request `c`. */
    ghost predicate Starts(op: Operation, run: Run, c: nat) {
      run.runner.Launchable(op, run.approved) && world.script(c).inspected
    }

    /** The approval of the run expires at `expiry`. */
    ghost predicate Until(run: Run, expiry: int) {
      run.approved.approval.Some? && run.approved.approval.value.expiresAt == expiry
    }

    /** A quiet journal until the approval of the run expires. */
    ghost predicate Undisturbed(record: Record)
      reads world
    {
      record.approval.Some? && Alone(record) && world.Calm(record.approval.value.expiresAt)
    }

    /** How a quiet run settles the row, when it inspects the environment with request `c`: always, except
        behind a runner that raised after its own first accepted write.  And what the run was. */
    ghost predicate Settled(op: Operation, run: Run, c: nat, ok: bool)
      requires world.Valid()
      reads world
    {
      && (AtRest(Latest().status) <==> !(Starts(op, run, c) && Stranded(run.account)))
      && (Starts(op, run, c) ==> Explained(op, run, c + 1))
      && (ok <==> Latest().status.Succeeded?)
    }

    ghost predicate Explained(op: Operation, run: Run, c: nat) {
      && run.runner.Launchable(op, run.approved) && run.plan == run.runner.PlanFor(op, run.approved)
      && AllHelm(run.plan.helm) && !Unprepared(run.approved, run.plan) && Tidy(argv, run.plan, run.account)
      && run.runner.Answered(c, run.account)
      && (CountCompleted(run.account.results + run.account.outs) <= 200 ==>
            Exact(argv, run.approved, run.plan, run.outcome, run.account))
    }

    /** `_execute_cluster_operation_after_review` for a row that exists: whether the step may be accepted. */
    method ExecuteAfterReview(op: Operation, expected: Record)
      returns (ok: bool, ghost loaded: Option<Record>, ghost run: Option<Run>)
      requires world.Valid() && world.trace == [] && DeclaredScope(op.manifest)
      modifies world
      ensures world.Valid() && old(world.history) <= world.history
      ensures Disciplined(world.trace) && Coordinated(world.trace)
      ensures ok ==> Latest().status.Succeeded?
      ensures old(world.Still()) ==> loaded == Some(old(Latest()))
      ensures loaded.None? ==> !ok && world.trace == [] && world.releases == old(world.releases)
      ensures loaded.Some? && !Begins(loaded.value, expected, old(world.cursor) + 1) ==>
                && OneWrite([], world.trace) && world.releases == old(world.releases) && run.None?
                && (ok <==> && SameOperation(loaded.value, expected) && loaded.value.status.Succeeded?
                            && world.script(old(world.cursor) + 1).granted.Some?)
      ensures loaded.Some? && !Begins(loaded.value, expected, old(world.cursor) + 1) ==>
                (old(world.Still()) && loaded.value.createdAt <= old(world.clock) ==>
                   AtRest(Latest().status) && Latest().status == SafeStatus(loaded.value.status))
      ensures loaded.Some? && Begins(loaded.value, expected, old(world.cursor) + 1) ==>
                (old(world.Still()) && loaded.value.createdAt <= old(world.clock) ==>
                   && Reviewed(loaded.value, old(world.cursor) + 2, old(world.clock)) ==
                      (if run.Some? then Some(run.value.approved) else None)
                   && (run.None? ==> !ok && AtRest(Latest().status)))
      ensures run.Some? ==> Ours(run.value)
      ensures loaded.None? ==> run.None?
      ensures forall x | old(world.Calm(x)) && run.Some? && Until(run.value, x) &&
                         loaded.value.createdAt <= old(world.clock) ::
                Settled(op, run.value, old(world.cursor) + 9, ok)
    {
      hide World.Valid, Coordinated, DeclaredScope, SameOperation, OnlyWrites, Settled, Ours, Disciplined, Reviewed,
        World.StillFrom, Children, After, Commit, ValidRecord, Until, Rank, Find;
      StartsEmpty();
      run := None;
      var row := world.Load();
      loaded := row;
      if row.None? {
        return false, loaded, run;
      }
      var record := row.value;
      assert old(world.Still()) && record.createdAt <= old(world.clock) ==> Alone(record);
      KnownFacts(record);
      if SameOperation(record, expected) {
        var granted := Envelope(record);
        if granted && record.status.Succeeded? {
          return true, loaded, run;
        }
        if granted && record.status.StaticValidated? {
          ok, run := Begin(op, record);
          return ok, loaded, run;
        }
      }
      FailSafely(record);
      StillOnlyWrites([], world.trace);
      return false, loaded, run;
    }

    /** The row is taken from STATIC_VALIDATED on. */
    ghost predicate Begins(record: Record, expected: Record, c: nat) {
      SameOperation(record, expected) && world.script(c).granted.Some? && record.status.StaticValidated?
    }

    lemma StartsEmpty()
      ensures OnlyWrites([]) && Disciplined([]) && Coordinated([]) && Children([]) == []
    {
    }

    /** Whether the envelope still covers the operation. */
    method Envelope(ghost record: Record) returns (ok: bool)
      modifies world`cursor
      ensures ok == world.script(old(world.cursor)).granted.Some? && world.cursor == old(world.cursor) + 1
      ensures old(Alone(record)) ==> Alone(record)
    {
      var approval := world.Grant();
      ok := approval.Some?;
    }

    /** From STATIC_VALIDATED on. */
    method Begin(op: Operation, record: Record) returns (ok: bool, ghost run: Option<Run>)
      requires world.Valid() && world.Known(record) && world.trace == [] && DeclaredScope(op.manifest)
      modifies world
      ensures world.Valid() && old(world.history) <= world.history
      ensures Disciplined(world.trace) && Coordinated(world.trace)
      ensures ok ==> Latest().status.Succeeded?
      ensures old(Alone(record)) ==>
                && Reviewed(record, old(world.cursor), old(world.clock)) ==
                   (if run.Some? then Some(run.value.approved) else None)
                && (run.None? ==> !ok && AtRest(Latest().status))
      ensures run.Some? ==> Ours(run.value)
      ensures forall x | old(Alone(record) && world.Calm(x)) && run.Some? && Until(run.value, x) ::
                Settled(op, run.value, old(world.cursor) + 7, ok)
    {
      hide World.Valid, Coordinated, DeclaredScope, OnlyWrites, Disciplined, After, Attached, Commit, OneWrite,
        Settled, Ours, ApprovedRow, Children, World.StillFrom, World.Known, SafeStatus, AtRest, Later;
      StartsEmpty();
      run := None;
      var snapshot := world.Capture();
      if snapshot.None? {
        FailSafely(record);
        StillOnlyWrites([], world.trace);
        return false, run;
      }
      var now := world.Now();
      var captured := Store(record, WithSnapshot(snapshot.value, now));
      StillOnlyWrites([], world.trace);
      if captured.None? {
        ghost var t := world.trace;
        FailSafely(record);
        StillOnlyWrites(t, world.trace);
        return false, run;
      }
      JustAttached([], Wrote(record, WithSnapshot(snapshot.value, now), captured.value, true));
      ok, run := Approve(op, captured.value);
    }

    lemma JustAttached(t: Trace, e: Event)
      requires IsAttach(e)
      ensures Attached(t + [e])
    {
      assert (t + [e])[|t|] == e;
    }

    /** Behind the durable snapshot. */
    method Approve(op: Operation, record: Record) returns (ok: bool, ghost run: Option<Run>)
      requires world.Valid() && world.Known(record) && DeclaredScope(op.manifest)
      requires OnlyWrites(world.trace) && Attached(world.trace) && Disciplined(world.trace) &&
               Children(world.trace) == []
      modifies world
      ensures world.Valid() && old(world.history) <= world.history
      ensures Disciplined(world.trace) && Coordinated(world.trace)
      ensures ok ==> Latest().status.Succeeded?
      ensures old(Alone(record)) ==>
                && ApprovedRow(record, old(world.cursor), old(world.clock)) ==
                   (if run.Some? then Some(run.value.approved) else None)
                && (run.None? ==> !ok && AtRest(Latest().status))
      ensures run.Some? ==> Ours(run.value)
      ensures forall x | old(Alone(record) && world.Calm(x)) && run.Some? && Until(run.value, x) ::
                Settled(op, run.value, old(world.cursor) + 4, ok)
    {
      hide World.Valid, Coordinated, DeclaredScope, OnlyWrites, Disciplined, Attached, After, Commit, OneWrite,
        Settled, Ours, Children, World.StillFrom, World.Known, SafeStatus, AtRest, Later;
      ghost var t := world.trace;
      run := None;
      var approval := world.Grant();
      if approval.None? {
        FailSafely(record);
        StillOnlyWrites(t, world.trace);
        return false, run;
      }
      var now := world.Now();
      var approved := Store(record, WithApproval(approval.value, now));
      StillOnlyWrites(t, world.trace);
      AttachedStays(t, world.trace);
      if approved.None? {
        ghost var t1 := world.trace;
        FailSafely(record);
        StillOnlyWrites(t1, world.trace);
        return false, run;
      }
      ApprovedFacts(record, approval.value, now);
      ghost var made;
      ok, made := Launch(op, approved.value);
      run := Some(made);
    }

    lemma ApprovedFacts(record: Record, a: Approval, now: int)
      ensures After(record, WithApproval(a, now)).status.Approved?
      ensures After(record, WithApproval(a, now)).evidence == []
    {
    }

    lemma AttachedStays(t0: Trace, t1: Trace)
      requires Attached(t0) && t0 <= t1
      ensures Attached(t1)
    {
      var e :| e in t0 && IsAttach(e);
      var i :| 0 <= i < |t0| && t0[i] == e;
      assert t1[i] == e;
    }

    /** The run of the approved row. */
    method Launch(op: Operation, record: Record) returns (ok: bool, ghost run: Run)
      requires world.Valid() && world.Known(record) && DeclaredScope(op.manifest)
      requires record.status.Approved? && record.evidence == []
      requires OnlyWrites(world.trace) && Attached(world.trace) && Disciplined(world.trace) &&
               Children(world.trace) == []
      modifies world
      ensures world.Valid() && old(world.history) <= world.history
      ensures Disciplined(world.trace) && Coordinated(world.trace)
      ensures ok ==> Latest().status.Succeeded?
      ensures Ours(run) && run.approved == record
      ensures old(Undisturbed(record)) ==> Settled(op, run, old(world.cursor) + 1, ok)
    {
      hide World.Valid, Coordinated, DeclaredScope, OnlyWrites, Disciplined, Attached, Settled, Ran, OneWrite,
        Stranded, After, Commit;
      ghost var t, c, clock, h0 := world.trace, world.cursor, world.clock, world.history;
      ghost var quiet := Undisturbed(record);
      assert quiet ==> world.StillFrom(c) && record.createdAt <= clock;
      hide World.StillFrom, Undisturbed;
      var r;
      r, run := Execute(op, record);
      AttachedFirst(t, world.trace);
      ok := r.Returned? && r.status.Succeeded?;
      ghost var h1 := world.history;
      if ok {
        LatestSucceeded(r.record);
      } else {
        ghost var t1 := world.trace;
        if quiet {
          StillAlone(record, Handed(run), c, clock);
        }
        FailSafely(if r.Returned? then r.record else record);
        OneMore(t1, world.trace);
        AttachedFirst(t, world.trace);
      }
      if quiet {
        SettledByRun(op, run, c + 1, h0, h1, ok);
      }
    }

    lemma OneMore(t0: Trace, t1: Trace)
      requires OneWrite(t0, t1)
      ensures t0 <= t1
    {
    }

    /** What the runner left: how far it went, what it returned, and which row is the newest. */
    ghost predicate Ran(op: Operation, run: Run, c: nat, h0: seq<Record>, h1: seq<Record>) {
      && h0 <= h1 && h0 != [] && run.approved == h0[|h0| - 1] && run.approved.generation == |h0|
      && (Starts(op, run, c) ==>
            Explained(op, run, c + 1) && (run.outcome.Returned? <==> !Strands(0, run.account)))
      && (!Starts(op, run, c) ==> run.outcome.RunnerRaised? && h1 == h0)
      && (run.outcome.Returned? ==>
            && run.outcome.record == h1[|h1| - 1] && run.outcome.record.generation == |h1|
            && run.outcome.record.status == run.outcome.status)
      && (Starts(op, run, c) && !run.outcome.Returned? ==>
            && !AtRest(h1[|h1| - 1].status)
            && if Stranded(run.account) then |h1| > |h0| else h1 == h0)
    }

    /** The runner, built for the approved row and executed. */
    method Execute(op: Operation, record: Record) returns (r: Outcome, ghost run: Run)
      requires world.Valid() && world.Known(record) && DeclaredScope(op.manifest)
      requires record.status.Approved? && record.evidence == []
      requires OnlyWrites(world.trace) && Disciplined(world.trace) && Children(world.trace) == []
      modifies world
      ensures world.Valid() && old(world.history) <= world.history && old(world.trace) <= world.trace
      ensures Disciplined(world.trace) && world.Onward(old(world.cursor), old(world.clock))
      ensures Ours(run) && run.approved == record && run.outcome == r
      ensures r.Returned? ==> world.Known(r.record) && (r.status.Succeeded? ==> r.record.status.Succeeded?)
      ensures old(Undisturbed(record)) ==> Ran(op, run, old(world.cursor) + 1, old(world.history), world.history)
    {
      hide World.Valid, DeclaredScope, OnlyWrites, Disciplined, Ran, Undisturbed, ClusterOperationRunner.Unstarted,
        ClusterOperationRunner.Launched, ClusterOperationRunner.Unlaunched, ClusterOperationRunner.Written,
        ClusterOperationRunner.Steady, ClusterOperationRunner.QuietEnd, ClusterOperationRunner.Afresh;
      ghost var t, releases0, c, h0 := world.trace, world.releases, world.cursor, world.history;
      var runner := new ClusterOperationRunner(world, digest, argv, config, toolchain, adapters, record.evidence);
      NothingStarted(runner, t);
      ghost var quiet := Undisturbed(record);
      if quiet {
        ReadyToRun(runner, record);
      }
      ghost var current, plan, a;
      r, current, plan, a := runner.ExecuteRecord(op, record);
      run := Run(runner, record, plan, a, r);
      if current.Some? && runner.SameRow(current.value, record) {
        runner.ReturnedIsDurable(t, releases0, op, current.value, c + 1, r, plan, a);
      }
      if quiet {
        RunEnds(op, run, t, releases0, c + 1, h0);
      }
    }

    lemma NothingStarted(runner: ClusterOperationRunner, t: Trace)
      requires runner.origin == t && OnlyWrites(t) && Disciplined(t) && Children(t) == []
      ensures runner.Unstarted(t)
    {
      hide OnlyWrites, Disciplined, Commands, Outcomes, Children, Closes, Sights;
      WritesMakeNothing(t);
    }

    /** A quiet journal is one the runner can rely on. */
    lemma ReadyToRun(runner: ClusterOperationRunner, record: Record)
      requires runner.world == world && runner.earlier == [] && world.Valid() && world.Known(record)
      requires Undisturbed(record) && record.status.Approved? && record.evidence == []
      ensures runner.Steady(record) && world.Still() && Latest() == record && runner.Latest() == record
      ensures forall op: Operation {:trigger runner.Afresh(op, record)} :: runner.Afresh(op, record)
      ensures record.generation == |world.history|
      ensures world.history != []
    {
      hide World.Valid;
      KnownFacts(record);
      BoundExpiry(record);
    }

    lemma BoundExpiry(record: Record)
      requires world.Valid() && world.Known(record) && record.status.Approved?
      ensures record.approval.Some? && record.snapshot.Some?
      ensures record.approval.value.expiresAt <= record.snapshot.value.expiresAt
    {
      HistoryBasics(world.history, record.generation - 1);
      HistoryBound(world.history, record.generation - 1);
    }

    /** What the runner's contract says of a quiet run. */
    lemma RunEnds(op: Operation, run: Run, t: Trace, releases0: map<Release, Content>, c: nat, h0: seq<Record>)
      requires Ours(run) && world.Valid() && h0 <= world.history && h0 != []
      requires run.approved == h0[|h0| - 1] && run.approved.generation == |h0| && run.approved.evidence == []
      requires run.runner.Launched(t, releases0, op, run.approved, c, run.outcome, run.plan, run.account)
      requires run.runner.Written(h0, op, run.approved, c, run.account)
      requires run.runner.QuietEnd(run.runner.faultsBefore, run.outcome, run.account)
      ensures Ran(op, run, c, h0, world.history)
    {
      hide ClusterOperationRunner.Launchable, ClusterOperationRunner.Finished, ClusterOperationRunner.QuietEnd,
        ClusterOperationRunner.PlanFor, ClusterOperationRunner.Answered, ClusterOperationRunner.Footprint, Exact,
        PlanOk, Rollbacks, Unprepared, World.Valid, Strands, AtRest, Fails, CountCompleted;
      if Starts(op, run, c) {
        RunStarted(run, releases0, h0);
      }
    }

    lemma RunStarted(run: Run, releases0: map<Release, Content>, h0: seq<Record>)
      requires Ours(run) && world.Valid() && h0 <= world.history && h0 != [] && run.approved.evidence == []
      requires PlanOk(Rollbacks(run.approved), run.plan) && !Unprepared(run.approved, run.plan)
      requires run.runner.Finished(releases0, run.approved, run.plan, run.outcome, run.account)
      requires run.runner.Footprint(h0, run.account)
      requires run.runner.QuietEnd(run.runner.faultsBefore, run.outcome, run.account)
      ensures AllHelm(run.plan.helm) && Tidy(argv, run.plan, run.account)
      ensures CountCompleted(run.account.results + run.account.outs) <= 200 ==>
                Exact(argv, run.approved, run.plan, run.outcome, run.account)
      ensures run.outcome.Returned? <==> !Strands(0, run.account)
      ensures run.outcome.Returned? ==>
                && run.outcome.record == Latest() && run.outcome.record.generation == |world.history|
                && run.outcome.record.status == run.outcome.status
      ensures !run.outcome.Returned? ==>
                && !AtRest(Latest().status)
                && if Stranded(run.account) then |world.history| > |h0| else world.history == h0
    {
      hide Exact, PlanOk, Rollbacks, Unprepared, World.Valid, Strands, AtRest, CountCompleted, Tidy,
        ClusterOperationRunner.Finished, ClusterOperationRunner.QuietEnd, ClusterOperationRunner.Footprint;
      run.runner.QuietlyExact(releases0, run.approved, run.plan, run.outcome, run.account);
      run.runner.RaisesExactly(releases0, run.approved, run.plan, run.outcome, run.account);
      run.runner.FinishedTidy(releases0, run.approved, run.plan, run.outcome, run.account);
      OverfullMeans(run, releases0);
      if run.outcome.Returned? {
        ReturnedNewest(run, releases0);
      } else {
        RaisedUnsettled(run);
        StrandedFootprint(run.plan, run.account, run.runner, h0);
      }
    }

    lemma OverfullMeans(run: Run, releases0: map<Release, Content>)
      requires Ours(run)
      requires run.runner.Overfull(world.trace) <==>
                 |run.runner.earlier| + CountCompleted(run.account.results + run.account.outs) > 200
      ensures run.runner.Overfull(world.trace) <==> CountCompleted(run.account.results + run.account.outs) > 200
    {
      hide ClusterOperationRunner.Overfull, CountCompleted;
    }

    lemma ReturnedNewest(run: Run, releases0: map<Release, Content>)
      requires Ours(run) && world.Valid() && run.outcome.Returned?
      requires PlanOk(Rollbacks(run.approved), run.plan)
      requires run.runner.Finished(releases0, run.approved, run.plan, run.outcome, run.account)
      ensures run.outcome.record == Latest() && run.outcome.record.generation == |world.history|
      ensures run.outcome.record.status == run.outcome.status
    {
      hide Exact, PlanOk, World.Valid, Tidy, SameOutside, Sights, AllSights, Evidenced, IssuedCommands,
        ClusterOperationRunner.Made;
    }

    lemma RaisedUnsettled(run: Run)
      requires Ours(run) && world.Valid() && !run.outcome.Returned?
      requires run.runner.QuietEnd(run.runner.faultsBefore, run.outcome, run.account)
      ensures !AtRest(Latest().status)
    {
      hide World.Valid;
    }

    /** A runner that raised wrote nothing exactly when its first dry-run reported nothing. */
    lemma StrandedFootprint(plan: Plan, a: Account, runner: ClusterOperationRunner, h0: seq<Record>)
      requires AllHelm(plan.helm) && Tidy(argv, plan, a) && Strands(0, a)
      requires runner.world == world && runner.Footprint(h0, a)
      ensures if Stranded(a) then |world.history| > |h0| else world.history == h0
    {
      hide AllServed, Undoes, AllIssued, VerdictOn;
      if a.m == 0 {
        assert |Planning(plan.dry, plan.helm, a.d, 0, 0)| == a.d;
      }
    }

    /** What the coordinator hands to its safe failure. */
    ghost function Handed(run: Run): Record {
      if run.outcome.Returned? then run.outcome.record else run.approved
    }

    /** From the runner's end to the row's. */
    lemma SettledByRun(op: Operation, run: Run, c: nat, h0: seq<Record>, h1: seq<Record>, ok: bool)
      requires world.Valid() && Ours(run) && Ran(op, run, c, h0, h1) && h1 <= world.history
      requires ok <==> run.outcome.Returned? && run.outcome.status.Succeeded?
      requires ok ==> Latest().status.Succeeded?
      requires !ok && Handed(run).generation == |h1| ==>
                 AtRest(Latest().status) && Latest().status == SafeStatus(Handed(run).status)
      requires !ok && Handed(run).generation < |h1| ==> world.history == h1
      ensures Settled(op, run, c, ok)
    {
      hide Explained, Starts, Strands, World.Valid;
    }

    /** The journal stays quiet behind the runner, and the row keeps its time of creation. */
    lemma StillAlone(record: Record, u: Record, c: nat, clock: int)
      requires world.Valid() && world.Known(record) && world.Known(u)
      requires world.StillFrom(c) && world.Onward(c, clock) && record.createdAt <= clock
      ensures world.Still() && (u.generation == |world.history| ==> Alone(u))
    {
      HistoryBasics(world.history, record.generation - 1);
      HistoryBasics(world.history, u.generation - 1);
    }

    lemma LatestSucceeded(record: Record)
      requires world.Valid() && world.Known(record) && record.status.Succeeded?
      ensures Latest().status.Succeeded?
    {
      SucceededStays(world.history, record.generation - 1, |world.history| - 1);
    }
  }
}
