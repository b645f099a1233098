/** The runner of src/dispatcher/cluster_operation_runner.py.

    An exception is an outcome: `RunnerRaised` for ClusterOperationRunnerError and `StoreRaised` for
    anything a journal access raises.
 */
module ClusterRunner {
  import opened Common
  import opened ClusterManifest
  import opened ClusterLifecycle
  import opened ClusterHistory
  import opened ClusterProgress
  import opened ClusterTrace
  import opened ClusterCommands
  import opened ClusterWorld
  import opened ClusterSteps
  import opened ClusterPlan
  import opened ClusterVerdict

  datatype Operation = Operation(step: string, target: string, manifest: Manifest, digest: Token)

  datatype CommandRun = Done(record: Record, returncode: int) | NotCompleted | NotStored

  datatype Phase = Proceed(record: Record) | Halt(outcome: Outcome)

  datatype PairStep = Continue(record: Record) | Stop(outcome: Outcome)

  /** inspect_cluster_operation_recovery. */
  function Recovery(s: Status): Status {
    if s in {MutationStarted, Probing, PortForwardIntent, PortForwardStarted, TlsDc8Probing, RollbackStarted}
    then ReconciliationRequired else s
  }

  predicate IsReconciled(r: Outcome)
    requires r.Returned?
  {
    r.status.ReconciliationRequired? && r.record.status.ReconciliationRequired?
  }

  class ClusterOperationRunner {
    const world: World
    const digest: Action -> Token
    const argv: Action -> Token
    const config: Token
    const toolchain: Token
    const adapters: bool
    /** What was recorded before this runner was built. */
    ghost const origin: Trace
    /** The evidence of executions before this one. */
    ghost const earlier: seq<Evidence>
    /** The journal accesses that had failed before. */
    ghost const faultsBefore: nat

    constructor (world: World, digest: Action -> Token, argv: Action -> Token, config: Token, toolchain: Token,
                 adapters: bool, ghost earlier: seq<Evidence>)
      ensures this.world == world && this.digest == digest && this.argv == argv
      ensures this.config == config && this.toolchain == toolchain && this.adapters == adapters
      ensures origin == world.trace && this.earlier == earlier && faultsBefore == world.faults
    {
      this.world := world;
      this.digest := digest;
      this.argv := argv;
      this.config := config;
      this.toolchain := toolchain;
      this.adapters := adapters;
      this.origin := world.trace;
      this.earlier := earlier;
      this.faultsBefore := world.faults;
    }

    /** The journal is quiet, the approval outlives the clock, and all evidence is this execution's or
        known from before. */
    ghost predicate Steady(record: Record)
      reads world
    {
      && record.approval.Some? && record.snapshot.Some?
      && record.approval.value.expiresAt <= record.snapshot.value.expiresAt
      && world.Calm(record.approval.value.expiresAt)
      && record.generation == |world.history|
      && record.createdAt <= world.clock
      && Accounted(record.evidence, world.trace)
    }

    /** The evidence is this execution's or known from before. */
    ghost predicate Accounted(evidence: seq<Evidence>, t: Trace) {
      && |evidence| <= |earlier| + CountCompleted(Outcomes(t))
      && forall e | e in evidence :: e in earlier || !Unused(Commands(t), e.id)
    }

    /** More commands reported a result than the row can hold evidence of. */
    ghost predicate Overfull(t: Trace) {
      |earlier| + CountCompleted(Outcomes(t)) > 200
    }

    ghost predicate Newest(record: Record)
      reads world`history
    {
      record.generation == |world.history|
    }

    /** `_now`. */
    method ReadClock(ghost record: Record) returns (now: int)
      modifies world`cursor, world`clock
      ensures now == world.clock >= old(world.clock) && world.cursor == old(world.cursor) + 1
      ensures old(Steady(record)) ==> Steady(record)
    {
      now := world.Now();
    }

    /** In a quiet journal the row can be written. */
    lemma SteadyReady(record: Record)
      requires world.Valid() && world.Known(record) && Steady(record)
      ensures Ready(record, world.clock)
    {
      hide World.Valid, ValidRecord;
      KnownValid(record);
    }

    /** One journal write. */
    method Persist(record: Record, op: Op) returns (r: Option<Record>)
      requires world.Valid() && world.Known(record) && Disciplined(world.trace)
      requires MayWrite(world.trace, record, op)
      modifies world
      ensures world.Onward(old(world.cursor), old(world.clock))
      ensures world.Valid() && old(world.history) <= world.history && world.releases == old(world.releases)
      ensures world.clock == old(world.clock) && world.cursor == old(world.cursor) + 1
      ensures world.faults == old(world.faults) + if r.Some? then 0 else 1
      ensures Commit(record, op).Err? ==> r.None?
      ensures Extends(old(world.trace), world.trace, [], []) && Closes(world.trace) == Closes(old(world.trace))
      ensures Sights(world.trace) == Sights(old(world.trace))
      ensures OneWrite(old(world.trace), world.trace)
      ensures r.Some? ==>
                && r.value == After(record, op) && ValidRecord(r.value) && world.Known(r.value)
                && ForwardGuard(record, op)
                && world.trace == old(world.trace) + [Wrote(record, op, r.value, true)]
                && (OpensMutation(record, r.value) ==> Opened(world.trace))
                && |world.history| > |old(world.history)|
      ensures Children(world.trace) == Children(old(world.trace)) +
                                       (if r.Some? then ChildOf(Wrote(record, op, r.value, true)) else [])
      ensures forall x | old(world.Calm(x)) :: world.Calm(x)
      ensures r.Some? ==> Newest(r.value)
      ensures old(Steady(record)) && Commit(record, op).Ok? ==> r.Some?
      ensures old(Steady(record)) && r.None? ==> Steady(record)
      ensures old(Steady(record)) && r.Some? && !op.WithSnapshot? && !op.WithApproval? &&
              Accounted(r.value.evidence, world.trace) ==>
                Steady(r.value)
      ensures old(Steady(record)) && r.Some? && !op.WithSnapshot? && !op.WithApproval? && !op.WithEvidence? ==>
                Steady(r.value)
      ensures Outcomes(world.trace) == Outcomes(old(world.trace)) && Commands(world.trace) == Commands(old(world.trace))
    {
      hide Commit, ForwardGuard, ForwardsAfter, World.Valid, ValidRecord, MayWrite, Accounted;
      ghost var t := world.trace;
      r := world.Update(record, op);
      AppendEvent(t, Wrote(record, op, After(record, op), r.Some?));
      assert Outcomes(t) + [] == Outcomes(t) && Commands(t) + [] == Commands(t);
      SameAccount(record.evidence, t, world.trace);
    }

    lemma SameAccount(evidence: seq<Evidence>, t: Trace, t1: Trace)
      requires Outcomes(t1) == Outcomes(t) && Commands(t1) == Commands(t)
      ensures Accounted(evidence, t1) <==> Accounted(evidence, t)
    {
    }

    /** `_transition`. */
    method Transition(record: Record, target: Status) returns (r: Option<Record>)
      requires world.Valid() && world.Known(record) && Disciplined(world.trace)
      modifies world
      ensures world.Onward(old(world.cursor), old(world.clock))
      ensures world.Valid() && old(world.history) <= world.history && world.releases == old(world.releases)
      ensures Extends(old(world.trace), world.trace, [], []) && SameChildren(old(world.trace), world.trace)
      ensures OneWrite(old(world.trace), world.trace)
      ensures world.clock >= old(world.clock) && world.cursor == old(world.cursor) + 2
      ensures world.faults == old(world.faults) + if r.Some? then 0 else 1
      ensures IsExecution(target) && !ActiveApproval(record, old(world.clock)) ==> r.None?
      ensures r.Some? ==>
                && Moved(record, r.value, target) && ValidRecord(r.value) && world.Known(r.value) && Newest(r.value)
                && (OpensMutation(record, r.value) ==> Opened(world.trace))
                && |world.history| > |old(world.history)|
                && world.trace ==
                   old(world.trace) + [Wrote(record, ToStatus(target, r.value.updatedAt), r.value, true)]
      ensures old(Steady(record)) && target in Transitions(record.status) &&
              (IsExecution(target) || target in {Failed, ReconciliationRequired}) &&
              (ForwardFree(target) ==> AllStopped(record.forwards)) ==>
                r.Some? && Steady(r.value)
    {
      hide Commit, ForwardGuard, World.Valid, ValidRecord, OpensMutation, Disciplined, Steady, Ready, After,
        ActiveApproval;
      ghost var calm, clock := Steady(record), world.clock;
      var now := ReadClock(record);
      if calm {
        SteadyReady(record);
      }
      r := Persist(record, ToStatus(target, now));
      AfterMove(record, target, now);
      ExpiredRefused(record, target, clock, now);
      if calm && target in Transitions(record.status) &&
         (IsExecution(target) || target in {Failed, ReconciliationRequired}) &&
         (ForwardFree(target) ==> AllStopped(record.forwards))
      {
        TransitionAccepted(record, target, now);
      }
    }

    lemma ExpiredRefused(record: Record, target: Status, clock: int, now: int)
      requires clock <= now
      ensures IsExecution(target) && !ActiveApproval(record, clock) ==> Commit(record, ToStatus(target, now)).Err?
    {
      hide ValidRecord, Transitions;
    }

    /** `_run_fixed_command`: issue one command, then journal its result. */
    method RunFixedCommand(record: Record, command: Command, effect: Effect)
      returns (r: CommandRun, ghost out: CommandOutcome)
      requires world.Valid() && world.Known(record) && Disciplined(world.trace)
      requires Unused(Commands(world.trace), command.id)
      requires command.kind.ServerDryRun? || Opened(world.trace)
      modifies world
      ensures world.Onward(old(world.cursor), old(world.clock))
      ensures world.Valid() && old(world.history) <= world.history
      ensures Extends(old(world.trace), world.trace, [command], [out])
      ensures SameChildren(old(world.trace), world.trace)
      ensures out == Heard(world.script(old(world.cursor)))
      ensures world.faults == old(world.faults) + if r.NotStored? then 1 else 0
      ensures r.NotCompleted? <==> out.NoResult?
      ensures r.NotCompleted? ==> world.history == old(world.history)
      ensures r.Done? ==>
                && out == Completed(r.returncode) && world.cursor == old(world.cursor) + 3
                && |world.history| > |old(world.history)|
                && Journaled(record, r.record, EvidenceOf(command, r.returncode))
                && ValidRecord(r.record) && world.Known(r.record) && Newest(r.record)
      ensures effect.NoEffect? ==> world.releases == old(world.releases)
      ensures effect.Upgrade? ==> Touches(old(world.releases), world.releases, effect.release)
      ensures effect.Restore? ==> Touches(old(world.releases), world.releases, effect.snapshot.release)
      ensures effect.Restore? && out == Completed(0) ==>
                && effect.snapshot.release in world.releases
                && world.releases[effect.snapshot.release] == Restored(effect.snapshot)
      ensures old(Steady(record)) && NoneRecorded(earlier, [command]) && !(record.status in {Succeeded, RolledBack}) ==>
                && Steady(if r.Done? then r.record else record)
                && (r.NotStored? ==> Overfull(world.trace))
    {
      hide Commit, After, ForwardGuard, World.Valid, ValidRecord, NoneRecorded, Unused, Steady, Disciplined, Touches,
        Restored, Opened, CountCompleted, Overfull;
      ghost var t := world.trace;
      FreshIdentity(record, command);
      var outcome := RunCommand(record, command, effect);
      out := outcome;
      if outcome.NoResult? {
        return NotCompleted, out;
      }
      CountNext(Outcomes(t), outcome);
      r := Journal(record, command, outcome.returncode, CountCompleted(Outcomes(t)));
    }

    lemma CountNext(outcomes: seq<CommandOutcome>, out: CommandOutcome)
      ensures CountCompleted(outcomes + [out]) == CountCompleted(outcomes) + if out.Completed? then 1 else 0
    {
      assert (outcomes + [out])[..|outcomes|] == outcomes;
    }

    /** The command itself. */
    method RunCommand(ghost record: Record, command: Command, effect: Effect) returns (outcome: CommandOutcome)
      requires world.Valid() && Disciplined(world.trace)
      requires Unused(Commands(world.trace), command.id)
      requires command.kind.ServerDryRun? || Opened(world.trace)
      modifies world
      ensures world.Onward(old(world.cursor), old(world.clock))
      ensures world.Valid() && world.history == old(world.history) && world.faults == old(world.faults)
      ensures outcome == Heard(world.script(old(world.cursor))) && world.cursor == old(world.cursor) + 1
      ensures Extends(old(world.trace), world.trace, [command], [outcome])
      ensures world.trace == old(world.trace) + [Ran(command, outcome)]
      ensures SameChildren(old(world.trace), world.trace)
      ensures effect.NoEffect? ==> world.releases == old(world.releases)
      ensures effect.Upgrade? ==> Touches(old(world.releases), world.releases, effect.release)
      ensures effect.Restore? ==> Touches(old(world.releases), world.releases, effect.snapshot.release)
      ensures effect.Restore? && outcome == Completed(0) ==>
                && effect.snapshot.release in world.releases
                && world.releases[effect.snapshot.release] == Restored(effect.snapshot)
      ensures old(Steady(record)) ==> Steady(record)
    {
      hide Touches, Restored, World.Valid, CountCompleted;
      ghost var t := world.trace;
      outcome := world.Run(command, effect);
      AppendEvent(t, Ran(command, outcome));
      CountNext(Outcomes(t), outcome);
    }

    /** A command that is not recorded is not among the evidence. */
    lemma FreshIdentity(record: Record, command: Command)
      requires Unused(Commands(world.trace), command.id)
      ensures Steady(record) && NoneRecorded(earlier, [command]) ==>
                && |record.evidence| <= |earlier| + CountCompleted(Outcomes(world.trace))
                && forall e | e in record.evidence :: e.id != command.id
    {
      assert command in [command];
    }

    /** The journal write of one completed command, the last one issued. */
    method Journal(record: Record, command: Command, returncode: int, ghost before: nat) returns (r: CommandRun)
      requires world.Valid() && world.Known(record) && Disciplined(world.trace)
      requires world.trace != [] && Last(world.trace) == Ran(command, Completed(returncode))
      requires CountCompleted(Outcomes(world.trace)) == before + 1
      modifies world
      ensures world.Onward(old(world.cursor), old(world.clock))
      ensures world.Valid() && old(world.history) <= world.history && world.releases == old(world.releases)
      ensures Extends(old(world.trace), world.trace, [], []) && SameChildren(old(world.trace), world.trace)
      ensures !r.NotCompleted? && world.cursor == old(world.cursor) + 2
      ensures world.faults == old(world.faults) + if r.NotStored? then 1 else 0
      ensures r.Done? ==>
                && r.returncode == returncode && |world.history| > |old(world.history)|
                && Journaled(record, r.record, EvidenceOf(command, returncode))
                && ValidRecord(r.record) && world.Known(r.record) && Newest(r.record)
      ensures old(Steady(record)) && |record.evidence| <= |earlier| + before &&
              !(record.status in {Succeeded, RolledBack}) && (forall e | e in record.evidence :: e.id != command.id) ==>
                if r.Done? then Steady(r.record) else Steady(record) && Overfull(world.trace)
    {
      hide Commit, After, ForwardGuard, World.Valid, ValidRecord, Ready, CountCompleted, Transitions, ActiveApproval,
        Steady, Accounted;
      var now := ReadClock(record);
      var e := EvidenceOf(command, returncode);
      ghost var calm, t := Steady(record), world.trace;
      SteadyAccount(record);
      if calm && |record.evidence| < 200 && !(record.status in {Succeeded, RolledBack}) &&
         (forall x | x in record.evidence :: x.id != command.id)
      {
        SteadyReady(record);
        EvidenceAccepted(record, e, now);
      }
      var w := Persist(record, WithEvidence(e, now));
      AfterEvidence(record, e, now);
      r := if w.Some? then Done(w.value, returncode) else NotStored;
      if calm {
        EvidenceUsed(record, e, command, t, world.trace, before);
      }
    }

    lemma IssuedLast(t: Trace, command: Command)
      requires t != [] && Last(t).Ran? && Last(t).command == command
      ensures command in Commands(t)
    {
    }

    lemma EvidenceUsed(record: Record, e: Evidence, command: Command, t: Trace, t1: Trace, before: nat)
      requires t != [] && Last(t).Ran? && Last(t).command == command && e.id == command.id
      requires Outcomes(t1) == Outcomes(t) && Commands(t1) == Commands(t)
      requires CountCompleted(Outcomes(t)) == before + 1
      ensures Accounted(record.evidence, t) && |record.evidence| <= |earlier| + before ==>
                Accounted(record.evidence + [e], t1)
      ensures |record.evidence| <= |earlier| + before && |record.evidence| >= 200 ==> Overfull(t1)
    {
      hide CountCompleted;
      IssuedLast(t, command);
    }

    lemma SteadyAccount(record: Record)
      ensures Steady(record) ==> Accounted(record.evidence, world.trace)
    {
    }

    /** Where a rollback stands: `i` actions undone since the trace was `t`. */
    ghost predicate Rolling(t: Trace, releases0: map<Release, Content>, record0: Record, record: Record,
                            helm: seq<Planned>, outs: seq<CommandOutcome>)
      requires AllHelm(helm) && Covered(Rollbacks(record0), helm)
      reads world
    {
      && |outs| <= |helm|
      && Undone(t, releases0, helm, outs)
      && Opened(world.trace)
      && world.Known(record)
      && Rollbacks(record) == Rollbacks(record0) && record.forwards == record0.forwards
      && record.status.RollbackStarted?
      && Evidenced(record0.evidence, record.evidence, UndoCommands(helm)[..|outs|], outs)
      && (AllZero(outs) ==> RestoredAll(world.releases, Rollbacks(record0), helm, |helm| - |outs|))
    }

    ghost predicate Undone(t: Trace, releases0: map<Release, Content>, helm: seq<Planned>, outs: seq<CommandOutcome>)
      requires AllHelm(helm) && |outs| <= |helm|
      reads world
    {
      && world.Valid()
      && Extends(t, world.trace, UndoCommands(helm)[..|outs|], outs)
      && SameChildren(t, world.trace)
      && SameOutside(releases0, world.releases, ReleasesOf(helm))
    }

    /** Undoes the next action, counted from the end. */
    method UndoNext(record0: Record, record: Record, helm: seq<Planned>, ghost t: Trace,
                    ghost releases0: map<Release, Content>, ghost outs0: seq<CommandOutcome>, i: nat)
      returns (run: CommandRun, ghost outs: seq<CommandOutcome>)
      requires AllHelm(helm) && DistinctTargets(helm) && Covered(Rollbacks(record0), helm)
      requires UndoFresh(Commands(t), helm)
      requires i == |outs0| < |helm| && Rolling(t, releases0, record0, record, helm, outs0)
      modifies world
      ensures world.Onward(old(world.cursor), old(world.clock))
      ensures old(world.history) <= world.history
      ensures |outs| == |outs0| + 1 && outs[..|outs0|] == outs0
      ensures Undone(t, releases0, helm, outs)
      ensures !run.NotStored? ==> (AllZero(outs) <==> AllZero(outs0) && run.Done? && run.returncode == 0)
      ensures run.NotCompleted? ==> Rolling(t, releases0, record0, record, helm, outs)
      ensures run.Done? ==> Rolling(t, releases0, record0, run.record, helm, outs)
      ensures world.faults == old(world.faults) + if run.NotStored? then 1 else 0
      ensures run.Done? ==> Newest(run.record)
      ensures old(Newest(record)) && run.NotCompleted? ==> Newest(record)
      ensures old(Steady(record)) && NoneRecorded(earlier, UndoCommands(helm)) ==>
                && Steady(if run.Done? then run.record else record)
                && (run.NotStored? ==> Overfull(world.trace))
    {
      hide After, Commit, ForwardGuard, World.Valid, ValidRecord, Touches, SameOutside, RestoredAll, Disciplined,
        Steady, NoneRecorded;
      hide Opened, SnapshotOf, HasSnapshot, AllZero, UndoCommands, UndoFresh, Unused, DistinctTargets, EvidenceOf,
        Restored;
      hide Extends, Commands, Outcomes, Children, Closes, ReleasesOf, Evidenced, CountCompleted, Overfull, Sights,
        World.Known, Heard, Newest;
      var p := helm[|helm| - 1 - i];
      assert p in helm;
      var snapshot := SnapshotOf(Rollbacks(record), p.action.release);
      UndoAt(Commands(t), helm, i);
      OneUnrecorded(earlier, UndoCommands(helm), i);
      ghost var before, t1 := world.releases, world.trace;
      ExtendsMeans(t, t1, UndoCommands(helm)[..i], outs0);
      ghost var out;
      run, out := RunFixedCommand(record, UndoCommand(p), Restore(snapshot));
      outs := outs0 + [out];
      AllZeroAppend(outs0, out);
      ExtendsBoth(t, t1, world.trace, UndoCommands(helm)[..i], outs0, [UndoCommand(p)], [out]);
      ExtendsMeans(t1, world.trace, [UndoCommand(p)], [out]);
      EvidencedNext(record0.evidence, record.evidence, UndoCommands(helm)[..i], outs0, UndoCommand(p), out);
      UndoEffect(releases0, before, world.releases, Rollbacks(record0), helm, |helm| - 1 - i, out);
    }

    lemma OneUnrecorded(known: seq<Evidence>, commands: seq<Command>, i: nat)
      requires i < |commands|
      ensures NoneRecorded(known, commands) ==> NoneRecorded(known, [commands[i]])
    {
    }

    /** The loop of `_rollback`: the started mutations in reverse, each to its own snapshot entry.  A
        failing rollback does not stop the others; a journal error does. */
    method UndoAll(record0: Record, started: Record, helm: seq<Planned>, ghost t: Trace,
                   ghost releases0: map<Release, Content>)
      returns (r: Option<Record>, failed: bool, ghost outs: seq<CommandOutcome>)
      requires AllHelm(helm) && DistinctTargets(helm) && Covered(Rollbacks(record0), helm)
      requires UndoFresh(Commands(t), helm)
      requires Rolling(t, releases0, record0, started, helm, [])
      modifies world
      ensures world.Onward(old(world.cursor), old(world.clock))
      ensures old(world.history) <= world.history
      ensures |outs| <= |helm| && Undone(t, releases0, helm, outs)
      ensures r.Some? ==>
                && |outs| == |helm| && failed == !AllZero(outs)
                && Rolling(t, releases0, record0, r.value, helm, outs)
      ensures world.faults == old(world.faults) + if r.Some? then 0 else 1
      ensures old(Steady(started)) && NoneRecorded(earlier, UndoCommands(helm)) ==>
                if r.Some? then Steady(r.value)
                else Overfull(world.trace) && Steady(Latest()) && Latest().status.RollbackStarted?
    {
      hide After, Commit, ForwardGuard, World.Valid, ValidRecord, Steady, NoneRecorded, SameOutside, RestoredAll,
        UndoFresh, Disciplined, Opened, HasSnapshot, UndoCommands, ReleasesOf, Covered, DistinctTargets, Evidenced;
      NothingUndone(helm);
      ghost var calm := Steady(started) && NoneRecorded(earlier, UndoCommands(helm));
      ghost var h0, faults0 := world.history, world.faults;
      outs := [];
      failed := false;
      var record := started;
      var i := 0;
      while i < |helm|
        invariant 0 <= i <= |helm| && |outs| == i
        invariant h0 <= world.history && world.Onward(old(world.cursor), old(world.clock))
        invariant Rolling(t, releases0, record0, record, helm, outs)
        invariant failed == !AllZero(outs)
        invariant world.faults == faults0
        invariant calm ==> Steady(record)
      {
        var run;
        run, outs := UndoNext(record0, record, helm, t, releases0, outs, i);
        match run {
          case Done(next, returncode) =>
            record := next;
            failed := failed || returncode != 0;
          case NotCompleted =>
            failed := true;
          case NotStored =>
            if calm {
              SteadyIsLatest(record);
            }
            return None, failed, outs;
        }
        i := i + 1;
      }
      r := Some(record);
    }

    /** `_rollback`. */
    method Rollback(record0: Record, helm: seq<Planned>) returns (r: Outcome, ghost outs: seq<CommandOutcome>)
      requires world.Valid() && world.Known(record0) && Disciplined(world.trace) && Opened(world.trace)
      requires AllHelm(helm) && DistinctTargets(helm) && Covered(Rollbacks(record0), helm)
      requires UndoFresh(Commands(world.trace), helm)
      modifies world
      ensures world.Onward(old(world.cursor), old(world.clock))
      ensures old(world.history) <= world.history
      ensures |outs| <= |helm| && Undone(old(world.trace), old(world.releases), helm, outs)
      ensures !r.RunnerRaised?
      ensures r.Returned? ==>
                && world.Known(r.record) && r.status == r.record.status
                && |outs| == |helm| && Newest(r.record)
                && r.status == (if AllZero(outs) then RolledBack else ReconciliationRequired)
                && Evidenced(record0.evidence, r.record.evidence, UndoCommands(helm), outs)
      ensures world.faults == old(world.faults) + if r.Returned? then 0 else 1
      ensures !ActiveApproval(record0, old(world.clock)) ==> r.StoreRaised? && outs == []
      ensures r.Returned? && r.status.RolledBack? ==> RestoredAll(world.releases, Rollbacks(record0), helm, 0)
      ensures old(Steady(record0)) && RollbackStarted in Transitions(record0.status) && AllStopped(record0.forwards) &&
              NoneRecorded(earlier, UndoCommands(helm)) ==>
                r.Returned? || (Overfull(world.trace) && Steady(Latest()) && Latest().status.RollbackStarted?)
    {
      hide After, Commit, ForwardGuard, World.Valid, ValidRecord, Transitions, OpensMutation, Steady, SameOutside,
        NoneRecorded, ActiveApproval, RestoredAll, UndoFresh, Disciplined, Opened, HasSnapshot, UndoCommands,
        ReleasesOf, Covered, DistinctTargets, OneWrite, AllStopped, AllZero, Children, Closes, Evidenced, Sights,
        Commands, Outcomes, CountCompleted, Overfull;
      ghost var t := world.trace;
      ghost var releases0 := world.releases;
      NothingUndone(helm);
      EvidencedNone(record0.evidence);
      SameOutsideSelf(releases0, helm);
      NothingToRestore(releases0, helm, Rollbacks(record0));
      var w := Transition(record0, RollbackStarted);
      if w.None? {
        return StoreRaised, [];
      }
      var record, failed;
      record, failed, outs := UndoAll(record0, w.value, helm, t, releases0);
      if record.None? {
        return StoreRaised, outs;
      }
      AllowedFromRollback();
      var last := Transition(record.value, if failed then ReconciliationRequired else RolledBack);
      if last.None? {
        return StoreRaised, outs;
      }
      return Returned(last.value, last.value.status), outs;
    }

    lemma UndoAt(commands: seq<Command>, helm: seq<Planned>, i: nat)
      requires UndoFresh(commands, helm) && i < |helm|
      ensures |UndoCommands(helm)| == |helm|
      ensures Unused(commands + UndoCommands(helm)[..i], UndoCommand(helm[|helm| - 1 - i]).id)
      ensures UndoCommands(helm)[..i + 1] == UndoCommands(helm)[..i] + [UndoCommand(helm[|helm| - 1 - i])]
    {
      assert Unused(commands + UndoCommands(helm)[..i], UndoCommands(helm)[i].id);
    }

    lemma AllZeroAppend(outs: seq<CommandOutcome>, out: CommandOutcome)
      ensures AllZero(outs + [out]) <==> AllZero(outs) && out == Completed(0)
    {
      assert forall o | o in outs :: o in outs + [out];
      assert out in outs + [out];
    }

    lemma NothingUndone(helm: seq<Planned>)
      ensures |UndoCommands(helm)| == |helm| && UndoCommands(helm)[..0] == []
      ensures UndoCommands(helm)[..|helm|] == UndoCommands(helm)
    {
    }

    lemma AllowedFromRollback()
      ensures RolledBack in Transitions(RollbackStarted) && ReconciliationRequired in Transitions(RollbackStarted)
    {
    }

    lemma SameOutsideSelf(releases: map<Release, Content>, helm: seq<Planned>)
      requires AllHelm(helm)
      ensures SameOutside(releases, releases, ReleasesOf(helm))
    {
    }

    lemma NothingToRestore(releases: map<Release, Content>, helm: seq<Planned>, rollbacks: seq<ReleaseSnapshot>)
      requires AllHelm(helm) && Covered(rollbacks, helm)
      ensures RestoredAll(releases, rollbacks, helm, |helm|)
    {
    }

    /** The newest durable version. */
    ghost function Latest(): Record
      requires world.Valid()
      reads world
    {
      world.history[|world.history| - 1]
    }

    /** `_reconciliation_result`: whatever the row says now, mark it for reconciliation. */
    method Reconcile() returns (r: Outcome)
      requires world.Valid() && Disciplined(world.trace)
      modifies world
      ensures world.Onward(old(world.cursor), old(world.clock))
      ensures world.Valid() && old(world.history) <= world.history && world.releases == old(world.releases)
      ensures Extends(old(world.trace), world.trace, [], []) && SameChildren(old(world.trace), world.trace)
      ensures OneWrite(old(world.trace), world.trace)
      ensures !r.RunnerRaised? && world.faults == old(world.faults) + if r.Returned? then 0 else 1
      ensures r.Returned? ==>
                && world.Known(r.record) && Newest(r.record)
                && r.status.ReconciliationRequired? && r.record.status.ReconciliationRequired?
      ensures old(Steady(Latest())) && ReconciliationRequired in Transitions(old(Latest()).status) ==> r.Returned?
    {
      hide Commit, ValidRecord, Moved, Opened, OpensMutation, Disciplined, ActiveApproval;
      ghost var calm := Steady(Latest());
      ghost var latest := Latest();
      ExtendsSelf(world.trace);
      var loaded := world.Load();
      if loaded.None? {
        return StoreRaised;
      }
      var record := loaded.value;
      assert calm ==> record == latest && Steady(record);
      if !record.status.ReconciliationRequired? {
        var w := Transition(record, ReconciliationRequired);
        if w.None? {
          return StoreRaised;
        }
        MovedStatus(record, w.value, ReconciliationRequired);
        record := w.value;
      }
      return Returned(record, ReconciliationRequired);
    }

    lemma ExtendsSelf(t: Trace)
      requires Disciplined(t)
      ensures Extends(t, t, [], []) && SameChildren(t, t)
    {
    }

    lemma MovedStatus(r: Record, u: Record, target: Status)
      requires Moved(r, u, target)
      ensures u.status == target
    {
    }

    /** The write behind a close attempt: STOPPED when it was confirmed, CLEANUP_AMBIGUOUS when not. */
    ghost predicate ClosureWritten(t: Trace, id: string, close: CloseOutcome) {
      && t != [] && Last(t).Wrote? && Last(t).acknowledged
      && if close.IsClosed? then Last(t).op.ForwardStopped? && Last(t).op.id == id
         else Last(t).op.ForwardAmbiguous? && Last(t).op.id == id
    }

    /** `_cleanup_port_forward` for the forward declared last: exactly one close attempt, made with
        the durable identity of the started child. */
    method CleanupPortForward(record: Record, ghost others: seq<Ownership>, ghost ownership: Ownership, id: string)
      returns (r: Option<Record>, ghost close: CloseOutcome)
      requires world.Valid() && world.Known(record) && Disciplined(world.trace)
      requires id == ownership.id
      requires record.forwards == others + [ownership] && !Has(others, ownership.id)
      requires Children(world.trace) == Closes(world.trace) + [ownership]
      modifies world
      ensures world.Onward(old(world.cursor), old(world.clock))
      ensures world.Valid() && old(world.history) <= world.history && world.releases == old(world.releases)
      ensures Extends(old(world.trace), world.trace, [], [])
      ensures Children(world.trace) == Closes(world.trace) == Children(old(world.trace))
      ensures Looked(old(world.trace), world.trace, [SawClose(id, close)])
      ensures world.faults >= old(world.faults) && world.clock >= old(world.clock)
      ensures world.faults == old(world.faults) ==>
                (r.Some? <==> close.IsClosed?) && ClosureWritten(world.trace, id, close)
      ensures r.Some? ==>
                && close.IsClosed? && world.faults == old(world.faults)
                && world.Known(r.value) && Newest(r.value) && Shut(record, r.value, others, ownership)
      ensures old(Steady(record)) && ownership.state.Started? && ownership.process.Some? &&
              !ForwardFree(record.status) &&
              ownership.process.value.startedAt <= old(world.clock) ==>
                && world.faults == old(world.faults)
                && if r.Some? then Steady(r.value) else Steady(Latest()) && Latest().status == record.status
    {
      hide Commit, After, ForwardGuard, ValidRecord, Opened, OpensMutation, Disciplined, Find, HasOwnership,
        World.Valid, Shut, Steady, ClosureWritten;
      FindAppend(others, ownership, id);
      var owned := At(record.forwards, id);
      var outcome := Attempt(record, owned);
      close := outcome;
      r := JournalClosure(record, others, owned, outcome.IsClosed?);
    }

    /** One close attempt. */
    method Attempt(ghost record: Record, ownership: Ownership) returns (outcome: CloseOutcome)
      requires world.Valid() && Disciplined(world.trace)
      requires Children(world.trace) == Closes(world.trace) + [ownership]
      modifies world
      ensures world.Onward(old(world.cursor), old(world.clock))
      ensures world.Valid() && world.history == old(world.history) && world.releases == old(world.releases)
      ensures world.clock == old(world.clock) && world.faults == old(world.faults)
      ensures Extends(old(world.trace), world.trace, [], [])
      ensures world.trace == old(world.trace) + [CloseTried(ownership, outcome)]
      ensures Children(world.trace) == Closes(world.trace) == Children(old(world.trace))
      ensures Looked(old(world.trace), world.trace, [SawClose(ownership.id, outcome)])
      ensures old(Steady(record)) ==> Steady(record)
    {
      hide World.Valid, Accounted;
      ghost var t := world.trace;
      outcome := world.Close(ownership);
      AppendEvent(t, CloseTried(ownership, outcome));
      NothingRun(t, world.trace);
      SameAccount(record.evidence, t, world.trace);
    }

    lemma NothingRun(t: Trace, t1: Trace)
      requires Commands(t1) == Commands(t) + [] && Outcomes(t1) == Outcomes(t) + []
      ensures Commands(t1) == Commands(t) && Outcomes(t1) == Outcomes(t)
    {
    }

    /** The journal write after a close attempt. */
    method JournalClosure(record: Record, ghost others: seq<Ownership>, ownership: Ownership, closed: bool)
      returns (r: Option<Record>)
      requires world.Valid() && world.Known(record) && Disciplined(world.trace)
      requires record.forwards == others + [ownership] && !Has(others, ownership.id)
      requires Closing(world.trace, ownership.id) && closed == Last(world.trace).close.IsClosed?
      modifies world
      ensures world.Onward(old(world.cursor), old(world.clock))
      ensures world.Valid() && old(world.history) <= world.history && world.releases == old(world.releases)
      ensures Extends(old(world.trace), world.trace, [], []) && SameChildren(old(world.trace), world.trace)
      ensures world.faults >= old(world.faults) && world.clock >= old(world.clock)
      ensures world.faults == old(world.faults) ==>
                && (r.Some? <==> closed)
                && ClosureWritten(world.trace, ownership.id, Last(old(world.trace)).close)
      ensures r.Some? ==>
                && closed && world.faults == old(world.faults)
                && world.Known(r.value) && Newest(r.value) && Shut(record, r.value, others, ownership)
      ensures old(Steady(record)) && ownership.state.Started? && ownership.process.Some? &&
              !ForwardFree(record.status) &&
              ownership.process.value.startedAt <= old(world.clock) ==>
                && world.faults == old(world.faults)
                && if r.Some? then Steady(r.value) else Steady(Latest()) && Latest().status == record.status
    {
      hide Commit, After, ForwardGuard, ValidRecord, Opened, OpensMutation, Disciplined, Find, ForwardsAfter,
        HasOwnership, Shut, World.Valid, Steady;
      ghost var calm := Steady(record) && ownership.state.Started? && ownership.process.Some? &&
      !ForwardFree(record.status) && ownership.process.value.startedAt <= world.clock;
      var now := ReadClock(record);
      var op := if closed then ForwardStopped(ownership.id, now) else ForwardAmbiguous(ownership.id, now);
      if calm {
        CleanupAccepted(record, others, ownership, op);
      }
      var w := Persist(record, op);
      AfterCleanup(record, others, ownership, op);
      if w.Some? && calm {
        SteadyIsLatest(w.value);
      }
      r := if closed then w else None;
    }

    lemma CleanupAccepted(record: Record, others: seq<Ownership>, ownership: Ownership, op: Op)
      requires world.Valid() && world.Known(record) && Steady(record)
      requires record.forwards == others + [ownership] && !Has(others, ownership.id)
      requires ownership.state.Started? && ownership.process.Some? && !ForwardFree(record.status)
      requires ownership.process.value.startedAt <= op.now == world.clock
      requires op == ForwardStopped(ownership.id, op.now) || op == ForwardAmbiguous(ownership.id, op.now)
      ensures Commit(record, op).Ok?
    {
      hide Commit, World.Valid, ValidRecord, Find, Steady;
      KnownValid(record);
      SteadyReady(record);
      FindAppend(others, ownership, ownership.id);
      var k := |others|;
      if op.ForwardStopped? {
        StopAccepted(record, k, op.now);
      } else {
        AmbiguousAccepted(record, k, op.now);
      }
    }

    lemma AfterCleanup(record: Record, others: seq<Ownership>, ownership: Ownership, op: Op)
      requires record.forwards == others + [ownership] && !Has(others, ownership.id)
      requires op == ForwardStopped(ownership.id, op.now) || op == ForwardAmbiguous(ownership.id, op.now)
      ensures op.ForwardStopped? ==> Shut(record, After(record, op), others, ownership)
      ensures After(record, op).status == record.status
    {
      if op.ForwardStopped? {
        ReplaceLast(others, ownership, (o: Ownership) => o.(state := Stopped, stoppedAt := Some(op.now)));
      }
    }

    /** `_port_forward_failure`: with started upgrades they are rolled back, and only a journal access that
        fails turns this into plain reconciliation. */
    method PortForwardFailure(record: Record, started: seq<Planned>)
      returns (r: Outcome, ghost outs: seq<CommandOutcome>)
      requires world.Valid() && world.Known(record) && Disciplined(world.trace)
      requires CanUndo(world.trace, Rollbacks(record), started)
      modifies world
      ensures world.Onward(old(world.cursor), old(world.clock))
      ensures old(world.history) <= world.history
      ensures |outs| <= |started| && Undone(old(world.trace), old(world.releases), started, outs)
      ensures !r.RunnerRaised? && world.faults >= old(world.faults)
      ensures r.Returned? ==> world.Known(r.record) && Newest(r.record) && r.status == r.record.status
      ensures EndsPair(Failing, started, r, outs) ||
              (world.faults > old(world.faults) && (r.Returned? ==> r.status.ReconciliationRequired?))
      ensures started != [] && !ActiveApproval(record, old(world.clock)) ==>
                outs == [] && (r.Returned? ==> r.status.ReconciliationRequired?)
      ensures r.Returned? && r.status.RolledBack? ==> RestoredAll(world.releases, Rollbacks(record), started, 0)
      ensures old(Steady(record)) && AllStopped(record.forwards) &&
              record.status in {PortForwardStarted, TlsDc8Probing} &&
              NoneRecorded(earlier, UndoCommands(started)) ==>
                r.Returned? && (world.faults == old(world.faults) || Overfull(world.trace))
    {
      hide After, Commit, ForwardGuard, World.Valid, ValidRecord, OpensMutation, Steady, NoneRecorded, SameOutside,
        RestoredAll, UndoFresh, Disciplined, Opened, HasSnapshot, UndoCommands, ReleasesOf, Covered, DistinctTargets,
        ActiveApproval;
      if started != [] {
        r, outs := Rollback(record, started);
        if r.StoreRaised? {
          ghost var t := world.trace;
          ghost var c := world.releases;
          r := Reconcile();
          OverfullLater(t, world.trace);
          assert SameChildren(old(world.trace), world.trace);
          assert world.releases == c;
        }
      } else {
        outs := [];
        NothingUndone(started);
        SameOutsideSelf(world.releases, started);
        var w := Transition(record, Failed);
        if w.None? {
          return StoreRaised, outs;
        }
        MovedStatus(record, w.value, Failed);
        r := Returned(w.value, Failed);
      }
    }

    lemma OverfullLater(t: Trace, t1: Trace)
      requires Extends(t, t1, [], [])
      ensures Overfull(t) <==> Overfull(t1)
    {
      hide CountCompleted, Disciplined, Opened;
      NothingRun(t, t1);
    }

    /** A quiet journal in which this forward can be declared. */
    ghost predicate MayDeclare(record: Record, id: string)
      reads world
    {
      && Steady(record) && PortForwardIntent in Transitions(record.status)
      && |record.forwards| < 20 && !Has(record.forwards, id)
    }

    /** The end of an execution in the forward phase, counted from the trace `t`: what was undone, and
        what a returned result says about the children and the releases. */
    ghost predicate Ended(t: Trace, releases0: map<Release, Content>, rollbacks: seq<ReleaseSnapshot>,
                          started: seq<Planned>, r: Outcome, outs: seq<CommandOutcome>)
      requires AllHelm(started) && Covered(rollbacks, started)
      reads world
    {
      && |outs| <= |started|
      && world.Valid()
      && Extends(t, world.trace, UndoCommands(started)[..|outs|], outs)
      && SameOutside(releases0, world.releases, ReleasesOf(started))
      && (r.Returned? ==> Children(world.trace) == Closes(world.trace) && EndsWith(rollbacks, started, r, outs))
    }

    ghost predicate EndsWith(rollbacks: seq<ReleaseSnapshot>, started: seq<Planned>, r: Outcome,
                             outs: seq<CommandOutcome>)
      requires AllHelm(started) && Covered(rollbacks, started)
      requires r.Returned?
      reads world
    {
      && world.Known(r.record) && Newest(r.record) && r.status == r.record.status
      && r.status in {RolledBack, Failed, ReconciliationRequired}
      && (r.status.Failed? ==> started == [])
      && (r.status.RolledBack? ==>
            started != [] && |outs| == |started| && AllZero(outs) && RestoredAll(world.releases, rollbacks, started, 0))
    }

    /** The end fits the verdict on the pair, unless a journal access failed since `faults`; then it is at
        most a reconciliation. */
    ghost predicate Settles(faults: nat, v: PairVerdict, started: seq<Planned>, r: Outcome, outs: seq<CommandOutcome>)
      reads world`faults
    {
      && (|| EndsPair(v, started, r, outs)
          || (world.faults > faults && (r.Returned? ==> r.status.ReconciliationRequired?)))
      && (outs != [] ==> v.Failing?)
    }

    /** What a quiet journal leaves to go wrong: more results than the row can hold evidence of. */
    ghost predicate Unhurt(faults: nat)
      reads world`faults, world`trace
    {
      world.faults == faults || Overfull(world.trace)
    }

    lemma EndedQuietly(t: Trace, releases0: map<Release, Content>, rollbacks: seq<ReleaseSnapshot>,
                       started: seq<Planned>, r: Outcome)
      requires AllHelm(started) && Covered(rollbacks, started)
      requires world.Valid() && Extends(t, world.trace, [], []) && world.releases == releases0
      requires r.Returned? ==>
                 && Children(world.trace) == Closes(world.trace) && world.Known(r.record) && Newest(r.record)
                 && IsReconciled(r)
      ensures Ended(t, releases0, rollbacks, started, r, [])
    {
      hide World.Valid, Extends, World.Known, Covered, ReleasesOf, SameOutside;
      NothingUndone(started);
      SameOutsideSelf(releases0, started);
    }

    /** The end of a failed forward: nothing durable is claimed beyond what `Rollback` or `Reconcile` say. */
    method Conclude(record: Record, started: seq<Planned>, uncertain: bool)
      returns (r: Outcome, ghost outs: seq<CommandOutcome>)
      requires world.Valid() && world.Known(record) && Disciplined(world.trace)
      requires CanUndo(world.trace, Rollbacks(record), started)
      requires Children(world.trace) == Closes(world.trace)
      modifies world
      ensures world.Onward(old(world.cursor), old(world.clock))
      ensures old(world.history) <= world.history && world.faults >= old(world.faults)
      ensures Ended(old(world.trace), old(world.releases), Rollbacks(record), started, r, outs)
      ensures !r.RunnerRaised? && SameChildren(old(world.trace), world.trace)
      ensures Settles(old(world.faults), if uncertain then Doubtful else Failing, started, r, outs)
      ensures uncertain && old(Steady(Latest())) && old(Latest()).status in {PortForwardStarted, TlsDc8Probing} ==>
                r.Returned? && world.faults == old(world.faults)
      ensures !uncertain && old(Steady(record)) && record.status in {PortForwardStarted, TlsDc8Probing} &&
              AllStopped(record.forwards) && NoneRecorded(earlier, UndoCommands(started)) ==>
                r.Returned? && Unhurt(old(world.faults))
    {
      hide After, Commit, ForwardGuard, World.Valid, ValidRecord, OpensMutation, Steady, NoneRecorded, Disciplined,
        Opened, World.Known, HasSnapshot, Find, SameOutside, ReleasesOf, RestoredAll, UndoCommands, AllZero,
        DistinctTargets, UndoFresh, Covered, Overfull, ActiveApproval;
      ghost var t, releases0 := world.trace, world.releases;
      if uncertain {
        ForwardStatusesReconcile();
        r := Reconcile();
        outs := [];
        EndedQuietly(t, releases0, Rollbacks(record), started, r);
      } else {
        r, outs := PortForwardFailure(record, started);
      }
    }

    lemma ForwardStatusesReconcile()
      ensures ReconciliationRequired in Transitions(PortForwardStarted)
      ensures ReconciliationRequired in Transitions(TlsDc8Probing)
    {
    }

    lemma EndedLater(t0: Trace, t1: Trace, releases0: map<Release, Content>, rollbacks: seq<ReleaseSnapshot>,
                     started: seq<Planned>, r: Outcome, outs: seq<CommandOutcome>)
      requires AllHelm(started) && Covered(rollbacks, started)
      requires Extends(t0, t1, [], []) && Ended(t1, releases0, rollbacks, started, r, outs)
      ensures Ended(t0, releases0, rollbacks, started, r, outs)
    {
      hide Extends, EndsWith, SameOutside, ReleasesOf, Covered, World.Valid;
      assert |UndoCommands(started)| == |started| by { NothingUndone(started); }
      hide UndoCommands;
      ExtendsQuietly(t0, t1, world.trace, UndoCommands(started)[..|outs|], outs);
    }

    lemma CanUndoKept(t0: Trace, t1: Trace, rollbacks: seq<ReleaseSnapshot>, started: seq<Planned>)
      requires Extends(t0, t1, [], []) && CanUndo(t0, rollbacks, started)
      ensures CanUndo(t1, rollbacks, started) && AllHelm(started) && Covered(rollbacks, started)
      ensures Commands(t1) == Commands(t0) && Disciplined(t1)
    {
      hide Opened, Disciplined, UndoFresh, Covered;
    }

    /** `record` is `base` plus one started child that this execution has not yet tried to close. */
    ghost predicate Holding(base: Record, record: Record, id: string)
      reads world
    {
      && world.Valid() && world.Known(record) && Disciplined(world.trace)
      && Holds(base, record, id)
      && Children(world.trace) == Closes(world.trace) + [NewestForward(record)]
      && NewestForward(record).process.value.startedAt <= world.clock
    }

    predicate Holds(base: Record, record: Record, id: string) {
      && AllStopped(base.forwards) && !Has(base.forwards, id)
      && |record.forwards| == |base.forwards| + 1
      && record.forwards == base.forwards + [NewestForward(record)]
      && NewestForward(record).id == id && NewestForward(record).state.Started? && NewestForward(record).process.Some?
    }

    lemma ShutFacts(base: Record, record: Record, u: Record, id: string)
      requires Holds(base, record, id) && Shut(record, u, base.forwards, NewestForward(record))
      ensures AllStopped(u.forwards) && u.status == record.status && Rollbacks(u) == Rollbacks(record)
    {
      assert u.forwards == base.forwards + [u.forwards[|base.forwards|]];
    }

    lemma SteadyIsLatest(record: Record)
      requires world.Valid() && world.Known(record) && Steady(record)
      ensures Latest() == record
    {
    }

    /** Closes the child; then the execution ends, in doubt or as a plain failure. */
    method CloseOut(ghost base: Record, record: Record, id: string, started: seq<Planned>, uncertain: bool)
      returns (r: Outcome, ghost outs: seq<CommandOutcome>, ghost close: CloseOutcome)
      requires Holding(base, record, id)
      requires CanUndo(world.trace, Rollbacks(record), started)
      modifies world
      ensures world.Onward(old(world.cursor), old(world.clock))
      ensures old(world.history) <= world.history && world.faults >= old(world.faults)
      ensures Ended(old(world.trace), old(world.releases), Rollbacks(record), started, r, outs)
      ensures !r.RunnerRaised? && Looked(old(world.trace), world.trace, [SawClose(id, close)])
      ensures Settles(old(world.faults), if uncertain || !close.IsClosed? then Doubtful else Failing, started, r, outs)
      ensures old(Steady(record)) && record.status in {PortForwardStarted, TlsDc8Probing} &&
              NoneRecorded(earlier, UndoCommands(started)) ==>
                r.Returned? && Unhurt(old(world.faults))
    {
      hide After, Commit, ForwardGuard, World.Valid, ValidRecord, OpensMutation, Steady, NoneRecorded, Disciplined,
        Opened, HasSnapshot, Find, SameOutside, ReleasesOf, RestoredAll, UndoCommands, AllZero, DistinctTargets,
        UndoFresh, Covered, Has, Shut, AllStopped, Extends, Ended, CanUndo, Rollbacks, ClosureWritten, Overfull,
        EndsPair, Sights, Children, Closes;
      ghost var t, releases0, faults0 := world.trace, world.releases, world.faults;
      var c;
      c, close := CleanupPortForward(record, base.forwards, NewestForward(record), id);
      CanUndoKept(t, world.trace, Rollbacks(record), started);
      ghost var t1, faults1 := world.trace, world.faults;
      if c.None? {
        r, outs := Conclude(record, started, true);
      } else {
        ShutFacts(base, record, c.value, id);
        if Steady(c.value) {
          SteadyIsLatest(c.value);
        }
        r, outs := Conclude(c.value, started, uncertain);
      }
      EndedLater(t, t1, releases0, Rollbacks(record), started, r, outs);
      SettlesEarlier(faults0, faults1, started, r, outs, uncertain, c, close);
    }

    /** From the verdict behind the close attempt to the verdict with it. */
    lemma SettlesEarlier(faults0: nat, faults1: nat, started: seq<Planned>, r: Outcome, outs: seq<CommandOutcome>,
                         uncertain: bool, c: Option<Record>, close: CloseOutcome)
      requires faults0 <= faults1
      requires Settles(faults1, if c.None? || uncertain then Doubtful else Failing, started, r, outs)
      requires c.Some? ==> close.IsClosed? && faults1 == faults0
      requires faults1 == faults0 ==> (c.Some? <==> close.IsClosed?)
      requires faults1 <= world.faults
      ensures Settles(faults0, if uncertain || !close.IsClosed? then Doubtful else Failing, started, r, outs)
    {
    }

    /** From declaring a forward to its acknowledged start: intent, spawn, identity.  Without a failing
        journal access it goes on exactly when the child is the one that was asked for. */
    method StartChild(record: Record, forward: Action) returns (r: PairStep, ghost spawn: Option<SpawnOutcome>)
      requires world.Valid() && world.Known(record) && Disciplined(world.trace)
      requires forward.Forward? && AllStopped(record.forwards)
      modifies world
      ensures world.Onward(old(world.cursor), old(world.clock))
      ensures world.Valid() && old(world.history) <= world.history && world.releases == old(world.releases)
      ensures Extends(old(world.trace), world.trace, [], []) && Closes(world.trace) == Closes(old(world.trace))
      ensures Looked(old(world.trace), world.trace, if spawn.Some? then [SawSpawn(forward.id, spawn.value)] else [])
      ensures world.faults >= old(world.faults)
      ensures spawn.None? ==> world.faults > old(world.faults) && r == Stop(RunnerRaised)
      ensures world.faults == old(world.faults) ==>
                && (r.Continue? <==> ChildFits(argv(forward), spawn.value))
                && (r.Stop? ==> r.outcome.Returned?)
      ensures r.Stop? ==>
                && Children(world.trace) == Children(old(world.trace))
                && (r.outcome.Returned? ==>
                      world.Known(r.outcome.record) && Newest(r.outcome.record) && IsReconciled(r.outcome))
      ensures r.Continue? ==>
                && world.Known(r.record) && spawn.Some? && world.faults == old(world.faults)
                && ChildFits(argv(forward), spawn.value)
                && OpenedWith(record, r.record, forward.id, spawn.value)
                && Children(world.trace) == Children(old(world.trace)) + [NewestForward(r.record)]
                && NewestForward(r.record).process.value.startedAt <= world.clock
                && world.trace != [] && IsStart(Last(world.trace), forward.id)
      ensures old(MayDeclare(record, forward.id)) ==>
                && world.faults == old(world.faults)
                && if r.Continue? then Steady(r.record) else r.outcome.Returned?
    {
      hide After, Commit, ForwardGuard, World.Valid, ValidRecord, OpensMutation, Steady, Disciplined, Opened,
        Transitions, HasOwnership, Find, MayDeclare, OpenedWith, World.Known, Extends, ChildFits, Sights, Closes,
        Children, Init, Last;
      ghost var t := world.trace;
      var w := Declare(record, forward);
      if w.None? {
        return Stop(RunnerRaised), None;
      }
      DeclaredFacts(record, w.value);
      ghost var t1 := world.trace;
      ExtendsMeans(t, t1, [], []);
      ghost var child;
      r, child := Launch(record, w.value, forward);
      spawn := Some(child);
      ExtendsQuietly(t, t1, world.trace, [], []);
      LookedBoth(t, t1, world.trace, [], [SawSpawn(forward.id, child)]);
    }

    lemma DeclaredFacts(base: Record, record: Record)
      requires record.forwards != [] && DeclaredIn(base, record, NewestForward(record))
      ensures record.status.PortForwardIntent? && ReconciliationRequired in Transitions(record.status)
    {
    }

    /** The spawn of a declared forward and the write of its identity. */
    method Launch(ghost base: Record, declared: Record, forward: Action)
      returns (r: PairStep, ghost child: SpawnOutcome)
      requires world.Valid() && world.Known(declared) && Disciplined(world.trace)
      requires forward.Forward?
      requires declared.forwards != [] && DeclaredIn(base, declared, NewestForward(declared))
      requires NewestForward(declared).id == forward.id && NewestForward(declared).intentAt <= world.clock
      requires NewestForward(declared).argv == argv(forward)
      requires world.trace != [] && IsIntent(Last(world.trace), forward.id)
      modifies world
      ensures world.Onward(old(world.cursor), old(world.clock))
      ensures world.Valid() && old(world.history) <= world.history && world.releases == old(world.releases)
      ensures Extends(old(world.trace), world.trace, [], []) && Closes(world.trace) == Closes(old(world.trace))
      ensures Looked(old(world.trace), world.trace, [SawSpawn(forward.id, child)])
      ensures world.faults >= old(world.faults)
      ensures world.faults == old(world.faults) ==>
                && (r.Continue? <==> ChildFits(argv(forward), child))
                && (r.Stop? ==> r.outcome.Returned?)
      ensures r.Stop? ==>
                && Children(world.trace) == Children(old(world.trace))
                && (r.outcome.Returned? ==>
                      world.Known(r.outcome.record) && Newest(r.outcome.record) && IsReconciled(r.outcome))
      ensures r.Continue? ==>
                && world.Known(r.record) && world.faults == old(world.faults) && ChildFits(argv(forward), child)
                && OpenedWith(base, r.record, forward.id, child)
                && Children(world.trace) == Children(old(world.trace)) + [NewestForward(r.record)]
                && NewestForward(r.record).process.value.startedAt <= world.clock
                && world.trace != [] && IsStart(Last(world.trace), forward.id)
      ensures old(Steady(declared)) && old(Latest()) == declared &&
              ReconciliationRequired in Transitions(declared.status) ==>
                && world.faults == old(world.faults)
                && if r.Continue? then Steady(r.record) else r.outcome.Returned?
    {
      hide After, Commit, ForwardGuard, World.Valid, ValidRecord, OpensMutation, Steady, Disciplined, Opened,
        Transitions, HasOwnership, Find, DeclaredIn, OpenedWith, World.Known, OneWrite, Init, Last, IsIntent, IsStart,
        Extends, Sights, Closes, Children;
      ghost var t := world.trace;
      var spawned := SpawnDeclared(declared, forward.id);
      child := spawned;
      ghost var t1 := world.trace;
      ExtendsMeans(t, t1, [], []);
      if spawned.SpawnRaised? || spawned.pid < 1 || spawned.argv != argv(forward) {
        var o := Reconcile();
        LaunchedTrace(t, t1, world.trace, forward.id, child);
        return Stop(o), child;
      }
      var started := RecordChild(base, declared, spawned);
      ghost var t2 := world.trace;
      LaunchedTrace(t, t1, t2, forward.id, child);
      ExtendsMeans(t, t2, [], []);
      if started.None? {
        var o := Reconcile();
        ExtendsQuietly(t, t2, world.trace, [], []);
        LookedBoth(t, t2, world.trace, [SawSpawn(forward.id, child)], []);
        return Stop(o), child;
      }
      return Continue(started.value), child;
    }

    lemma LaunchedTrace(t: Trace, t1: Trace, t2: Trace, id: string, child: SpawnOutcome)
      requires Extends(t, t1, [], []) && Extends(t1, t2, [], [])
      requires Looked(t, t1, [SawSpawn(id, child)]) && Sights(t2) == Sights(t1)
      ensures Extends(t, t2, [], []) && Looked(t, t2, [SawSpawn(id, child)])
    {
      hide Extends, Sights;
      ExtendsQuietly(t, t1, t2, [], []);
    }

    /** The durable intent. */
    method Declare(record: Record, forward: Action) returns (r: Option<Record>)
      requires world.Valid() && world.Known(record) && Disciplined(world.trace)
      requires forward.Forward? && AllStopped(record.forwards)
      modifies world
      ensures world.Onward(old(world.cursor), old(world.clock))
      ensures world.Valid() && old(world.history) <= world.history && world.releases == old(world.releases)
      ensures Extends(old(world.trace), world.trace, [], []) && SameChildren(old(world.trace), world.trace)
      ensures Looked(old(world.trace), world.trace, [])
      ensures world.faults == old(world.faults) + if r.Some? then 0 else 1
      ensures r.Some? ==>
                && world.Known(r.value)
                && DeclaredIn(record, r.value,
                              Ownership(forward.id, argv(forward), IntentPersisted, world.clock, None, None))
                && world.trace != [] && IsIntent(Last(world.trace), forward.id)
      ensures old(MayDeclare(record, forward.id)) ==> r.Some? && Steady(r.value) && Latest() == r.value
    {
      hide After, Commit, ForwardGuard, ValidRecord, OpensMutation, Disciplined, Opened, Transitions, HasOwnership,
        Find, World.Valid, Steady, Ready;
      ghost var calm := MayDeclare(record, forward.id);
      var now := ReadClock(record);
      var o := Ownership(forward.id, argv(forward), IntentPersisted, now, None, None);
      if calm {
        SteadyReady(record);
        IntentAccepted(record, o, now);
      }
      ghost var t := world.trace;
      r := Persist(record, ForwardIntent(o, now));
      AfterIntent(record, o, now);
      assert Sights(t) + [] == Sights(t);
      if r.Some? {
        AppendEvent(t, Wrote(record, ForwardIntent(o, now), r.value, true));
        if calm {
          SteadyIsLatest(r.value);
        }
      }
    }

    lemma AfterIntent(record: Record, o: Ownership, now: int)
      ensures ForwardGuard(record, ForwardIntent(o, now)) ==>
                DeclaredIn(record, After(record, ForwardIntent(o, now)), o)
      ensures ChildOf(Wrote(record, ForwardIntent(o, now), After(record, ForwardIntent(o, now)), true)) == []
    {
      if Has(record.forwards, o.id) {
        assert At(record.forwards, o.id) in record.forwards;
      }
    }

    /** The spawn, right behind its intent. */
    method SpawnDeclared(ghost record: Record, id: string) returns (outcome: SpawnOutcome)
      requires world.Valid() && Disciplined(world.trace)
      requires world.trace != [] && IsIntent(Last(world.trace), id)
      modifies world
      ensures world.Onward(old(world.cursor), old(world.clock))
      ensures world.Valid() && world.history == old(world.history) && world.releases == old(world.releases)
      ensures world.clock == old(world.clock) && world.faults == old(world.faults)
      ensures Extends(old(world.trace), world.trace, [], [])
      ensures Children(world.trace) == Children(old(world.trace)) && Closes(world.trace) == Closes(old(world.trace))
      ensures world.trace != [] && Last(world.trace) == Spawned(id, outcome)
      ensures Looked(old(world.trace), world.trace, [SawSpawn(id, outcome)])
      ensures old(Steady(record)) ==> Steady(record)
    {
      hide World.Valid, Accounted;
      ghost var t := world.trace;
      outcome := world.Spawn(id);
      AppendEvent(t, Spawned(id, outcome));
      NothingRun(t, world.trace);
      SameAccount(record.evidence, t, world.trace);
    }

    /** The durable identity of the child. */
    method RecordChild(ghost base: Record, record: Record, child: SpawnOutcome) returns (r: Option<Record>)
      requires world.Valid() && world.Known(record) && Disciplined(world.trace)
      requires record.forwards != [] && DeclaredIn(base, record, NewestForward(record))
      requires NewestForward(record).intentAt <= world.clock
      requires ChildFits(NewestForward(record).argv, child)
      requires world.trace != [] && Last(world.trace) == Spawned(NewestForward(record).id, child)
      modifies world
      ensures world.Onward(old(world.cursor), old(world.clock))
      ensures world.Valid() && old(world.history) <= world.history && world.releases == old(world.releases)
      ensures Extends(old(world.trace), world.trace, [], []) && Closes(world.trace) == Closes(old(world.trace))
      ensures Sights(world.trace) == Sights(old(world.trace))
      ensures world.faults == old(world.faults) + if r.Some? then 0 else 1
      ensures r.None? ==> Children(world.trace) == Children(old(world.trace))
      ensures r.Some? ==>
                && world.Known(r.value)
                && OpenedWith(base, r.value, NewestForward(record).id, child)
                && Children(world.trace) == Children(old(world.trace)) + [NewestForward(r.value)]
                && NewestForward(r.value).process.value.startedAt <= world.clock
                && world.trace != [] && IsStart(Last(world.trace), NewestForward(record).id)
      ensures old(Steady(record)) ==> r.Some? && Steady(r.value)
    {
      hide After, Commit, ForwardGuard, ValidRecord, OpensMutation, Disciplined, Opened, Transitions, HasOwnership,
        Find, World.Valid, Init, Steady, Ready, Children, Closes, Sights;
      ghost var calm := Steady(record);
      var o := NewestForward(record);
      var now := ReadClock(record);
      var op := ForwardStarted(o.id, child.pid, child.createdAt, now);
      AfterStart(base, record, o, op, child);
      if calm {
        SteadyReady(record);
        StartAccepted(record, |base.forwards|, child.pid, child.createdAt, now);
      }
      ghost var t := world.trace;
      r := Persist(record, op);
    }

    lemma AfterStart(base: Record, record: Record, o: Ownership, op: Op, child: SpawnOutcome)
      requires DeclaredIn(base, record, o) && ChildFits(o.argv, child)
      requires op.ForwardStarted? && op.id == o.id && op.pid == child.pid && op.createdAt == child.createdAt
      ensures Find(record.forwards, o.id) == |base.forwards| && record.forwards[|base.forwards|] == o
      ensures Has(record.forwards, o.id) && At(record.forwards, o.id) == o
      ensures OpenedWith(base, After(record, op), o.id, child)
      ensures NewestForward(After(record, op)).process.value.startedAt == op.now
      ensures ChildOf(Wrote(record, op, After(record, op), true)) == [NewestForward(After(record, op))]
    {
      var start := (x: Ownership) => x.(state := Started, process := Some(Process(op.pid, op.createdAt, op.now)));
      ReplaceLast(base.forwards, o, start);
      FindAppend(base.forwards, start(o), o.id);
    }

    /** What serving one pair promises, from the trace `t` on: it goes on only with the pair served as
        `s` shows, and otherwise ends as the verdict on `s` demands. */
    ghost predicate PairDone(t: Trace, faults: nat, releases0: map<Release, Content>, base: Record, pair: Pair,
                             started: seq<Planned>, r: PairStep, outs: seq<CommandOutcome>, s: Seen,
                             sights: seq<Sight>)
      requires pair.forward.Forward? && AllHelm(started) && Covered(Rollbacks(base), started)
      reads world
    {
      && Looked(t, world.trace, sights) && world.faults >= faults
      && match r
         case Continue(record) =>
           && world.Valid() && world.Known(record) && Served(base, record, pair, s)
           && VerdictOn(argv(pair.forward), s).IsServed? && world.faults == faults
           && Extends(t, world.trace, [], []) && Children(world.trace) == Closes(world.trace)
           && world.releases == releases0
         case Stop(outcome) =>
           && Ended(t, releases0, Rollbacks(base), started, outcome, outs)
           && Settles(faults, VerdictOn(argv(pair.forward), s), started, outcome, outs)
    }

    /** What a quiet journal adds to it. */
    ghost predicate PairQuiet(faults: nat, r: PairStep)
      reads world
    {
      Unhurt(faults) && if r.Continue? then Steady(r.record) else r.outcome.Returned?
    }

    /** A quiet journal in which this pair can be served to its end. */
    ghost predicate MayServe(record: Record, pair: Pair, started: seq<Planned>)
      requires pair.forward.Forward?
      reads world
    {
      && MayDeclare(record, pair.forward.id)
      && CanNote(record, pair)
      && NoneRecorded(earlier, UndoCommands(started))
    }

    /** One turn of the loop in `_run_port_forward_pairs`.  Nothing is seen of a pair only when its intent
        could not be written. */
    method ServePair(record: Record, pair: Pair, started: seq<Planned>)
      returns (r: PairStep, ghost outs: seq<CommandOutcome>, ghost seen: Option<Seen>)
      requires world.Valid() && world.Known(record) && Disciplined(world.trace)
      requires pair.forward.Forward? && AllStopped(record.forwards)
      requires Children(world.trace) == Closes(world.trace)
      requires CanUndo(world.trace, Rollbacks(record), started)
      modifies world
      ensures world.Onward(old(world.cursor), old(world.clock))
      ensures old(world.history) <= world.history
      ensures seen.Some? ==>
                PairDone(old(world.trace), old(world.faults), old(world.releases), record, pair, started, r, outs,
                         seen.value, SightsOf(pair.forward.id, seen.value))
      ensures seen.None? ==>
                && r == Stop(RunnerRaised) && outs == [] && world.faults > old(world.faults)
                && Looked(old(world.trace), world.trace, [])
                && Ended(old(world.trace), old(world.releases), Rollbacks(record), started, RunnerRaised, [])
      ensures old(MayServe(record, pair, started)) ==> seen.Some? && PairQuiet(old(world.faults), r)
    {
      hide After, Commit, ForwardGuard, World.Valid, ValidRecord, OpensMutation, Steady, NoneRecorded, Disciplined,
        Opened, HasSnapshot, Find, SameOutside, ReleasesOf, RestoredAll, UndoCommands, AllZero, DistinctTargets,
        UndoFresh, Covered, Has, AllStopped, Extends, Ended, CanUndo, OpenedWith, Served, Rollbacks, MayDeclare,
        PairDone, ChildFits, Sights, Children, Closes, Looked, CanNote, Overfull, EndsPair, IsStart, Last;
      ghost var t, releases0, faults0 := world.trace, world.releases, world.faults;
      ghost var spawn;
      var child;
      child, spawn := StartChild(record, pair.forward);
      ghost var t1, faults1 := world.trace, world.faults;
      CanUndoKept(t, t1, Rollbacks(record), started);
      if child.Stop? {
        r, outs, seen := child, [], None;
        EndedQuietly(t, releases0, Rollbacks(record), started, child.outcome);
        if spawn.Some? {
          ghost var s := Seen(spawn.value, None, None, None);
          seen := Some(s);
          SpawnOnly(pair.forward.id, s);
          SpawnDoubt(pair, s, started, child.outcome);
          StopDone(t, faults0, releases0, record, pair, started, r, outs, s, SightsOf(pair.forward.id, s));
        }
      } else {
        HoldsOpened(record, child.record, pair.forward.id, spawn.value);
        ghost var s;
        r, outs, s := ServeChild(record, child.record, pair, started, spawn.value);
        seen := Some(s);
        DoneLater(t, t1, releases0, record, pair, started, r, outs, s, [SawSpawn(pair.forward.id, s.spawn)],
                  AfterSpawn(pair.forward.id, s), faults0);
        SpawnFirst(pair.forward.id, s);
      }
    }

    /** The sights behind the spawn. */
    function AfterSpawn(id: string, s: Seen): seq<Sight> {
      (if s.ready.Some? then [SawWait(id, s.ready.value)] else []) + AfterWait(id, s)
    }

    /** The sights behind the wait. */
    function AfterWait(id: string, s: Seen): seq<Sight> {
      (if s.probe.Some? then [SawProbe(id, s.probe.value)] else [])
      + (if s.close.Some? then [SawClose(id, s.close.value)] else [])
    }

    lemma SpawnFirst(id: string, s: Seen)
      ensures [SawSpawn(id, s.spawn)] + AfterSpawn(id, s) == SightsOf(id, s)
    {
    }

    lemma SpawnOnly(id: string, s: Seen)
      requires s.ready.None? && s.probe.None? && s.close.None?
      ensures SightsOf(id, s) == [SawSpawn(id, s.spawn)]
    {
    }

    lemma SpawnDoubt(pair: Pair, s: Seen, started: seq<Planned>, r: Outcome)
      requires pair.forward.Forward? && s.close.None?
      requires r.Returned? ==> IsReconciled(r)
      ensures VerdictOn(argv(pair.forward), s).Doubtful?
      ensures r.Returned? ==> EndsPair(Doubtful, started, r, [])
    {
    }

    lemma StopDone(t: Trace, faults: nat, releases0: map<Release, Content>, base: Record, pair: Pair,
                   started: seq<Planned>, r: PairStep, outs: seq<CommandOutcome>, s: Seen, sights: seq<Sight>)
      requires pair.forward.Forward? && AllHelm(started) && Covered(Rollbacks(base), started) && r.Stop?
      requires Ended(t, releases0, Rollbacks(base), started, r.outcome, outs)
      requires Looked(t, world.trace, sights) && world.faults >= faults
      requires Settles(faults, VerdictOn(argv(pair.forward), s), started, r.outcome, outs)
      ensures PairDone(t, faults, releases0, base, pair, started, r, outs, s, sights)
    {
      hide Ended, Covered, Rollbacks, Looked, VerdictOn, Settles;
    }

    lemma DoneLater(t: Trace, t1: Trace, releases0: map<Release, Content>, base: Record, pair: Pair,
                    started: seq<Planned>, r: PairStep, outs: seq<CommandOutcome>, s: Seen, s1: seq<Sight>,
                    s2: seq<Sight>, faults: nat)
      requires pair.forward.Forward? && AllHelm(started) && Covered(Rollbacks(base), started)
      requires Extends(t, t1, [], []) && Looked(t, t1, s1)
      requires PairDone(t1, faults, releases0, base, pair, started, r, outs, s, s2)
      ensures PairDone(t, faults, releases0, base, pair, started, r, outs, s, s1 + s2)
    {
      hide Extends, Ended, Covered, Rollbacks, Served, World.Valid, Looked, VerdictOn, Settles;
      LookedBoth(t, t1, world.trace, s1, s2);
      if r.Stop? {
        EndedLater(t, t1, releases0, Rollbacks(base), started, r.outcome, outs);
      } else {
        ExtendsQuietly(t, t1, world.trace, [], []);
      }
    }

    lemma HoldsOpened(base: Record, record: Record, id: string, c: SpawnOutcome)
      requires OpenedWith(base, record, id, c) && AllStopped(base.forwards)
      ensures Holds(base, record, id) && record.status.PortForwardStarted? && Rollbacks(record) == Rollbacks(base)
      ensures record.tls == base.tls && IsOf(NewestForward(record), c)
    {
      assert record.forwards == record.forwards[..|base.forwards|] + [NewestForward(record)];
    }

    /** From the started child to its readiness. */
    method ServeChild(ghost base: Record, record: Record, pair: Pair, started: seq<Planned>, ghost child: SpawnOutcome)
      returns (r: PairStep, ghost outs: seq<CommandOutcome>, ghost s: Seen)
      requires pair.forward.Forward?
      requires Holding(base, record, pair.forward.id) && OpenedWith(base, record, pair.forward.id, child)
      requires ChildFits(argv(pair.forward), child)
      requires world.trace != [] && IsStart(Last(world.trace), pair.forward.id)
      requires CanUndo(world.trace, Rollbacks(record), started) && Rollbacks(record) == Rollbacks(base)
      requires AllHelm(started) && Covered(Rollbacks(base), started)
      modifies world
      ensures world.Onward(old(world.cursor), old(world.clock))
      ensures old(world.history) <= world.history && s.spawn == child
      ensures PairDone(old(world.trace), old(world.faults), old(world.releases), base, pair, started, r, outs, s,
                       AfterSpawn(pair.forward.id, s))
      ensures old(Steady(record)) && CanNote(base, pair) && NoneRecorded(earlier, UndoCommands(started)) ==>
                PairQuiet(old(world.faults), r)
    {
      hide After, Commit, ForwardGuard, World.Valid, ValidRecord, OpensMutation, Steady, NoneRecorded, Disciplined,
        Opened, HasSnapshot, Find, SameOutside, ReleasesOf, RestoredAll, UndoCommands, AllZero, DistinctTargets,
        UndoFresh, Covered, Has, AllStopped, Extends, Ended, CanUndo, Served, Rollbacks, MayDeclare, PairDone,
        CanNote, Sights, Children, Closes, Looked, Overfull, EndsPair, IsStart, Settles;
      ghost var t, releases0, faults0 := world.trace, world.releases, world.faults;
      ghost var id := pair.forward.id;
      OpenedFacts(base, record, id, child);
      var ready := AwaitReady(base, record, pair.forward.id);
      ghost var t1 := world.trace;
      CanUndoKept(t, t1, Rollbacks(record), started);
      if ready.IsReady? {
        r, outs, s := ProbeChild(base, record, pair, started, child);
      } else {
        ghost var close;
        var o;
        var uncertain := ready in {ReadyAmbiguous, ReadyRaised};
        o, outs, close := CloseOut(base, record, pair.forward.id, started, uncertain);
        r, s := Stop(o), Seen(child, Some(ready), None, Some(close));
        NotReadyVerdict(pair, s);
        CloseLast(id, s);
        StopDone(t1, faults0, releases0, base, pair, started, r, outs, s, AfterWait(id, s));
      }
      DoneLater(t, t1, releases0, base, pair, started, r, outs, s, [SawWait(id, ready)], AfterWait(id, s), faults0);
      WaitFirst(id, s);
    }

    lemma OpenedFacts(base: Record, record: Record, id: string, child: SpawnOutcome)
      requires OpenedWith(base, record, id, child)
      ensures record.status.PortForwardStarted?
    {
    }

    lemma WaitFirst(id: string, s: Seen)
      requires s.ready.Some?
      ensures AfterSpawn(id, s) == [SawWait(id, s.ready.value)] + AfterWait(id, s)
    {
    }

    lemma CloseLast(id: string, s: Seen)
      requires s.probe.None? && s.close.Some?
      ensures AfterWait(id, s) == [SawClose(id, s.close.value)]
    {
    }

    lemma NotReadyVerdict(pair: Pair, s: Seen)
      requires pair.forward.Forward? && ChildFits(argv(pair.forward), s.spawn)
      requires s.ready.Some? && !s.ready.value.IsReady? && s.close.Some?
      ensures VerdictOn(argv(pair.forward), s) ==
              if s.ready.value in {ReadyAmbiguous, ReadyRaised} || !s.close.value.IsClosed? then Doubtful else Failing
    {
    }

    predicate CanNote(record: Record, pair: Pair) {
      |record.tls| < 20 && forall e | e in record.tls :: e.probe != pair.probeIndex
    }

    /** `wait_ready`. */
    method AwaitReady(ghost base: Record, ghost record: Record, id: string) returns (ready: Readiness)
      requires Holding(base, record, id)
      requires world.trace != [] && IsStart(Last(world.trace), id)
      modifies world
      ensures world.Onward(old(world.cursor), old(world.clock))
      ensures world.history == old(world.history) && world.releases == old(world.releases)
      ensures world.faults == old(world.faults)
      ensures Holding(base, record, id)
      ensures Extends(old(world.trace), world.trace, [], [])
      ensures world.trace != [] && Last(world.trace) == Awaited(id, ready)
      ensures Looked(old(world.trace), world.trace, [SawWait(id, ready)])
      ensures old(Steady(record)) ==> Steady(record)
    {
      hide World.Valid, Accounted, Holds, Find;
      ghost var t := world.trace;
      ready := world.WaitReady(id);
      AppendEvent(t, Awaited(id, ready));
      NothingRun(t, world.trace);
      SameAccount(record.evidence, t, world.trace);
    }

    lemma HoldingMoves(base: Record, record: Record, u: Record, id: string, t0: Trace, clock0: int)
      requires Holds(base, record, id) && u.forwards == record.forwards
      requires world.Valid() && world.Known(u) && Disciplined(world.trace)
      requires Children(world.trace) == Children(t0) && Closes(world.trace) == Closes(t0)
      requires Children(t0) == Closes(t0) + [NewestForward(record)]
      requires NewestForward(record).process.value.startedAt <= clock0 <= world.clock
      ensures Holding(base, u, id)
    {
      hide World.Valid, World.Known, Disciplined, AllStopped, Has;
    }

    /** The child was ready, and its probe may be made now. */
    predicate ProbeReady(t: Trace, id: string) {
      |t| > 1 && IsProbing(Last(t)) && t[|t| - 2] == Awaited(id, IsReady)
    }

    /** The probe of a ready child and the journal write of its result. */
    method NoteProbe(ghost base: Record, record: Record, pair: Pair)
      returns (r: Option<Record>, outcome: TlsOutcome, ghost probe: ProbeOutcome)
      requires pair.forward.Forward? && Holding(base, record, pair.forward.id)
      requires ProbeReady(world.trace, pair.forward.id)
      modifies world
      ensures world.Onward(old(world.cursor), old(world.clock))
      ensures old(world.history) <= world.history && world.releases == old(world.releases)
      ensures Extends(old(world.trace), world.trace, [], [])
      ensures Looked(old(world.trace), world.trace, [SawProbe(pair.forward.id, probe)]) && outcome == Noted(probe)
      ensures world.faults == old(world.faults) + if r.Some? then 0 else 1
      ensures Holding(base, record, pair.forward.id)
      ensures r.Some? ==>
                && Holding(base, r.value, pair.forward.id)
                && ProbeNoted(record, r.value, TlsEvidence(pair.probeIndex, pair.forward.id, outcome))
      ensures old(Steady(record)) && CanNote(record, pair) && record.status.TlsDc8Probing? ==>
                r.Some? && Steady(r.value)
    {
      hide After, Commit, ForwardGuard, World.Valid, ValidRecord, OpensMutation, Disciplined, Opened, Find,
        AllStopped, ForwardsAfter, OneWrite, At, Has, Steady, Ready, Holds, Extends;
      ghost var t, clock := world.trace, world.clock;
      ghost var calm := Steady(record) && CanNote(record, pair) && record.status.TlsDc8Probing?;
      var probed := MakeProbe(record, pair.forward.id);
      probe := probed;
      outcome := if probed.Probed? then probed.outcome else ProbeAmbiguous;
      ghost var t1 := world.trace;
      ExtendsMeans(t, t1, [], []);
      var now := ReadClock(record);
      var e := TlsEvidence(pair.probeIndex, pair.forward.id, outcome);
      if calm {
        SteadyReady(record);
        HeldForward(base, record, pair.forward.id);
        TlsAccepted(record, e, now);
      }
      r := Persist(record, WithTls(e, now));
      AfterTls(record, e, now);
      ExtendsQuietly(t, t1, world.trace, [], []);
      ExtendsMeans(t, world.trace, [], []);
      assert Children(t1) + [] == Children(t1);
      HoldingMoves(base, record, record, pair.forward.id, t, clock);
      if r.Some? {
        HoldingMoves(base, record, r.value, pair.forward.id, t, clock);
      }
    }

    /** The probe itself. */
    method MakeProbe(ghost record: Record, id: string) returns (probe: ProbeOutcome)
      requires world.Valid() && Disciplined(world.trace) && ProbeReady(world.trace, id)
      modifies world
      ensures world.Onward(old(world.cursor), old(world.clock))
      ensures world.Valid() && world.history == old(world.history) && world.releases == old(world.releases)
      ensures world.clock == old(world.clock) && world.faults == old(world.faults)
      ensures Extends(old(world.trace), world.trace, [], [])
      ensures Children(world.trace) == Children(old(world.trace)) && Closes(world.trace) == Closes(old(world.trace))
      ensures world.trace != [] && Last(world.trace) == ProbeMade(id, probe)
      ensures Looked(old(world.trace), world.trace, [SawProbe(id, probe)])
      ensures old(Steady(record)) ==> Steady(record)
    {
      hide World.Valid, Accounted;
      ghost var t := world.trace;
      probe := world.Probe(id);
      AppendEvent(t, ProbeMade(id, probe));
      NothingRun(t, world.trace);
      SameAccount(record.evidence, t, world.trace);
    }

    lemma HeldForward(base: Record, record: Record, id: string)
      requires Holds(base, record, id)
      ensures Has(record.forwards, id) && At(record.forwards, id) == NewestForward(record)
      ensures NewestForward(record).state.Started?
    {
      FindAppend(base.forwards, NewestForward(record), id);
    }

    lemma AfterTls(record: Record, e: TlsEvidence, now: int)
      ensures ProbeNoted(record, After(record, WithTls(e, now)), e)
      ensures After(record, WithTls(e, now)).forwards == record.forwards
      ensures ChildOf(Wrote(record, WithTls(e, now), After(record, WithTls(e, now)), true)) == []
    {
    }

    /** The probe of one pair, and its verdict. */
    method ProbeChild(ghost base: Record, record: Record, pair: Pair, started: seq<Planned>, ghost child: SpawnOutcome)
      returns (r: PairStep, ghost outs: seq<CommandOutcome>, ghost s: Seen)
      requires pair.forward.Forward?
      requires Holding(base, record, pair.forward.id) && OpenedWith(base, record, pair.forward.id, child)
      requires ChildFits(argv(pair.forward), child)
      requires world.trace != [] && Last(world.trace) == Awaited(pair.forward.id, IsReady)
      requires CanUndo(world.trace, Rollbacks(record), started) && Rollbacks(record) == Rollbacks(base)
      requires AllHelm(started) && Covered(Rollbacks(base), started)
      modifies world
      ensures world.Onward(old(world.cursor), old(world.clock))
      ensures old(world.history) <= world.history && s.spawn == child && s.ready == Some(IsReady)
      ensures PairDone(old(world.trace), old(world.faults), old(world.releases), base, pair, started, r, outs, s,
                       AfterWait(pair.forward.id, s))
      ensures old(Steady(record)) && CanNote(base, pair) && NoneRecorded(earlier, UndoCommands(started)) ==>
                PairQuiet(old(world.faults), r)
    {
      hide After, Commit, ForwardGuard, World.Valid, ValidRecord, OpensMutation, Steady, NoneRecorded, Disciplined,
        Opened, HasSnapshot, Find, SameOutside, ReleasesOf, RestoredAll, UndoCommands, AllZero, DistinctTargets,
        UndoFresh, Covered, Has, AllStopped, Extends, Ended, CanUndo, Served, Rollbacks, MayDeclare, PairDone,
        CanNote, Transitions, Sights, Children, Closes, Overfull, EndsPair, ActiveApproval, Settles, Holds, ProbingOf;
      ghost var t, releases0, faults0 := world.trace, world.releases, world.faults;
      ghost var clock, id := world.clock, pair.forward.id;
      HoldingOpened(base, record, id);
      ProbingAllowed();
      var w := Transition(record, TlsDc8Probing);
      ghost var t1 := world.trace;
      CanUndoKept(t, t1, Rollbacks(record), started);
      SawNothing(t, t1);
      if w.None? {
        r, outs, s := Stop(StoreRaised), [], Seen(child, Some(IsReady), None, None);
        EndedQuietly(t, releases0, Rollbacks(base), started, StoreRaised);
        FaultSettles(faults0, VerdictOn(argv(pair.forward), s), started);
        StopDone(t, faults0, releases0, base, pair, started, r, outs, s, []);
        assert AfterWait(id, s) == [];
        return;
      }
      MovedFacts(base, record, w.value, pair, child);
      HoldingMoves(base, record, w.value, pair.forward.id, t, clock);
      NowProbing(t, record, w.value, id);
      r, outs, s := Judge(base, w.value, pair, started, child);
      DoneLater(t, t1, releases0, base, pair, started, r, outs, s, [], AfterWait(id, s), faults0);
      assert [] + AfterWait(id, s) == AfterWait(id, s);
    }

    lemma SawNothing(t: Trace, t1: Trace)
      requires Sights(t1) == Sights(t)
      ensures Looked(t, t1, [])
    {
    }

    lemma HoldingOpened(base: Record, record: Record, id: string)
      requires Holding(base, record, id)
      ensures Holds(base, record, id) && NewestForward(record).process.Some?
      ensures Children(world.trace) == Closes(world.trace) + [NewestForward(record)]
      ensures NewestForward(record).process.value.startedAt <= world.clock
    {
    }

    lemma FaultSettles(faults: nat, v: PairVerdict, started: seq<Planned>)
      requires world.faults > faults
      ensures Settles(faults, v, started, StoreRaised, [])
    {
    }

    lemma NowProbing(t: Trace, record: Record, u: Record, id: string)
      requires t != [] && Last(t) == Awaited(id, IsReady)
      requires world.trace == t + [Wrote(record, ToStatus(TlsDc8Probing, u.updatedAt), u, true)]
      ensures ProbeReady(world.trace, id)
    {
    }

    lemma ProbingAllowed()
      ensures TlsDc8Probing in Transitions(PortForwardStarted)
    {
    }

    /** `record` is `base` with one child started as `c`, while that child is probed. */
    predicate ProbingOf(base: Record, record: Record, c: SpawnOutcome) {
      && record == base.(status := TlsDc8Probing, forwards := record.forwards, updatedAt := record.updatedAt,
                         generation := record.generation)
      && record.forwards != [] && IsOf(NewestForward(record), c)
    }

    lemma MovedFacts(base: Record, record: Record, u: Record, pair: Pair, child: SpawnOutcome)
      requires pair.forward.Forward? && OpenedWith(base, record, pair.forward.id, child)
      requires Moved(record, u, TlsDc8Probing)
      ensures record.status.PortForwardStarted?
      ensures ProbingOf(base, u, child) && u.forwards == record.forwards && Rollbacks(u) == Rollbacks(base)
      ensures u.status.TlsDc8Probing? && (CanNote(base, pair) ==> CanNote(u, pair))
    {
    }

    /** Probe, note, close, decide. */
    method Judge(ghost base: Record, record: Record, pair: Pair, started: seq<Planned>, ghost child: SpawnOutcome)
      returns (r: PairStep, ghost outs: seq<CommandOutcome>, ghost s: Seen)
      requires pair.forward.Forward?
      requires Holding(base, record, pair.forward.id) && ProbingOf(base, record, child)
      requires ChildFits(argv(pair.forward), child) && record.status.TlsDc8Probing?
      requires ProbeReady(world.trace, pair.forward.id)
      requires CanUndo(world.trace, Rollbacks(record), started) && Rollbacks(record) == Rollbacks(base)
      requires AllHelm(started) && Covered(Rollbacks(base), started)
      modifies world
      ensures world.Onward(old(world.cursor), old(world.clock))
      ensures old(world.history) <= world.history && s.spawn == child && s.ready == Some(IsReady)
      ensures PairDone(old(world.trace), old(world.faults), old(world.releases), base, pair, started, r, outs, s,
                       AfterWait(pair.forward.id, s))
      ensures old(Steady(record)) && CanNote(record, pair) && NoneRecorded(earlier, UndoCommands(started)) ==>
                PairQuiet(old(world.faults), r)
    {
      hide After, Commit, ForwardGuard, World.Valid, ValidRecord, OpensMutation, Steady, NoneRecorded, Disciplined,
        Opened, HasSnapshot, Find, SameOutside, ReleasesOf, RestoredAll, UndoCommands, AllZero, DistinctTargets,
        UndoFresh, Covered, Has, AllStopped, Extends, Ended, CanUndo, Served, Rollbacks, MayDeclare, PairDone,
        CanNote, Transitions, ProbeNoted, Shut, Sights, Children, Closes, Looked, Overfull, EndsPair, Settles,
        ProbeReady, ProbingOf, Holding;
      ghost var t, releases0, faults0 := world.trace, world.releases, world.faults;
      ghost var id, probe := pair.forward.id, ProbeRaised;
      var v, outcome;
      v, outcome, probe := NoteProbe(base, record, pair);
      ghost var t1, faults1 := world.trace, world.faults;
      CanUndoKept(t, t1, Rollbacks(record), started);
      if v.Some? {
        NotedFacts(record, v.value, TlsEvidence(pair.probeIndex, pair.forward.id, outcome));
      }
      ghost var close;
      if v.Some? && Accepted(outcome) {
        r, outs, close := CloseServed(base, record, v.value, pair, started, child, probe);
        s := Seen(child, Some(IsReady), Some(probe), Some(close));
      } else {
        var o;
        o, outs, close := CloseOut(base, if v.Some? then v.value else record, pair.forward.id, started,
                                   v.None? || outcome.ProbeAmbiguous?);
        r, s := Stop(o), Seen(child, Some(IsReady), Some(probe), Some(close));
        NotAcceptedSettles(faults0, faults1, pair, s, started, o, outs, v.None?);
        StopDone(t1, faults0, releases0, base, pair, started, r, outs, s, [SawClose(id, close)]);
      }
      DoneLater(t, t1, releases0, base, pair, started, r, outs, s, [SawProbe(id, probe)], [SawClose(id, close)],
                faults0);
      assert AfterWait(id, s) == [SawProbe(id, probe)] + [SawClose(id, close)];
    }

    /** A child whose probe was not accepted, or could not be noted. */
    lemma NotAcceptedSettles(faults0: nat, faults1: nat, pair: Pair, s: Seen, started: seq<Planned>, r: Outcome,
                             outs: seq<CommandOutcome>, unnoted: bool)
      requires pair.forward.Forward? && ChildFits(argv(pair.forward), s.spawn)
      requires s.ready == Some(IsReady) && s.probe.Some? && s.close.Some?
      requires unnoted || !Accepted(Noted(s.probe.value))
      requires faults1 == faults0 + if unnoted then 1 else 0
      requires faults1 <= world.faults
      requires Settles(faults1, if unnoted || Noted(s.probe.value).ProbeAmbiguous? || !s.close.value.IsClosed?
                                then Doubtful else Failing, started, r, outs)
      ensures Settles(faults0, VerdictOn(argv(pair.forward), s), started, r, outs)
    {
    }

    lemma NotedFacts(record: Record, u: Record, e: TlsEvidence)
      requires ProbeNoted(record, u, e)
      ensures u.status == record.status && u.forwards == record.forwards && Rollbacks(u) == Rollbacks(record)
    {
    }

    /** Closes a child whose probe was accepted. */
    method CloseServed(ghost base: Record, ghost probing: Record, record: Record, pair: Pair, started: seq<Planned>,
                       ghost child: SpawnOutcome, ghost probe: ProbeOutcome)
      returns (r: PairStep, ghost outs: seq<CommandOutcome>, ghost close: CloseOutcome)
      requires pair.forward.Forward? && Accepted(Noted(probe)) && ChildFits(argv(pair.forward), child)
      requires Holding(base, record, pair.forward.id) && ProbingOf(base, probing, child)
      requires ProbeNoted(probing, record, TlsEvidence(pair.probeIndex, pair.forward.id, Noted(probe)))
      requires record.status.TlsDc8Probing?
      requires CanUndo(world.trace, Rollbacks(record), started) && Rollbacks(record) == Rollbacks(base)
      requires AllHelm(started) && Covered(Rollbacks(base), started)
      modifies world
      ensures world.Onward(old(world.cursor), old(world.clock))
      ensures old(world.history) <= world.history
      ensures PairDone(old(world.trace), old(world.faults), old(world.releases), base, pair, started, r, outs,
                       Seen(child, Some(IsReady), Some(probe), Some(close)), [SawClose(pair.forward.id, close)])
      ensures old(Steady(record)) ==> PairQuiet(old(world.faults), r)
    {
      hide After, Commit, ForwardGuard, World.Valid, ValidRecord, OpensMutation, Steady, NoneRecorded, Disciplined,
        Opened, HasSnapshot, Find, SameOutside, ReleasesOf, RestoredAll, UndoCommands, AllZero, DistinctTargets,
        UndoFresh, Covered, Has, AllStopped, Extends, Ended, CanUndo, Served, Rollbacks, MayDeclare, CanNote,
        Transitions, ProbeNoted, Shut, ProbingOf, Sights, Children, Closes, Looked, Overfull, EndsPair, Settles,
        PairDone, ClosureWritten, Holds;
      ghost var t, releases0, faults0 := world.trace, world.releases, world.faults;
      HeldForward(base, record, pair.forward.id);
      HeldIs(base, record, pair.forward.id);
      var c;
      c, close := CleanupPortForward(record, base.forwards, NewestForward(record), pair.forward.id);
      ghost var t1, faults1 := world.trace, world.faults;
      ghost var s := Seen(child, Some(IsReady), Some(probe), Some(close));
      if c.None? {
        var o;
        CanUndoKept(t, t1, Rollbacks(record), started);
        o, outs := Conclude(record, started, true);
        EndedLater(t, t1, releases0, Rollbacks(record), started, o, outs);
        r := Stop(o);
        UnclosedSettles(faults0, faults1, pair, s, started, o, outs);
        SawNothing(t1, world.trace);
        LookedBoth(t, t1, world.trace, [SawClose(pair.forward.id, close)], []);
        StopDone(t, faults0, releases0, base, pair, started, r, outs, s, [SawClose(pair.forward.id, close)] + []);
        assert [SawClose(pair.forward.id, close)] + [] == [SawClose(pair.forward.id, close)];
      } else {
        ServedNow(base, probing, record, c.value, pair, s);
        r, outs := Continue(c.value), [];
        ContinueDone(t, faults0, releases0, base, pair, started, c.value, outs, s, [SawClose(pair.forward.id, close)]);
      }
    }

    lemma HeldIs(base: Record, record: Record, id: string)
      requires Holding(base, record, id)
      ensures record.forwards == base.forwards + [NewestForward(record)] && NewestForward(record).id == id
      ensures NewestForward(record).process.Some? && !Has(base.forwards, id)
      ensures Children(world.trace) == Closes(world.trace) + [NewestForward(record)]
    {
    }

    lemma ContinueDone(t: Trace, faults: nat, releases0: map<Release, Content>, base: Record, pair: Pair,
                       started: seq<Planned>, record: Record, outs: seq<CommandOutcome>, s: Seen, sights: seq<Sight>)
      requires pair.forward.Forward? && AllHelm(started) && Covered(Rollbacks(base), started)
      requires Looked(t, world.trace, sights) && world.faults == faults && world.Valid() && world.Known(record)
      requires Served(base, record, pair, s) && VerdictOn(argv(pair.forward), s).IsServed?
      requires Extends(t, world.trace, [], []) && Children(world.trace) == Closes(world.trace)
      requires world.releases == releases0
      ensures PairDone(t, faults, releases0, base, pair, started, Continue(record), outs, s, sights)
    {
      hide Covered, Rollbacks, Looked, VerdictOn, Served, Extends, World.Valid, World.Known, Children, Closes;
    }

    /** A child that could not be closed, or whose closure could not be noted. */
    lemma UnclosedSettles(faults0: nat, faults1: nat, pair: Pair, s: Seen, started: seq<Planned>, r: Outcome,
                          outs: seq<CommandOutcome>)
      requires pair.forward.Forward? && s.close.Some? && faults0 <= faults1 <= world.faults
      requires faults1 == faults0 ==> !s.close.value.IsClosed?
      requires Settles(faults1, Doubtful, started, r, outs)
      ensures Settles(faults0, VerdictOn(argv(pair.forward), s), started, r, outs)
    {
    }

    lemma ServedNow(base: Record, probing: Record, record: Record, u: Record, pair: Pair, s: Seen)
      requires pair.forward.Forward? && s.probe.Some? && Accepted(Noted(s.probe.value))
      requires ChildFits(argv(pair.forward), s.spawn) && s.ready == Some(IsReady) && s.close == Some(IsClosed)
      requires Holds(base, record, pair.forward.id) && ProbingOf(base, probing, s.spawn)
      requires ProbeNoted(probing, record, TlsEvidence(pair.probeIndex, pair.forward.id, Noted(s.probe.value)))
      requires Shut(record, u, base.forwards, NewestForward(record))
      ensures Served(base, u, pair, s) && VerdictOn(argv(pair.forward), s).IsServed?
    {
    }

    /** How the forward phase stops short: as the last pair demands, or because a journal access failed. */
    ghost predicate Stops(faults: nat, pairs: seq<Pair>, seen: seq<Seen>, started: seq<Planned>, r: Outcome,
                          outs: seq<CommandOutcome>)
      requires |seen| <= |pairs|
      reads world`faults
    {
      || (seen != [] &&
          Settles(faults, VerdictOn(argv(pairs[|seen| - 1].forward), seen[|seen| - 1]), started, r, outs))
      || (world.faults > faults && !r.Returned? && outs == [])
    }

    /** What the whole forward phase promises. */
    ghost predicate PairsDone(t: Trace, faults: nat, releases0: map<Release, Content>, base: Record, pairs: seq<Pair>,
                              started: seq<Planned>, r: Outcome, outs: seq<CommandOutcome>, seen: seq<Seen>)
      requires ForwardPairs(pairs) && AllHelm(started) && Covered(Rollbacks(base), started)
      reads world
    {
      && |seen| <= |pairs| && Looked(t, world.trace, AllSights(pairs, seen)) && world.faults >= faults
      && (seen != [] ==> AllServed(argv, pairs, seen, |seen| - 1))
      && if r.Returned? && r.status.Succeeded? then
           && world.Valid() && world.Known(r.record) && Newest(r.record) && r.record.status.Succeeded?
           && |seen| == |pairs| && AllServed(argv, pairs, seen, |pairs|) && outs == []
           && ServedUpTo(base, r.record, pairs, |pairs|, seen)
           && Extends(t, world.trace, [], []) && Children(world.trace) == Closes(world.trace)
           && world.releases == releases0
         else
           && Ended(t, releases0, Rollbacks(base), started, r, outs)
           && Stops(faults, pairs, seen, started, r, outs)
    }

    /** Where the forward phase stands after `n` pairs. */
    ghost predicate Serving(t: Trace, faults: nat, releases0: map<Release, Content>, base: Record, record: Record,
                            pairs: seq<Pair>, n: nat, started: seq<Planned>, seen: seq<Seen>)
      requires ForwardPairs(pairs) && n <= |pairs|
      reads world
    {
      && world.Valid() && world.Known(record) && world.faults == faults
      && |seen| == n && AllServed(argv, pairs, seen, n) && Looked(t, world.trace, AllSights(pairs, seen))
      && ServedUpTo(base, record, pairs, n, seen) && Rollbacks(record) == Rollbacks(base)
      && (n > 0 ==> record.status.TlsDc8Probing?) && (n == 0 ==> record == base)
      && AllStopped(record.forwards)
      && Extends(t, world.trace, [], []) && Children(world.trace) == Closes(world.trace)
      && CanUndo(world.trace, Rollbacks(record), started)
      && world.releases == releases0
    }

    /** `_run_port_forward_pairs`. */
    method RunPortForwardPairs(base: Record, pairs: seq<Pair>, started: seq<Planned>)
      returns (r: Outcome, ghost outs: seq<CommandOutcome>, ghost seen: seq<Seen>)
      requires world.Valid() && world.Known(base) && Disciplined(world.trace)
      requires ForwardPairs(pairs) && AllStopped(base.forwards)
      requires Children(world.trace) == Closes(world.trace)
      requires CanUndo(world.trace, Rollbacks(base), started)
      modifies world
      ensures world.Onward(old(world.cursor), old(world.clock))
      ensures old(world.history) <= world.history
      ensures PairsDone(old(world.trace), old(world.faults), old(world.releases), base, pairs, started, r, outs, seen)
      ensures old(Steady(base)) && PairsFit(pairs) && pairs != [] && base.forwards == [] && base.tls == [] &&
              PortForwardIntent in Transitions(base.status) && NoneRecorded(earlier, UndoCommands(started)) ==>
                r.Returned? && Unhurt(old(world.faults))
    {
      hide After, Commit, ForwardGuard, World.Valid, ValidRecord, OpensMutation, Steady, NoneRecorded, Disciplined,
        Opened, HasSnapshot, Find, SameOutside, ReleasesOf, RestoredAll, UndoCommands, AllZero, DistinctTargets,
        UndoFresh, Covered, Has, AllStopped, Extends, Ended, CanUndo, Served, Rollbacks, MayServe, PairDone,
        ServedUpTo, Serving, World.Known, Commands, Children, Closes, PairsDone, Looked, Overfull, PairsFit,
        AllSights, SightsOf, Transitions;
      ghost var t, faults0, releases0 := world.trace, world.faults, world.releases;
      ghost var calm := Steady(base) && PairsFit(pairs) && pairs != [] && base.forwards == [] && base.tls == [] &&
      PortForwardIntent in Transitions(base.status) && NoneRecorded(earlier, UndoCommands(started));
      ServingStarts(base, pairs, started);
      ghost var h0 := world.history;
      var record := base;
      seen := [];
      var i := 0;
      while i < |pairs|
        invariant 0 <= i <= |pairs|
        invariant h0 <= world.history && world.Onward(old(world.cursor), old(world.clock))
        invariant Serving(t, faults0, releases0, base, record, pairs, i, started, seen)
        invariant calm ==> Steady(record)
      {
        ghost var t1 := world.trace;
        ServingMeans(t, faults0, releases0, base, record, pairs, i, started, seen, calm);
        var step;
        ghost var s;
        step, outs, s := ServePair(record, pairs[i], started);
        match step {
          case Continue(next) =>
            ServingNext(t, t1, faults0, releases0, base, record, next, pairs, i, started, outs, seen, s.value);
            seen := seen + [s.value];
            record := next;
          case Stop(outcome) =>
            if s.Some? {
              PairsStop(t, t1, faults0, releases0, base, record, pairs, i, started, outcome, outs, seen, s.value);
              seen := seen + [s.value];
            } else {
              PairsUndeclared(t, t1, faults0, releases0, base, record, pairs, i, started, seen);
            }
            return outcome, outs, seen;
        }
        i := i + 1;
      }
      r, outs := FinishPairs(t, faults0, releases0, base, record, pairs, started, seen);
    }

    lemma ServingStarts(base: Record, pairs: seq<Pair>, started: seq<Planned>)
      requires ForwardPairs(pairs)
      requires world.Valid() && world.Known(base) && Disciplined(world.trace) && AllStopped(base.forwards)
      requires Children(world.trace) == Closes(world.trace)
      requires CanUndo(world.trace, Rollbacks(base), started)
      ensures Serving(world.trace, world.faults, world.releases, base, base, pairs, 0, started, [])
      ensures AllHelm(started) && Covered(Rollbacks(base), started)
    {
      hide UndoFresh, World.Valid, World.Known;
      ExtendsSelf(world.trace);
    }

    lemma ServingMeans(t: Trace, faults: nat, releases0: map<Release, Content>, base: Record, record: Record,
                       pairs: seq<Pair>, n: nat, started: seq<Planned>, seen: seq<Seen>, calm: bool)
      requires ForwardPairs(pairs) && n < |pairs|
      requires Serving(t, faults, releases0, base, record, pairs, n, started, seen)
      requires calm ==> Steady(record) && PairsFit(pairs) && base.forwards == [] && base.tls == [] &&
                        PortForwardIntent in Transitions(base.status) && NoneRecorded(earlier, UndoCommands(started))
      ensures world.Valid() && world.Known(record) && Disciplined(world.trace) && AllStopped(record.forwards)
      ensures Children(world.trace) == Closes(world.trace) && CanUndo(world.trace, Rollbacks(record), started)
      ensures AllHelm(started) && Covered(Rollbacks(record), started) && Rollbacks(record) == Rollbacks(base)
      ensures pairs[n] in pairs && world.releases == releases0 && world.faults == faults
      ensures ServedUpTo(base, record, pairs, n, seen) && Extends(t, world.trace, [], [])
      ensures AllServed(argv, pairs, seen, n) && Looked(t, world.trace, AllSights(pairs, seen)) && |seen| == n
      ensures calm ==> MayServe(record, pairs[n], started)
    {
      hide World.Valid, World.Known, Covered, UndoFresh, Steady, NoneRecorded, Disciplined, Opened, HasSnapshot,
        DistinctTargets, ServedUpTo, AllSights, Looked, VerdictOn, AllServed;
      assert PortForwardIntent in Transitions(TlsDc8Probing);
      if calm {
        NextPairFits(base, record, pairs, n, seen);
      }
    }

    lemma SeenNext(pairs: seq<Pair>, seen: seq<Seen>, s: Seen)
      requires ForwardPairs(pairs) && |seen| < |pairs| && pairs[|seen|] in pairs
      ensures AllSights(pairs, seen + [s]) == AllSights(pairs, seen) + SightsOf(pairs[|seen|].forward.id, s)
      ensures AllServed(argv, pairs, seen, |seen|) ==>
                && AllServed(argv, pairs, seen + [s], |seen|)
                && (VerdictOn(argv(pairs[|seen|].forward), s).IsServed? ==>
                      AllServed(argv, pairs, seen + [s], |seen| + 1))
    {
      hide VerdictOn, SightsOf;
      assert (seen + [s])[..|seen|] == seen;
    }

    lemma ServingNext(t: Trace, t1: Trace, faults: nat, releases0: map<Release, Content>, base: Record, record: Record,
                      next: Record, pairs: seq<Pair>, n: nat, started: seq<Planned>, outs: seq<CommandOutcome>,
                      seen: seq<Seen>, s: Seen)
      requires ForwardPairs(pairs) && n < |pairs| && AllHelm(started) && Covered(Rollbacks(record), started)
      requires |seen| == n && AllServed(argv, pairs, seen, n) && Looked(t, t1, AllSights(pairs, seen))
      requires ServedUpTo(base, record, pairs, n, seen) && Extends(t, t1, [], []) && AllStopped(record.forwards)
      requires Rollbacks(record) == Rollbacks(base) && CanUndo(t1, Rollbacks(base), started)
      requires pairs[n].forward.Forward?
      requires PairDone(t1, faults, releases0, record, pairs[n], started, Continue(next), outs, s,
                        SightsOf(pairs[n].forward.id, s))
      ensures Serving(t, faults, releases0, base, next, pairs, n + 1, started, seen + [s])
    {
      hide World.Valid, World.Known, Covered, CanUndo, Extends, Served, ServedUpTo, AllStopped, Rollbacks, Looked,
        AllSights, SightsOf, AllServed, VerdictOn;
      assert pairs[n] in pairs;
      ServedNext(base, record, next, pairs, n, seen, s);
      SeenNext(pairs, seen, s);
      LookedBoth(t, t1, world.trace, AllSights(pairs, seen), SightsOf(pairs[n].forward.id, s));
      ExtendsQuietly(t, t1, world.trace, [], []);
      CanUndoKept(t1, world.trace, Rollbacks(base), started);
    }

    lemma PairsStop(t: Trace, t1: Trace, faults: nat, releases0: map<Release, Content>, base: Record, record: Record,
                    pairs: seq<Pair>, n: nat, started: seq<Planned>, r: Outcome, outs: seq<CommandOutcome>,
                    seen: seq<Seen>, s: Seen)
      requires ForwardPairs(pairs) && n < |pairs| && AllHelm(started) && Covered(Rollbacks(record), started)
      requires |seen| == n && AllServed(argv, pairs, seen, n) && Looked(t, t1, AllSights(pairs, seen))
      requires Extends(t, t1, [], []) && Rollbacks(record) == Rollbacks(base)
      requires pairs[n].forward.Forward?
      requires PairDone(t1, faults, releases0, record, pairs[n], started, Stop(r), outs, s,
                        SightsOf(pairs[n].forward.id, s))
      ensures PairsDone(t, faults, releases0, base, pairs, started, r, outs, seen + [s])
    {
      hide Extends, Covered, Rollbacks, Looked, AllSights, SightsOf, AllServed, VerdictOn, Ended, Settles;
      assert pairs[n] in pairs;
      EndedLater(t, t1, releases0, Rollbacks(base), started, r, outs);
      SeenNext(pairs, seen, s);
      LookedBoth(t, t1, world.trace, AllSights(pairs, seen), SightsOf(pairs[n].forward.id, s));
      EndedShort(t, releases0, Rollbacks(base), started, r, outs);
    }

    lemma EndedShort(t: Trace, releases0: map<Release, Content>, rollbacks: seq<ReleaseSnapshot>, started: seq<Planned>,
                     r: Outcome, outs: seq<CommandOutcome>)
      requires AllHelm(started) && Covered(rollbacks, started) && Ended(t, releases0, rollbacks, started, r, outs)
      ensures !(r.Returned? && r.status.Succeeded?)
    {
      hide Extends, Covered, World.Valid, SameOutside, ReleasesOf, UndoCommands;
    }

    lemma PairsUndeclared(t: Trace, t1: Trace, faults: nat, releases0: map<Release, Content>, base: Record,
                          record: Record, pairs: seq<Pair>, n: nat, started: seq<Planned>, seen: seq<Seen>)
      requires ForwardPairs(pairs) && n < |pairs| && AllHelm(started) && Covered(Rollbacks(record), started)
      requires |seen| == n && AllServed(argv, pairs, seen, n) && Looked(t, t1, AllSights(pairs, seen))
      requires Extends(t, t1, [], []) && Rollbacks(record) == Rollbacks(base)
      requires world.faults > faults && Looked(t1, world.trace, [])
      requires Ended(t1, releases0, Rollbacks(record), started, RunnerRaised, [])
      ensures PairsDone(t, faults, releases0, base, pairs, started, RunnerRaised, [], seen)
    {
      hide Extends, Covered, Rollbacks, Looked, AllSights, VerdictOn, Ended;
      EndedLater(t, t1, releases0, Rollbacks(base), started, RunnerRaised, []);
      LookedBoth(t, t1, world.trace, AllSights(pairs, seen), []);
      assert AllSights(pairs, seen) + [] == AllSights(pairs, seen);
    }

    /** The transition to SUCCEEDED behind the last pair. */
    method FinishPairs(ghost t: Trace, ghost faults: nat, ghost releases0: map<Release, Content>, ghost base: Record,
                       record: Record, pairs: seq<Pair>, ghost started: seq<Planned>, ghost seen: seq<Seen>)
      returns (r: Outcome, ghost outs: seq<CommandOutcome>)
      requires ForwardPairs(pairs)
      requires Serving(t, faults, releases0, base, record, pairs, |pairs|, started, seen)
      requires AllHelm(started) && Covered(Rollbacks(base), started)
      modifies world
      ensures world.Onward(old(world.cursor), old(world.clock))
      ensures old(world.history) <= world.history
      ensures PairsDone(t, faults, releases0, base, pairs, started, r, outs, seen)
      ensures old(Steady(record)) && pairs != [] ==> r.Returned? && world.faults == faults
    {
      hide World.Valid, World.Known, Covered, CanUndo, Extends, ServedUpTo, AllStopped, Rollbacks, Steady,
        NoneRecorded, Disciplined, ValidRecord, OpensMutation, Looked, AllSights, VerdictOn, ActiveApproval, Sights,
        Children, Closes;
      ghost var t1 := world.trace;
      assert Succeeded in Transitions(TlsDc8Probing);
      ExtendsMeans(t, t1, [], []);
      var w := Transition(record, Succeeded);
      outs := [];
      ExtendsQuietly(t, t1, world.trace, [], []);
      SawNothing(t1, world.trace);
      LookedBoth(t, t1, world.trace, AllSights(pairs, seen), []);
      assert AllSights(pairs, seen) + [] == AllSights(pairs, seen);
      if w.None? {
        EndedQuietly(t, releases0, Rollbacks(base), started, StoreRaised);
        return StoreRaised, outs;
      }
      ServedMoved(base, record, w.value, pairs, seen);
      r := Returned(w.value, w.value.status);
    }

    lemma ServedMoved(base: Record, record: Record, u: Record, pairs: seq<Pair>, seen: seq<Seen>)
      requires ForwardPairs(pairs) && |seen| == |pairs|
      requires ServedUpTo(base, record, pairs, |pairs|, seen) && Moved(record, u, Succeeded)
      ensures ServedUpTo(base, u, pairs, |pairs|, seen) && u.status.Succeeded?
    {
    }

    // -------------------------------------------------------------------------------------------
    // The launch

    /** The trace since the runner was built: these commands with these outcomes. */
    ghost predicate Made(t: Trace, commands: seq<Command>, outcomes: seq<CommandOutcome>) {
      origin <= t && Commands(t) == commands && Outcomes(t) == outcomes && Disciplined(t)
    }

    predicate Childless(t: Trace) { Children(t) == [] && Closes(t) == [] && Sights(t) == [] }

    lemma MadeMeans(t: Trace, commands: seq<Command>, outcomes: seq<CommandOutcome>)
      requires Made(t, commands, outcomes)
      ensures Commands(t) == commands && Outcomes(t) == outcomes && Disciplined(t)
    {
    }

    lemma MadeMore(t: Trace, t1: Trace, c0: seq<Command>, o0: seq<CommandOutcome>, c1: seq<Command>,
                   o1: seq<CommandOutcome>)
      requires Made(t, c0, o0) && Extends(t, t1, c1, o1)
      ensures Made(t1, c0 + c1, o0 + o1)
    {
      hide Disciplined, Opened, Commands, Outcomes;
    }

    /** Nothing was issued and nothing was spawned yet. */
    ghost predicate Unstarted(t: Trace) { Made(t, [], []) && Childless(t) }

    /** What an execution did so far: these commands were issued and reported these outcomes, only the
        releases of `started` were touched, and no child was opened. */
    ghost predicate Issued(releases0: map<Release, Content>, commands: seq<Command>, outcomes: seq<CommandOutcome>,
                           started: seq<Planned>)
      requires AllHelm(started)
      reads world
    {
      && world.Valid() && faultsBefore <= world.faults
      && Made(world.trace, commands, outcomes) && Childless(world.trace)
      && SameOutside(releases0, world.releases, ReleasesOf(started))
    }

    /** `record` is `base` with the evidence of these commands, all successful. */
    predicate Along(base: Record, record: Record, commands: seq<Command>) {
      && base.forwards == [] && base.tls == []
      && record == base.(status := record.status, evidence := base.evidence + Passed(commands),
                         updatedAt := record.updatedAt, generation := record.generation)
    }

    /** An execution whose commands all reported success so far. */
    ghost predicate Stage(releases0: map<Release, Content>, base: Record, record: Record, commands: seq<Command>,
                          started: seq<Planned>)
      requires AllHelm(started)
      reads world
    {
      && Issued(releases0, commands, Zeros(commands), started)
      && world.Known(record) && Newest(record) && Along(base, record, commands)
    }

    /** Issues the next planned command. */
    method Issue(ghost releases0: map<Release, Content>, ghost base: Record, record: Record,
                 ghost commands: seq<Command>, ghost started: seq<Planned>, command: Command, effect: Effect)
      returns (run: CommandRun, ghost out: CommandOutcome)
      requires AllHelm(started) && Stage(releases0, base, record, commands, started)
      requires Unused(commands, command.id) && (command.kind.ServerDryRun? || Opened(world.trace))
      requires effect.NoEffect? || (effect.Upgrade? && effect.release in ReleasesOf(started))
      modifies world
      ensures world.Onward(old(world.cursor), old(world.clock))
      ensures old(world.history) <= world.history
      ensures Issued(releases0, commands + [command], Zeros(commands) + [out], started)
      ensures old(Opened(world.trace)) ==> Opened(world.trace)
      ensures out == Heard(world.script(old(world.cursor)))
      ensures world.faults == old(world.faults) + if run.NotStored? then 1 else 0
      ensures run.NotCompleted? <==> out.NoResult?
      ensures world.Known(record) && (run.NotCompleted? ==> Newest(record) && world.history == old(world.history))
      ensures run.Done? ==>
                && out == Completed(run.returncode) && world.Known(run.record) && Newest(run.record)
                && world.cursor == old(world.cursor) + 3 && |world.history| > |old(world.history)|
                && Journaled(record, run.record, EvidenceOf(command, run.returncode))
      ensures !run.NotStored? ==>
                Evidenced(base.evidence, (if run.Done? then run.record else record).evidence, commands + [command],
                          Zeros(commands) + [out])
      ensures run.Done? && run.returncode == 0 ==>
                Stage(releases0, base, run.record, commands + [command], started)
      ensures old(Steady(record)) && NoneRecorded(earlier, [command]) && !(record.status in {Succeeded, RolledBack}) ==>
                && Steady(if run.Done? then run.record else record)
                && (run.NotStored? ==> Overfull(world.trace))
    {
      hide After, Commit, ForwardGuard, ValidRecord, Disciplined, Steady, NoneRecorded, Opened, World.Valid,
        EvidenceOf, Unused, Along, SameOutside, ReleasesOf, Extends, Made, Zeros, Passed, Journaled, Touches,
        Commands, Overfull, Evidenced;
      ghost var t, before := world.trace, world.releases;
      MadeMeans(t, commands, Zeros(commands));
      run, out := RunFixedCommand(record, command, effect);
      MadeMore(t, world.trace, commands, Zeros(commands), [command], [out]);
      ExtendsMeans(t, world.trace, [command], [out]);
      TouchedInside(releases0, before, world.releases, started, effect);
      ZerosAppend(commands, command);
      IssuedEvidence(base, record, if run.Done? then run.record else record, commands, command, out);
      if run.Done? && run.returncode == 0 {
        AlongNext(base, record, run.record, commands, command);
      }
    }

    lemma IssuedEvidence(base: Record, record: Record, u: Record, commands: seq<Command>, command: Command,
                         out: CommandOutcome)
      requires Along(base, record, commands)
      ensures (if out.Completed? then Journaled(record, u, EvidenceOf(command, out.returncode)) else u == record) ==>
                Evidenced(base.evidence, u.evidence, commands + [command], Zeros(commands) + [out])
    {
      hide EvidenceOf, Passed, Zeros, Recorded;
      ZerosEvidenced(base.evidence, commands);
      EvidencedNext(base.evidence, record.evidence, commands, Zeros(commands), command, out);
    }

    lemma TouchedInside(start: map<Release, Content>, before: map<Release, Content>, after: map<Release, Content>,
                        started: seq<Planned>, effect: Effect)
      requires AllHelm(started) && SameOutside(start, before, ReleasesOf(started))
      requires effect.NoEffect? || (effect.Upgrade? && effect.release in ReleasesOf(started))
      requires effect.NoEffect? ==> after == before
      requires effect.Upgrade? ==> Touches(before, after, effect.release)
      ensures SameOutside(start, after, ReleasesOf(started))
    {
    }

    lemma AlongNext(base: Record, record: Record, u: Record, commands: seq<Command>, command: Command)
      requires Along(base, record, commands) && Journaled(record, u, EvidenceOf(command, 0))
      requires Passed(commands + [command]) == Passed(commands) + [EvidenceOf(command, 0)]
      ensures Along(base, u, commands + [command])
    {
      hide EvidenceOf, Passed;
      assert base.evidence + (Passed(commands) + [EvidenceOf(command, 0)]) ==
             (base.evidence + Passed(commands)) + [EvidenceOf(command, 0)];
    }

    /** A status change between two phases. */
    method Move(ghost releases0: map<Release, Content>, ghost base: Record, record: Record,
                ghost commands: seq<Command>, ghost outcomes: seq<CommandOutcome>, ghost started: seq<Planned>,
                target: Status)
      returns (w: Option<Record>)
      requires AllHelm(started) && Issued(releases0, commands, outcomes, started) && world.Known(record)
      modifies world
      ensures world.Onward(old(world.cursor), old(world.clock))
      ensures old(world.history) <= world.history && Issued(releases0, commands, outcomes, started)
      ensures old(Opened(world.trace)) ==> Opened(world.trace)
      ensures world.faults == old(world.faults) + if w.Some? then 0 else 1
      ensures w.Some? ==>
                && w.value.status == target && world.Known(w.value) && Newest(w.value)
                && w.value.evidence == record.evidence && |world.history| > |old(world.history)|
                && (Along(base, record, commands) ==> Along(base, w.value, commands))
                && (target.MutationStarted? && !record.status.MutationStarted? ==> Opened(world.trace))
      ensures old(Steady(record)) && target in Transitions(record.status) && record.forwards == [] &&
              (IsExecution(target) || target in {Failed, ReconciliationRequired}) ==>
                w.Some? && Steady(w.value)
    {
      hide After, Commit, ForwardGuard, ValidRecord, Disciplined, Steady, NoneRecorded, Opened, World.Valid,
        SameOutside, ReleasesOf, Extends, Made, Passed, Transitions, IsExecution, ActiveApproval, Moved, Along,
        Commands, Outcomes, Children, Closes, Sights, OpensMutation, World.Known, Newest;
      ghost var t := world.trace;
      MadeMeans(t, commands, outcomes);
      w := Transition(record, target);
      MadeMore(t, world.trace, commands, outcomes, [], []);
      ExtendsMeans(t, world.trace, [], []);
      assert commands + [] == commands && outcomes + [] == outcomes;
      if w.Some? {
        AlongMoved(base, record, w.value, commands, target);
      }
    }

    lemma AlongMoved(base: Record, record: Record, u: Record, commands: seq<Command>, target: Status)
      requires Moved(record, u, target)
      ensures u.status == target && u.evidence == record.evidence
      ensures Along(base, record, commands) ==> Along(base, u, commands)
      ensures target.MutationStarted? && !record.status.MutationStarted? ==> OpensMutation(record, u)
    {
      hide Passed;
    }

    /** A journal access failed, and what is returned is at most a reconciliation in the forward phase. */
    ghost predicate Troubled(r: Outcome, a: Account)
      reads world`faults
    {
      world.faults > faultsBefore && (r.Returned? ==> r.status.ReconciliationRequired? && a.seen != [])
    }

    /** What the end of an execution promises: exactly the commands of the account were issued and exactly
        its observations were made, only the releases of the started upgrades were touched, a returned
        result is true, and the end is the one that the answers demand, unless a journal access failed. */
    ghost predicate Finished(releases0: map<Release, Content>, base: Record, plan: Plan, r: Outcome, a: Account)
      requires PlanOk(Rollbacks(base), plan)
      reads world
    {
      && Tidy(argv, plan, a)
      && world.Valid() && faultsBefore <= world.faults
      && Made(world.trace, IssuedCommands(plan, a), a.results + a.outs)
      && Sights(world.trace) == AllSights(plan.pairs, a.seen)
      && SameOutside(releases0, world.releases, ReleasesOf(plan.helm[..a.m]))
      && (r.Returned? ==> Children(world.trace) == Closes(world.trace) && Verdict(base, plan, r, a))
      && (Exact(argv, base, plan, r, a) || Troubled(r, a))
    }

    ghost predicate Verdict(base: Record, plan: Plan, r: Outcome, a: Account)
      requires PlanOk(Rollbacks(base), plan) && WithinPlan(plan, a) && r.Returned?
      reads world
    {
      && world.Known(r.record) && Newest(r.record) && r.status == r.record.status
      && (a.seen == [] ==>
            Evidenced(base.evidence, r.record.evidence, IssuedCommands(plan, a), a.results + a.outs))
      && match r.status
         case Succeeded =>
           && Complete(plan, a) && |a.seen| == |plan.pairs| && AllServed(argv, plan.pairs, a.seen, |a.seen|)
           && ServedUpTo(Credited(base, plan), r.record, plan.pairs, |plan.pairs|, a.seen)
         case RolledBack =>
           && a.m > 0 && |a.outs| == a.m && AllZero(a.outs)
           && Covered(Rollbacks(base), plan.helm[..a.m])
           && RestoredAll(world.releases, Rollbacks(base), plan.helm[..a.m], 0)
         case Failed => a.m == 0
         case ReconciliationRequired => true
         case _ => plan.helm == [] && plan.pairs == [] && Complete(plan, a) && Along(base, r.record, Whole(plan))
    }

    /** The record a complete execution of the plan is credited with. */
    function Credited(base: Record, plan: Plan): Record
      requires AllHelm(plan.helm)
    {
      base.(evidence := base.evidence + Passed(Whole(plan)))
    }

    /** How an execution ends in a quiet journal: without a failing access, unless more results came than the
        row can hold evidence of; and when nothing is returned, the row is not settled. */
    ghost predicate QuietEnd(faults: nat, r: Outcome, a: Account)
      reads world
    {
      && world.Valid() && Unhurt(faults)
      && (r.Returned? || (a.seen == [] && !AtRest(Latest().status)))
    }

    /** The next command of an account, and what it reported. */
    lemma OneResult(plan: Plan, a: Account, commands: seq<Command>, c: Command, out: CommandOutcome)
      requires AllHelm(plan.helm) && WithinPlan(plan, a) && a.outs == [] && a.seen == []
      requires Planning(plan.dry, plan.helm, a.d, a.m, a.q) == commands + [c] && a.results == Zeros(commands) + [out]
      ensures Tidy(argv, plan, a)
      ensures Fails(a.results) <==> out != Completed(0)
      ensures FailsDefinitely(a.results) <==> out.Completed? && out != Completed(0)
      ensures Undoes(argv, plan, a) <==> a.m > 0 && out.Completed? && out != Completed(0)
    {
      hide Planning, ProbeCommands;
    }

    /** Only successes. */
    lemma NoFailure(plan: Plan, a: Account, commands: seq<Command>)
      requires AllHelm(plan.helm) && WithinPlan(plan, a) && a.outs == [] && a.seen == []
      requires Planning(plan.dry, plan.helm, a.d, a.m, a.q) == commands && a.results == Zeros(commands)
      ensures Tidy(argv, plan, a) && !Fails(a.results) && !Undoes(argv, plan, a)
    {
      hide Planning, ProbeCommands;
    }

    /** An execution that ends before the pairs, without rolling anything back. */
    lemma FinishedPlainly(releases0: map<Release, Content>, base: Record, plan: Plan, r: Outcome, a: Account)
      requires PlanOk(Rollbacks(base), plan) && Tidy(argv, plan, a) && a.outs == [] && a.seen == []
      requires Issued(releases0, Planning(plan.dry, plan.helm, a.d, a.m, a.q), a.results, plan.helm[..a.m])
      requires r.Returned? ==>
                 && world.Known(r.record) && Newest(r.record) && r.status == r.record.status
                 && (r.status.ReconciliationRequired? || (r.status.Failed? && a.m == 0))
                 && Evidenced(base.evidence, r.record.evidence, Planning(plan.dry, plan.helm, a.d, a.m, a.q), a.results)
      requires Exact(argv, base, plan, r, a) || (!r.Returned? && world.faults > faultsBefore)
      ensures Finished(releases0, base, plan, r, a)
    {
      hide World.Valid, World.Known, Extends, Made, SameOutside, ReleasesOf, Rollbacks, Planning, UndoCommands,
        Increasing, DistinctTargets, Covered, PairsFit, ForwardPairs, Exact, Tidy, Evidenced;
      assert WithinPlan(plan, a) by { TidyWithin(plan, a); }
      IssuedPlainly(plan, a);
      assert a.results + [] == a.results;
    }

    lemma TidyWithin(plan: Plan, a: Account)
      requires AllHelm(plan.helm) && Tidy(argv, plan, a)
      ensures WithinPlan(plan, a)
    {
    }

    lemma IssuedPlainly(plan: Plan, a: Account)
      requires AllHelm(plan.helm) && WithinPlan(plan, a) && a.outs == []
      ensures IssuedCommands(plan, a) == Planning(plan.dry, plan.helm, a.d, a.m, a.q)
    {
    }

    lemma IssuedWithUndo(plan: Plan, a: Account, b: Account)
      requires AllHelm(plan.helm) && WithinPlan(plan, a) && a.outs == [] && WithinPlan(plan, b)
      requires b == a.(outs := b.outs, seen := b.seen)
      ensures |UndoCommands(plan.helm[..a.m])| == a.m
      ensures IssuedCommands(plan, b) ==
              Planning(plan.dry, plan.helm, a.d, a.m, a.q) + UndoCommands(plan.helm[..a.m])[..|b.outs|]
    {
      hide Planning;
    }

    lemma SameOutsideBoth(a: map<Release, Content>, b: map<Release, Content>, c: map<Release, Content>,
                          touched: set<Release>)
      requires SameOutside(a, b, touched) && SameOutside(b, c, touched)
      ensures SameOutside(a, c, touched)
    {
    }

    /** An execution whose last part was a rollback or the forward phase. */
    lemma FinishedAfter(t: Trace, releases0: map<Release, Content>, releases1: map<Release, Content>, base: Record,
                        plan: Plan, r: Outcome, a: Account, b: Account)
      requires PlanOk(Rollbacks(base), plan) && WithinPlan(plan, a) && a.outs == []
      requires Made(t, Planning(plan.dry, plan.helm, a.d, a.m, a.q), a.results)
      requires SameOutside(releases0, releases1, ReleasesOf(plan.helm[..a.m]))
      requires Covered(Rollbacks(base), plan.helm[..a.m])
      requires Ended(t, releases1, Rollbacks(base), plan.helm[..a.m], r, b.outs)
      requires b == a.(outs := b.outs, seen := b.seen) && |b.seen| <= |plan.pairs| && Tidy(argv, plan, b)
      requires Sights(world.trace) == AllSights(plan.pairs, b.seen)
      requires faultsBefore <= world.faults && (Exact(argv, base, plan, r, b) || Troubled(r, b))
      requires r.Returned? && b.seen == [] ==>
                 Evidenced(base.evidence, r.record.evidence,
                           Planning(plan.dry, plan.helm, a.d, a.m, a.q) + UndoCommands(plan.helm[..a.m])[..|b.outs|],
                           b.results + b.outs)
      ensures Finished(releases0, base, plan, r, b)
    {
      hide World.Valid, World.Known, Extends, Made, SameOutside, ReleasesOf, Rollbacks, Planning, UndoCommands,
        Increasing, DistinctTargets, PairsFit, ForwardPairs, RestoredAll, Covered, AllZero, IssuedCommands,
        ServedUpTo, Complete, Exact, Tidy, AllSights, Sights, Children, Closes, Evidenced;
      TidyWithin(plan, b);
      IssuedWithUndo(plan, a, b);
      var touched := ReleasesOf(plan.helm[..a.m]);
      SameOutsideBoth(releases0, releases1, world.releases, touched);
      MadeMore(t, world.trace, Planning(plan.dry, plan.helm, a.d, a.m, a.q), a.results,
                  UndoCommands(plan.helm[..a.m])[..|b.outs|], b.outs);
    }

    /** All dry-runs succeeded. */
    predicate Dried(plan: Plan, a: Account) {
      && a.d == |plan.dry| <= |a.results|
      && forall k | 0 <= k < |plan.dry| :: a.results[k] == Completed(0)
    }

    lemma DriedBy(plan: Plan, a: Account, m: nat, q: nat, more: seq<CommandOutcome>)
      requires AllHelm(plan.helm) && m <= |plan.helm| && q <= |ProbeCommands(plan.helm)| && a.d == |plan.dry|
      requires a.results == Zeros(Planning(plan.dry, plan.helm, |plan.dry|, m, q)) + more
      ensures Dried(plan, a)
    {
    }

    /** Rolls the first `m` upgrades back and ends. */
    method Compensate(ghost releases0: map<Release, Content>, ghost base: Record, record: Record, plan: Plan,
                      ghost a0: Account, m: nat)
      returns (r: Outcome, ghost a: Account)
      requires PlanOk(Rollbacks(base), plan) && Tidy(argv, plan, a0) && a0.outs == [] && a0.seen == [] && a0.m == m > 0
      requires FailsDefinitely(a0.results) && !Unprepared(base, plan)
      requires Issued(releases0, Planning(plan.dry, plan.helm, a0.d, a0.m, a0.q), a0.results, plan.helm[..m])
      requires world.Known(record) && Opened(world.trace)
      requires Rollbacks(record) == Rollbacks(base) && record.forwards == []
      requires Evidenced(base.evidence, record.evidence, Planning(plan.dry, plan.helm, a0.d, a0.m, a0.q), a0.results)
      modifies world
      ensures world.Onward(old(world.cursor), old(world.clock))
      ensures old(world.history) <= world.history
      ensures Finished(releases0, base, plan, r, a) && a == a0.(outs := a.outs)
      ensures !r.RunnerRaised?
      ensures old(Steady(record)) && record.status in {MutationStarted, Probing} && Unrecorded(earlier, plan) ==>
                QuietEnd(old(world.faults), r, a)
    {
      hide World.Valid, World.Known, Extends, Made, SameOutside, ReleasesOf, Planning, UndoCommands, Opened,
        Disciplined, Steady, NoneRecorded, RestoredAll, AllZero, IssuedCommands, ServedUpTo, Complete, Rollbacks,
        DistinctTargets, UndoFresh, Commands, Finished, Ended, PlanOk, Outcomes, ProbeCommands, CanUndo, Unrecorded,
        Overfull, Tidy, Exact, ActiveApproval, Children, Closes, Sights, AllSights, FailsDefinitely, AllHelm,
        Evidenced;
      ghost var t, releases1 := world.trace, world.releases;
      PlanHelm(Rollbacks(base), plan);
      TidyWithin(plan, a0);
      CutWithin(plan, a0);
      var helm := plan.helm[..m];
      RollbackReady(t, base, plan, a0);
      ghost var outs;
      r, outs := Rollback(record, helm);
      RollbackEnds(t, releases1, record, helm, r, outs);
      NothingUndone(helm);
      if r.Returned? {
        EvidencedBoth(base.evidence, record.evidence, r.record.evidence,
                      Planning(plan.dry, plan.helm, a0.d, a0.m, a0.q), a0.results, UndoCommands(helm), outs);
      }
      a := a0.(outs := outs);
      UndoneTidy(base, plan, r, a0, a);
      NothingSeen(plan);
      FinishedAfter(t, releases0, releases1, base, plan, r, a0, a);
      assert RollbackStarted in Transitions(MutationStarted) && RollbackStarted in Transitions(Probing);
    }

    lemma CutWithin(plan: Plan, a: Account)
      requires AllHelm(plan.helm) && WithinPlan(plan, a)
      ensures a.m <= |plan.helm| && AllHelm(plan.helm[..a.m])
    {
    }

    lemma NothingSeen(plan: Plan)
      requires ForwardPairs(plan.pairs)
      ensures AllSights(plan.pairs, []) == []
    {
    }

    /** The account behind a rollback. */
    lemma UndoneTidy(base: Record, plan: Plan, r: Outcome, a0: Account, a: Account)
      requires AllHelm(plan.helm) && Tidy(argv, plan, a0) && a0.outs == [] && a0.seen == []
      requires a0.m > 0 && FailsDefinitely(a0.results) && !Unprepared(base, plan)
      requires a == a0.(outs := a.outs) && |a.outs| <= a.m
      requires r.Returned? ==>
                 |a.outs| == a.m && r.status == (if AllZero(a.outs) then RolledBack else ReconciliationRequired)
      ensures Tidy(argv, plan, a)
      ensures r.Returned? ==> Exact(argv, base, plan, r, a)
    {
      hide Planning, ProbeCommands, AllHelm, AllZero;
    }

    lemma RollbackReady(t: Trace, base: Record, plan: Plan, a: Account)
      requires PlanOk(Rollbacks(base), plan) && WithinPlan(plan, a) && a.m > 0 && Opened(t)
      requires Made(t, Planning(plan.dry, plan.helm, a.d, a.m, a.q), a.results)
      ensures AllHelm(plan.helm) && ForwardPairs(plan.pairs)
      ensures AllHelm(plan.helm[..a.m]) && DistinctTargets(plan.helm[..a.m])
      ensures Covered(Rollbacks(base), plan.helm[..a.m]) && UndoFresh(Commands(t), plan.helm[..a.m])
      ensures Disciplined(t) && plan.helm[..a.m] != []
      ensures Unrecorded(earlier, plan) ==> NoneRecorded(earlier, UndoCommands(plan.helm[..a.m]))
    {
      hide Planning, UndoCommands, Opened, Disciplined, Rollbacks, DistinctTargets, UndoFresh, Covered, ProbeCommands,
        Outcomes, Increasing, PairsFit, ForwardPairs, Unrecorded, NoneRecorded;
      StartedPart(Rollbacks(base), plan, a.m);
      var commands := Planning(plan.dry, plan.helm, a.d, a.m, a.q);
      MadeMeans(t, commands, a.results);
      PlanCanUndo(t, Rollbacks(base), plan, a.m, a.q);
      if Unrecorded(earlier, plan) {
        UnrecordedUndo(earlier, plan, a.m);
      }
      assert plan.helm[..a.m] != [];
    }

    lemma RollbackEnds(t: Trace, releases1: map<Release, Content>, record: Record, helm: seq<Planned>, r: Outcome,
                       outs: seq<CommandOutcome>)
      requires AllHelm(helm) && helm != [] && Covered(Rollbacks(record), helm)
      requires |outs| <= |helm| && Undone(t, releases1, helm, outs)
      requires Childless(t)
      requires r.Returned? ==>
                 && world.Known(r.record) && Newest(r.record) && r.status == r.record.status && |outs| == |helm|
                 && r.status == (if AllZero(outs) then RolledBack else ReconciliationRequired)
      requires r.Returned? && r.status.RolledBack? ==> RestoredAll(world.releases, Rollbacks(record), helm, 0)
      ensures Ended(t, releases1, Rollbacks(record), helm, r, outs) && Sights(world.trace) == []
    {
      hide World.Valid, World.Known, Extends, Made, SameOutside, ReleasesOf, UndoCommands, RestoredAll, AllZero,
        Rollbacks, Covered;
    }

    /** The end behind a command that did not succeed. */
    method EndWith(ghost releases0: map<Release, Content>, ghost base: Record, record: Record, ghost plan: Plan,
                   ghost a: Account, target: Status)
      returns (r: Outcome)
      requires PlanOk(Rollbacks(base), plan) && Tidy(argv, plan, a) && a.outs == [] && a.seen == []
      requires Fails(a.results) && !Undoes(argv, plan, a) && !Unprepared(base, plan)
      requires target == if a.m > 0 then ReconciliationRequired else Failed
      requires a.m > 0 || FailsDefinitely(a.results)
      requires Issued(releases0, Planning(plan.dry, plan.helm, a.d, a.m, a.q), a.results, plan.helm[..a.m])
      requires world.Known(record)
      requires Evidenced(base.evidence, record.evidence, Planning(plan.dry, plan.helm, a.d, a.m, a.q), a.results)
      modifies world
      ensures world.Onward(old(world.cursor), old(world.clock))
      ensures old(world.history) <= world.history
      ensures Finished(releases0, base, plan, r, a) && !r.RunnerRaised?
      ensures r.Returned? ==> r.status == target
      ensures world.faults == old(world.faults) + if r.Returned? then 0 else 1
      ensures old(Steady(record)) && target in Transitions(record.status) && record.forwards == [] ==>
                r.Returned? && QuietEnd(old(world.faults), r, a)
    {
      hide World.Valid, World.Known, Extends, Made, SameOutside, ReleasesOf, Planning, UndoCommands, Opened,
        Disciplined, Steady, NoneRecorded, RestoredAll, AllZero, IssuedCommands, ServedUpTo, Complete, Rollbacks,
        DistinctTargets, UndoFresh, Commands, Finished, Ended, Outcomes, ProbeCommands, CanUndo, Covered, PairsFit,
        ForwardPairs, Zeros, Passed, Increasing, Overfull, Evidenced;
      var w := Move(releases0, base, record, Planning(plan.dry, plan.helm, a.d, a.m, a.q), a.results,
                    plan.helm[..a.m], target);
      r := if w.Some? then Returned(w.value, w.value.status) else StoreRaised;
      FinishedPlainly(releases0, base, plan, r, a);
      IssuedValid(releases0, Planning(plan.dry, plan.helm, a.d, a.m, a.q), a.results, plan.helm[..a.m]);
    }

    lemma IssuedValid(releases0: map<Release, Content>, commands: seq<Command>, outcomes: seq<CommandOutcome>,
                      started: seq<Planned>)
      requires AllHelm(started) && Issued(releases0, commands, outcomes, started)
      ensures world.Valid() && faultsBefore <= world.faults
    {
    }

    /** The dry-runs were answered by every third request from `c` on. */
    ghost predicate Answered(c: nat, a: Account) {
      forall k | 0 <= k < a.d :: k < |a.results| && a.results[k] == Heard(world.script(c + 3 * k))
    }

    /** When an execution wrote anything: not if its first dry-run reported nothing, but certainly when it
        got further. */
    ghost predicate Footprint(h0: seq<Record>, a: Account)
      reads world`history
    {
      && (a.d >= 2 || a.m > 0 ==> |world.history| > |h0|)
      && (a.d == 1 && a.results == [NoResult] ==> world.history == h0)
    }

    /** The dry-runs of an APPROVED record: in order, up to the first one that does not report success, as
        the answers of the environment, one command every three requests, decide. */
    method RunDryRuns(ghost releases0: map<Release, Content>, base: Record, plan: Plan)
      returns (p: Phase, ghost a: Account)
      requires PlanOk(Rollbacks(base), plan) && base.status.Approved?
      requires Stage(releases0, base, base, [], plan.helm[..0])
      modifies world
      ensures world.Onward(old(world.cursor), old(world.clock))
      ensures old(world.history) <= world.history
      ensures p.Proceed? ==>
                && p.record.status.Approved? && world.faults == old(world.faults)
                && Stage(releases0, base, p.record, Planning(plan.dry, plan.helm, |plan.dry|, 0, 0), plan.helm[..0])
                && NoneRecorded(base.evidence, DryCommands(plan.dry))
                && AllDryRunsPass(old(world.cursor), plan)
                && (plan.dry != [] ==> |world.history| > |old(world.history)|)
      ensures p.Halt? ==>
                && Finished(releases0, base, plan, p.outcome, a) && a.m == 0 && |a.results| == a.d
                && (Fails(a.results) || world.faults > old(world.faults))
                && (p.outcome.Returned? ==> p.outcome.status.Failed?)
                && Answered(old(world.cursor), a) && Footprint(old(world.history), a)
      ensures old(Steady(base)) && NoneRecorded(earlier, DryCommands(plan.dry)) ==>
                if p.Proceed? then Steady(p.record) else QuietEnd(old(world.faults), p.outcome, a)
    {
      hide World.Valid, World.Known, Extends, Made, SameOutside, ReleasesOf, Planning, UndoCommands, Opened,
        Disciplined, Steady, NoneRecorded, RestoredAll, AllZero, IssuedCommands, ServedUpTo, Complete, Rollbacks,
        DistinctTargets, UndoFresh, Commands, Finished, Ended, Outcomes, ProbeCommands, CanUndo, Covered, PairsFit,
        ForwardPairs, Zeros, Passed, Increasing, Stage, Fails, QuietEnd, Heard, DryCommands;
      ghost var calm := Steady(base) && NoneRecorded(earlier, DryCommands(plan.dry));
      PlanningNone(plan);
      ghost var h0, c0, faults0 := world.history, world.cursor, world.faults;
      var record := base;
      var i := 0;
      a := Account(0, 0, 0, [], [], []);
      while i < |plan.dry|
        invariant 0 <= i <= |plan.dry|
        invariant h0 <= world.history && world.cursor == c0 + 3 * i && world.faults == faults0
        invariant world.clock >= old(world.clock)
        invariant record.status.Approved?
        invariant forall k | 0 <= k < i :: Heard(world.script(c0 + 3 * k)) == Completed(0)
        invariant if i == 0 then world.history == h0 else |world.history| > |h0|
        invariant Stage(releases0, base, record, Planning(plan.dry, plan.helm, i, 0, 0), plan.helm[..0])
        invariant calm ==> Steady(record)
      {
        ghost var out;
        p, a, out := DryRunNext(releases0, base, record, plan, i);
        if p.Halt? {
          ZerosThen(Planning(plan.dry, plan.helm, i, 0, 0), i, out, a.results);
          return;
        }
        record := p.record;
        i := i + 1;
      }
      DriedFresh(releases0, base, record, plan);
      p := Proceed(record);
    }

    lemma ZerosThen(commands: seq<Command>, i: nat, out: CommandOutcome, results: seq<CommandOutcome>)
      requires |commands| == i && results == Zeros(commands) + [out]
      ensures |results| == i + 1 && results[i] == out && forall k | 0 <= k < i :: results[k] == Completed(0)
    {
    }

    /** Evidence that is in the row twice would have been refused. */
    lemma DriedFresh(releases0: map<Release, Content>, base: Record, record: Record, plan: Plan)
      requires AllHelm(plan.helm)
      requires Stage(releases0, base, record, Planning(plan.dry, plan.helm, |plan.dry|, 0, 0), plan.helm[..0])
      ensures NoneRecorded(base.evidence, DryCommands(plan.dry))
    {
      hide World.Valid, SameOutside, Made, Childless, DryCommands;
      KnownValid(record);
      PlanningSize(plan);
      var commands := Planning(plan.dry, plan.helm, |plan.dry|, 0, 0);
      assert commands == DryCommands(plan.dry);
      forall c, e | c in commands && e in base.evidence
        ensures e.id != c.id
      {
        var i :| 0 <= i < |commands| && commands[i] == c;
        var j :| 0 <= j < |base.evidence| && base.evidence[j] == e;
        assert record.evidence[j] == e && record.evidence[|base.evidence| + i] == Passed(commands)[i];
      }
    }

    lemma PlanningNone(plan: Plan)
      requires AllHelm(plan.helm)
      ensures Planning(plan.dry, plan.helm, 0, 0, 0) == []
    {
    }

    method DryRunNext(ghost releases0: map<Release, Content>, ghost base: Record, record: Record, plan: Plan, i: nat)
      returns (p: Phase, ghost a: Account, ghost out: CommandOutcome)
      requires PlanOk(Rollbacks(base), plan) && i < |plan.dry| && record.status.Approved?
      requires Stage(releases0, base, record, Planning(plan.dry, plan.helm, i, 0, 0), plan.helm[..0])
      modifies world
      ensures world.Onward(old(world.cursor), old(world.clock))
      ensures old(world.history) <= world.history
      ensures |Planning(plan.dry, plan.helm, i, 0, 0)| == i && out == Heard(world.script(old(world.cursor)))
      ensures p.Proceed? ==>
                && p.record.status.Approved? && out == Completed(0)
                && world.cursor == old(world.cursor) + 3 && world.faults == old(world.faults)
                && |world.history| > |old(world.history)|
                && Stage(releases0, base, p.record, Planning(plan.dry, plan.helm, i + 1, 0, 0), plan.helm[..0])
      ensures p.Halt? ==>
                && Finished(releases0, base, plan, p.outcome, a)
                && a == Account(i + 1, 0, 0, Zeros(Planning(plan.dry, plan.helm, i, 0, 0)) + [out], [], [])
                && (Fails(a.results) || world.faults > old(world.faults))
                && (p.outcome.Returned? ==> p.outcome.status.Failed?)
                && (out.NoResult? ==> world.history == old(world.history))
      ensures old(Steady(record)) && NoneRecorded(earlier, DryCommands(plan.dry)) ==>
                if p.Proceed? then Steady(p.record) else QuietEnd(old(world.faults), p.outcome, a)
    {
      hide World.Valid, World.Known, Extends, Made, SameOutside, ReleasesOf, Planning, UndoCommands, Opened,
        Disciplined, Steady, NoneRecorded, RestoredAll, AllZero, IssuedCommands, ServedUpTo, Complete, Rollbacks,
        DistinctTargets, UndoFresh, Commands, Finished, Ended, Outcomes, ProbeCommands, CanUndo, Covered, PairsFit,
        ForwardPairs, Zeros, Passed, Increasing, Overfull, Tidy, Undoes, Heard, Fails, FailsDefinitely, DryCommands,
        Exact, Evidenced;
      PlanningDry(plan, i);
      DryUnrecorded(plan, i);
      ghost var commands := Planning(plan.dry, plan.helm, i, 0, 0);
      var run;
      run, out := Issue(releases0, base, record, commands, plan.helm[..0], DryCommand(plan.dry[i]), NoEffect);
      a := Account(i + 1, 0, 0, Zeros(commands) + [out], [], []);
      OneResult(plan, a, commands, DryCommand(plan.dry[i]), out);
      IssuedValid(releases0, commands + [DryCommand(plan.dry[i])], a.results, plan.helm[..0]);
      if Steady(record) {
        SteadyIsLatest(record);
      }
      match run {
        case Done(next, returncode) =>
          if returncode == 0 {
            return Proceed(next), a, out;
          }
          assert Failed in Transitions(Approved);
          var o := EndWith(releases0, base, next, plan, a, Failed);
          return Halt(o), a, out;
        case NotCompleted =>
          DryRunLost(base, plan, a);
          FinishedPlainly(releases0, base, plan, RunnerRaised, a);
          return Halt(RunnerRaised), a, out;
        case NotStored =>
          FinishedPlainly(releases0, base, plan, StoreRaised, a);
          return Halt(StoreRaised), a, out;
      }
    }

    lemma DryUnrecorded(plan: Plan, i: nat)
      requires i < |plan.dry|
      ensures NoneRecorded(earlier, DryCommands(plan.dry)) ==> NoneRecorded(earlier, [DryCommand(plan.dry[i])])
    {
      assert DryCommands(plan.dry)[i] == DryCommand(plan.dry[i]);
    }

    /** A dry-run without a usable result raises. */
    lemma DryRunLost(base: Record, plan: Plan, a: Account)
      requires AllHelm(plan.helm) && Tidy(argv, plan, a) && a.outs == [] && a.seen == []
      requires a.m == 0 && Fails(a.results) && !FailsDefinitely(a.results) && plan.dry != []
      ensures Exact(argv, base, plan, RunnerRaised, a)
    {
      hide Planning, ProbeCommands, AllHelm;
    }

    /** One upgrade.  It counts as started before it is issued, so its own failure rolls it back too. */
    method UpgradeNext(ghost releases0: map<Release, Content>, ghost base: Record, record: Record, plan: Plan, i: nat)
      returns (p: Phase, ghost a: Account)
      requires PlanOk(Rollbacks(base), plan) && i < |plan.helm| && record.status.MutationStarted?
      requires Stage(releases0, base, record, Planning(plan.dry, plan.helm, |plan.dry|, i, 0), plan.helm[..i])
      requires Opened(world.trace) && !Unprepared(base, plan)
      modifies world
      ensures world.Onward(old(world.cursor), old(world.clock))
      ensures old(world.history) <= world.history
      ensures p.Proceed? ==>
                && p.record.status.MutationStarted? && Opened(world.trace) && world.faults == old(world.faults)
                && Heard(world.script(old(world.cursor))) == Completed(0)
                && Stage(releases0, base, p.record, Planning(plan.dry, plan.helm, |plan.dry|, i + 1, 0),
                         plan.helm[..i + 1])
      ensures p.Halt? ==>
                && Finished(releases0, base, plan, p.outcome, a) && Dried(plan, a)
                && a.m == i + 1 && a.q == 0 && a.seen == []
                && a.results == Zeros(Planning(plan.dry, plan.helm, |plan.dry|, i, 0)) +
                                [Heard(world.script(old(world.cursor)))]
                && (Fails(a.results) || world.faults > old(world.faults))
      ensures old(Steady(record)) && Unrecorded(earlier, plan) ==>
                if p.Proceed? then Steady(p.record) else QuietEnd(old(world.faults), p.outcome, a)
    {
      hide World.Valid, World.Known, Extends, Made, SameOutside, ReleasesOf, Planning, UndoCommands, Opened,
        Disciplined, Steady, NoneRecorded, RestoredAll, AllZero, IssuedCommands, ServedUpTo, Complete, Rollbacks,
        DistinctTargets, UndoFresh, Commands, Finished, Ended, Outcomes, ProbeCommands, CanUndo, Covered, PairsFit,
        ForwardPairs, Zeros, Passed, Increasing, Overfull, Tidy, Undoes, Heard, Fails, FailsDefinitely, Unrecorded,
        Exact, Dried, Evidenced;
      PlanningMutation(plan, i);
      ghost var commands := Planning(plan.dry, plan.helm, |plan.dry|, i, 0);
      UnrecordedNext(earlier, plan, commands, MutationCommand(plan.helm[i]), |plan.dry|, i + 1, 0);
      var upgrade := plan.helm[i];
      Widen(releases0, world.releases, plan.helm, i);
      var run;
      ghost var out;
      run, out := Issue(releases0, base, record, commands, plan.helm[..i + 1], MutationCommand(upgrade),
                        Upgrade(upgrade.action.release));
      a := Account(|plan.dry|, i + 1, 0, Zeros(commands) + [out], [], []);
      OneResult(plan, a, commands, MutationCommand(upgrade), out);
      DriedBy(plan, a, i, 0, [out]);
      IssuedValid(releases0, commands + [MutationCommand(upgrade)], a.results, plan.helm[..i + 1]);
      if Steady(record) {
        SteadyIsLatest(record);
      }
      match run {
        case Done(next, returncode) =>
          if returncode == 0 {
            return Proceed(next), a;
          }
          AlongFacts(base, record, next, commands);
          var o;
          ghost var a0 := a;
          o, a := Compensate(releases0, base, next, plan, a, i + 1);
          StillDried(plan, a0, a);
          return Halt(o), a;
        case NotCompleted =>
          AlongFacts(base, record, record, commands);
          assert ReconciliationRequired in Transitions(MutationStarted);
          var o := EndWith(releases0, base, record, plan, a, ReconciliationRequired);
          return Halt(o), a;
        case NotStored =>
          FinishedPlainly(releases0, base, plan, StoreRaised, a);
          return Halt(StoreRaised), a;
      }
    }

    lemma StillDried(plan: Plan, a: Account, b: Account)
      requires Dried(plan, a) && b == a.(outs := b.outs, seen := b.seen)
      ensures Dried(plan, b)
    {
    }

    lemma AlongFacts(base: Record, record: Record, next: Record, commands: seq<Command>)
      requires Along(base, record, commands)
      requires next == record || next == record.(evidence := next.evidence, updatedAt := next.updatedAt,
                                                 generation := next.generation)
      ensures next.forwards == [] && Rollbacks(next) == Rollbacks(base)
    {
      hide Passed;
    }

    lemma Widen(before: map<Release, Content>, after: map<Release, Content>, helm: seq<Planned>, i: nat)
      requires AllHelm(helm) && i < |helm|
      requires SameOutside(before, after, ReleasesOf(helm[..i]))
      ensures SameOutside(before, after, ReleasesOf(helm[..i + 1])) &&
              helm[i].action.release in ReleasesOf(helm[..i + 1])
    {
      assert helm[..i + 1] == helm[..i] + [helm[i]];
      assert helm[i] in helm[..i + 1];
      forall x | x !in ReleasesOf(helm[..i + 1])
        ensures x !in ReleasesOf(helm[..i])
      {
      }
    }

    /** How a phase between the dry-runs and the pairs halts: every command before the last one succeeded,
        and the last one did not, unless a journal access failed. */
    ghost predicate Halts(faults: nat, releases0: map<Release, Content>, base: Record, plan: Plan, r: Outcome,
                          a: Account)
      requires PlanOk(Rollbacks(base), plan)
      reads world
    {
      && Finished(releases0, base, plan, r, a) && Dried(plan, a) && a.m > 0 && a.seen == []
      && (Fails(a.results) || world.faults > faults)
    }

    /** The mutation loop. */
    method RunMutations(ghost releases0: map<Release, Content>, ghost base: Record, record0: Record, plan: Plan)
      returns (p: Phase, ghost a: Account)
      requires PlanOk(Rollbacks(base), plan) && record0.status.MutationStarted?
      requires Stage(releases0, base, record0, Planning(plan.dry, plan.helm, |plan.dry|, 0, 0), plan.helm[..0])
      requires Opened(world.trace) && !Unprepared(base, plan)
      modifies world
      ensures world.Onward(old(world.cursor), old(world.clock))
      ensures old(world.history) <= world.history
      ensures p.Proceed? ==>
                && p.record.status.MutationStarted? && Opened(world.trace) && world.faults == old(world.faults)
                && Stage(releases0, base, p.record, Planning(plan.dry, plan.helm, |plan.dry|, |plan.helm|, 0),
                         plan.helm)
      ensures p.Halt? ==> Halts(old(world.faults), releases0, base, plan, p.outcome, a)
      ensures old(Steady(record0)) && Unrecorded(earlier, plan) ==>
                if p.Proceed? then Steady(p.record) else QuietEnd(old(world.faults), p.outcome, a)
    {
      hide World.Valid, World.Known, Extends, Made, SameOutside, ReleasesOf, Planning, UndoCommands, Opened,
        Disciplined, Steady, NoneRecorded, RestoredAll, AllZero, IssuedCommands, ServedUpTo, Complete, Rollbacks,
        DistinctTargets, UndoFresh, Commands, Finished, Ended, Outcomes, ProbeCommands, CanUndo, Covered, PairsFit,
        ForwardPairs, Zeros, Passed, Increasing, Unrecorded, QuietEnd, Stage, Fails, Heard, Dried;
      ghost var calm := Steady(record0) && Unrecorded(earlier, plan);
      ghost var h0, faults0 := world.history, world.faults;
      var record := record0;
      var i := 0;
      a := Account(0, 0, 0, [], [], []);
      while i < |plan.helm|
        invariant 0 <= i <= |plan.helm|
        invariant h0 <= world.history && world.faults == faults0 && world.Onward(old(world.cursor), old(world.clock))
        invariant record.status.MutationStarted? && Opened(world.trace)
        invariant Stage(releases0, base, record, Planning(plan.dry, plan.helm, |plan.dry|, i, 0), plan.helm[..i])
        invariant calm ==> Steady(record)
      {
        p, a := UpgradeNext(releases0, base, record, plan, i);
        if p.Halt? {
          return;
        }
        record := p.record;
        i := i + 1;
      }
      assert plan.helm[..|plan.helm|] == plan.helm;
      p := Proceed(record);
    }

    /** All upgrades done, and `q` readiness probes. */
    ghost predicate ProbingAt(releases0: map<Release, Content>, base: Record, record: Record, plan: Plan, q: nat)
      requires AllHelm(plan.helm) && q <= |ProbeCommands(plan.helm)|
      reads world
    {
      && record.status.Probing? && Opened(world.trace)
      && Stage(releases0, base, record, Planning(plan.dry, plan.helm, |plan.dry|, |plan.helm|, q), plan.helm)
    }

    /** How many readiness probes the first `i` actions have. */
    ghost function ProbesBefore(plan: Plan, i: nat): nat
      requires AllHelm(plan.helm) && i <= |plan.helm|
    {
      |ProbeCommands(plan.helm[..i])|
    }

    method ProbeNext(ghost releases0: map<Release, Content>, ghost base: Record, record: Record, plan: Plan,
                     i: nat, j: nat)
      returns (p: Phase, ghost a: Account)
      requires PlanOk(Rollbacks(base), plan) && i < |plan.helm| && j < plan.helm[i].action.probes
      requires ProbesBefore(plan, i) + j < |ProbeCommands(plan.helm)| && !Unprepared(base, plan)
      requires ProbingAt(releases0, base, record, plan, ProbesBefore(plan, i) + j)
      modifies world
      ensures world.Onward(old(world.cursor), old(world.clock))
      ensures old(world.history) <= world.history
      ensures p.Proceed? ==>
                && ProbingAt(releases0, base, p.record, plan, ProbesBefore(plan, i) + j + 1)
                && world.faults == old(world.faults) && Heard(world.script(old(world.cursor))) == Completed(0)
      ensures p.Halt? ==>
                && Halts(old(world.faults), releases0, base, plan, p.outcome, a)
                && a.m == |plan.helm| && a.q == ProbesBefore(plan, i) + j + 1
                && a.results != [] && a.results[|a.results| - 1] == Heard(world.script(old(world.cursor)))
      ensures old(Steady(record)) && Unrecorded(earlier, plan) ==>
                if p.Proceed? then Steady(p.record) else QuietEnd(old(world.faults), p.outcome, a)
    {
      hide World.Valid, World.Known, Extends, Made, SameOutside, ReleasesOf, Planning, UndoCommands, Opened,
        Disciplined, Steady, NoneRecorded, RestoredAll, AllZero, IssuedCommands, ServedUpTo, Complete, Rollbacks,
        DistinctTargets, UndoFresh, Commands, Finished, Ended, Outcomes, ProbeCommands, CanUndo, Covered, PairsFit,
        ForwardPairs, Zeros, Passed, Increasing, Overfull, Tidy, Undoes, Heard, Fails, FailsDefinitely, Unrecorded,
        Exact, Dried, Evidenced;
      PlanningProbe(plan, i, j);
      ghost var q := ProbesBefore(plan, i) + j;
      ghost var commands := Planning(plan.dry, plan.helm, |plan.dry|, |plan.helm|, q);
      ghost var command := ReadinessCommand(plan.helm[i], j + 1);
      UnrecordedNext(earlier, plan, commands, command, |plan.dry|, |plan.helm|, q + 1);
      var run;
      ghost var out;
      run, out := Issue(releases0, base, record, commands, plan.helm, ReadinessCommand(plan.helm[i], j + 1), NoEffect);
      a := Account(|plan.dry|, |plan.helm|, q + 1, Zeros(commands) + [out], [], []);
      OneResult(plan, a, commands, command, out);
      DriedBy(plan, a, |plan.helm|, q, [out]);
      assert plan.helm[..|plan.helm|] == plan.helm;
      IssuedValid(releases0, commands + [command], a.results, plan.helm);
      if Steady(record) {
        SteadyIsLatest(record);
      }
      match run {
        case Done(next, returncode) =>
          if returncode == 0 {
            return Proceed(next), a;
          }
          AlongFacts(base, record, next, commands);
          var o;
          ghost var a0 := a;
          o, a := Compensate(releases0, base, next, plan, a, |plan.helm|);
          StillDried(plan, a0, a);
          return Halt(o), a;
        case NotCompleted =>
          AlongFacts(base, record, record, commands);
          assert ReconciliationRequired in Transitions(Probing);
          var o := EndWith(releases0, base, record, plan, a, ReconciliationRequired);
          return Halt(o), a;
        case NotStored =>
          FinishedPlainly(releases0, base, plan, StoreRaised, a);
          return Halt(StoreRaised), a;
      }
    }

    /** The readiness probes of one upgrade. */
    method ProbeRelease(ghost releases0: map<Release, Content>, ghost base: Record, record0: Record, plan: Plan, i: nat)
      returns (p: Phase, ghost a: Account)
      requires PlanOk(Rollbacks(base), plan) && i < |plan.helm| && !Unprepared(base, plan)
      requires ProbesBefore(plan, i) <= |ProbeCommands(plan.helm)|
      requires ProbesBefore(plan, i) + plan.helm[i].action.probes <= |ProbeCommands(plan.helm)|
      requires ProbingAt(releases0, base, record0, plan, ProbesBefore(plan, i))
      modifies world
      ensures world.Onward(old(world.cursor), old(world.clock))
      ensures old(world.history) <= world.history
      ensures p.Proceed? ==>
                && ProbingAt(releases0, base, p.record, plan, ProbesBefore(plan, i) + plan.helm[i].action.probes)
                && world.faults == old(world.faults)
      ensures p.Halt? ==> Halts(old(world.faults), releases0, base, plan, p.outcome, a)
      ensures old(Steady(record0)) && Unrecorded(earlier, plan) ==>
                if p.Proceed? then Steady(p.record) else QuietEnd(old(world.faults), p.outcome, a)
    {
      hide World.Valid, World.Known, Extends, Made, SameOutside, ReleasesOf, Planning, UndoCommands, Opened,
        Disciplined, Steady, NoneRecorded, RestoredAll, AllZero, IssuedCommands, ServedUpTo, Complete, Rollbacks,
        DistinctTargets, UndoFresh, Commands, Finished, Ended, Outcomes, ProbeCommands, CanUndo, Covered, PairsFit,
        ForwardPairs, Zeros, Passed, Increasing, ProbingAt, Unrecorded, QuietEnd, Halts, Heard;
      ghost var calm := Steady(record0) && Unrecorded(earlier, plan);
      ghost var h0, faults0 := world.history, world.faults;
      var record := record0;
      var j := 0;
      a := Account(0, 0, 0, [], [], []);
      while j < plan.helm[i].action.probes
        invariant 0 <= j <= plan.helm[i].action.probes
        invariant h0 <= world.history && world.faults == faults0 && world.Onward(old(world.cursor), old(world.clock))
        invariant ProbingAt(releases0, base, record, plan, ProbesBefore(plan, i) + j)
        invariant calm ==> Steady(record)
      {
        p, a := ProbeNext(releases0, base, record, plan, i, j);
        if p.Halt? {
          return;
        }
        record := p.record;
        j := j + 1;
      }
      p := Proceed(record);
    }

    /** The readiness loop. */
    method RunProbes(ghost releases0: map<Release, Content>, ghost base: Record, record0: Record, plan: Plan)
      returns (p: Phase, ghost a: Account)
      requires PlanOk(Rollbacks(base), plan) && !Unprepared(base, plan)
      requires ProbingAt(releases0, base, record0, plan, 0)
      modifies world
      ensures world.Onward(old(world.cursor), old(world.clock))
      ensures old(world.history) <= world.history
      ensures p.Proceed? ==>
                && ProbingAt(releases0, base, p.record, plan, |ProbeCommands(plan.helm)|)
                && world.faults == old(world.faults)
      ensures p.Halt? ==> Halts(old(world.faults), releases0, base, plan, p.outcome, a)
      ensures old(Steady(record0)) && Unrecorded(earlier, plan) ==>
                if p.Proceed? then Steady(p.record) else QuietEnd(old(world.faults), p.outcome, a)
    {
      hide World.Valid, World.Known, Extends, Made, SameOutside, ReleasesOf, Planning, UndoCommands, Opened,
        Disciplined, Steady, NoneRecorded, RestoredAll, AllZero, IssuedCommands, ServedUpTo, Complete, Rollbacks,
        DistinctTargets, UndoFresh, Commands, Finished, Ended, Outcomes, ProbeCommands, CanUndo, Covered, PairsFit,
        ForwardPairs, Zeros, Passed, Increasing, ProbingAt, ProbesBefore, Unrecorded, QuietEnd, Halts;
      ghost var calm := Steady(record0) && Unrecorded(earlier, plan);
      ghost var h0, faults0 := world.history, world.faults;
      NoProbesBefore(plan);
      var record := record0;
      var i := 0;
      a := Account(0, 0, 0, [], [], []);
      while i < |plan.helm|
        invariant 0 <= i <= |plan.helm|
        invariant h0 <= world.history && world.faults == faults0 && world.Onward(old(world.cursor), old(world.clock))
        invariant ProbesBefore(plan, i) <= |ProbeCommands(plan.helm)|
        invariant ProbingAt(releases0, base, record, plan, ProbesBefore(plan, i))
        invariant calm ==> Steady(record)
      {
        NextProbes(plan, i);
        p, a := ProbeRelease(releases0, base, record, plan, i);
        if p.Halt? {
          return;
        }
        record := p.record;
        i := i + 1;
      }
      p := Proceed(record);
    }

    lemma NoProbesBefore(plan: Plan)
      requires AllHelm(plan.helm)
      ensures ProbesBefore(plan, 0) == 0 && ProbesBefore(plan, |plan.helm|) == |ProbeCommands(plan.helm)|
    {
      assert plan.helm[..|plan.helm|] == plan.helm;
    }

    lemma NextProbes(plan: Plan, i: nat)
      requires AllHelm(plan.helm) && i < |plan.helm|
      ensures ProbesBefore(plan, i + 1) == ProbesBefore(plan, i) + plan.helm[i].action.probes
      ensures ProbesBefore(plan, i + 1) <= |ProbeCommands(plan.helm)|
    {
      hide ProbeCommands, AllHelm;
      ProbesSoFar(plan.helm, i);
      if i + 1 < |plan.helm| {
        ProbesSoFar(plan.helm, i + 1);
      } else {
        assert plan.helm[..i + 1] == plan.helm;
      }
    }

    /** Everything but the forwards is done. */
    ghost function Full(plan: Plan): Account
      requires AllHelm(plan.helm)
    {
      Account(|plan.dry|, |plan.helm|, |ProbeCommands(plan.helm)|, Zeros(Whole(plan)), [], [])
    }

    lemma FullWithin(plan: Plan)
      requires AllHelm(plan.helm)
      ensures WithinPlan(plan, Full(plan)) && Complete(plan, Full(plan)) && AllIssued(plan, Full(plan))
      ensures IssuedCommands(plan, Full(plan)) == Whole(plan)
      ensures Full(plan).results + Full(plan).outs == Zeros(Whole(plan))
      ensures plan.helm[..|plan.helm|] == plan.helm
      ensures Whole(plan) == Planning(plan.dry, plan.helm, |plan.dry|, |plan.helm|, |ProbeCommands(plan.helm)|)
      ensures Tidy(argv, plan, Full(plan)) && !Fails(Full(plan).results) && Dried(plan, Full(plan))
    {
      hide Zeros, AllHelm;
      NoProbes(plan.helm);
      IssuedPlainly(plan, Full(plan));
      NoFailure(plan, Full(plan), Whole(plan));
      assert Zeros(Whole(plan)) + [] == Zeros(Whole(plan));
      DriedBy(plan, Full(plan), |plan.helm|, |ProbeCommands(plan.helm)|, []);
    }

    lemma NoProbes(helm: seq<Planned>)
      requires AllHelm(helm)
      ensures helm == [] ==> |ProbeCommands(helm)| == 0
    {
    }

    lemma ServedFrom(base: Record, record: Record, u: Record, plan: Plan, seen: seq<Seen>)
      requires AllHelm(plan.helm) && ForwardPairs(plan.pairs) && |seen| == |plan.pairs|
      requires Along(base, record, Whole(plan)) && ServedUpTo(record, u, plan.pairs, |plan.pairs|, seen)
      ensures ServedUpTo(Credited(base, plan), u, plan.pairs, |plan.pairs|, seen)
    {
      hide Whole, Passed;
    }

    /** The forward phase, behind everything else. */
    method ForwardPhase(ghost releases0: map<Release, Content>, ghost base: Record, record: Record, plan: Plan)
      returns (r: Outcome, ghost a: Account)
      requires PlanOk(Rollbacks(base), plan) && plan.pairs != [] && !Unprepared(base, plan)
      requires Stage(releases0, base, record, Whole(plan), plan.helm)
      requires plan.helm != [] ==> Opened(world.trace)
      modifies world
      ensures world.Onward(old(world.cursor), old(world.clock))
      ensures old(world.history) <= world.history
      ensures Finished(releases0, base, plan, r, a) && Dried(plan, a) && a.m == |plan.helm|
      ensures old(Steady(record)) && Unrecorded(earlier, plan) &&
              record.status in {Approved, ServerDryRunPassed, Probing} ==>
                QuietEnd(old(world.faults), r, a)
    {
      hide World.Valid, World.Known, Extends, Made, SameOutside, ReleasesOf, Planning, UndoCommands, Opened,
        Disciplined, Steady, NoneRecorded, RestoredAll, AllZero, IssuedCommands, ServedUpTo, Complete, Rollbacks,
        DistinctTargets, UndoFresh, Commands, Finished, Ended, Outcomes, ProbeCommands, CanUndo, Covered, PairsFit,
        ForwardPairs, Zeros, Passed, Increasing, Whole, Overfull, Tidy, Exact, Unrecorded, Dried, Fails, AllSights,
        Sights, Children, Closes, PairsDone, AllHelm;
      ghost var t, releases1 := world.trace, world.releases;
      FullWithin(plan);
      ForwardReady(t, releases0, base, record, plan);
      ghost var outs, seen;
      r, outs, seen := RunPortForwardPairs(record, plan.pairs, plan.helm);
      a := Full(plan).(outs := outs, seen := seen);
      StillDried(plan, Full(plan), a);
      PairsEnd(t, releases0, releases1, base, record, plan, r, outs, seen);
      FinishedValid(releases0, base, plan, r, a);
    }

    lemma FinishedValid(releases0: map<Release, Content>, base: Record, plan: Plan, r: Outcome, a: Account)
      requires PlanOk(Rollbacks(base), plan) && Finished(releases0, base, plan, r, a)
      ensures world.Valid() && faultsBefore <= world.faults
    {
      hide World.Valid, Tidy, Verdict, Exact, Troubled, PlanOk;
    }

    /** What the forward phase makes of a full account. */
    lemma PairsEnd(t: Trace, releases0: map<Release, Content>, releases1: map<Release, Content>, base: Record,
                   record: Record, plan: Plan, r: Outcome, outs: seq<CommandOutcome>, seen: seq<Seen>)
      requires PlanOk(Rollbacks(base), plan) && plan.pairs != [] && !Unprepared(base, plan)
      requires Made(t, Whole(plan), Zeros(Whole(plan))) && Childless(t)
      requires SameOutside(releases0, releases1, ReleasesOf(plan.helm)) && Along(base, record, Whole(plan))
      requires Rollbacks(record) == Rollbacks(base) && Covered(Rollbacks(base), plan.helm)
      requires exists faults :: faultsBefore <= faults &&
                                PairsDone(t, faults, releases1, record, plan.pairs, plan.helm, r, outs, seen)
      ensures Finished(releases0, base, plan, r, Full(plan).(outs := outs, seen := seen))
    {
      hide World.Valid, World.Known, Extends, Made, SameOutside, ReleasesOf, Planning, UndoCommands, Opened,
        Disciplined, Steady, NoneRecorded, RestoredAll, AllZero, IssuedCommands, ServedUpTo, Complete, Rollbacks,
        DistinctTargets, UndoFresh, Commands, Finished, Ended, Outcomes, ProbeCommands, CanUndo, Covered, PairsFit,
        Zeros, Passed, Increasing, Whole, Overfull, Tidy, Exact, Unrecorded, Dried, Fails, AllSights, Sights,
        AllServed, Stops, AllHelm, Children, Closes, Along;
      var faults :| faultsBefore <= faults &&
        PairsDone(t, faults, releases1, record, plan.pairs, plan.helm, r, outs, seen);
      var a := Full(plan).(outs := outs, seen := seen);
      FullWithin(plan);
      SeenAll(t, plan, seen);
      if r.Returned? && r.status.Succeeded? {
        ServedFrom(base, record, r.record, plan, seen);
        WholeKept(t, world.trace, plan);
        ServedExact(base, plan, r, a);
        SuccessFinishes(releases0, base, plan, r, seen);
      } else {
        EndedLength(t, releases1, Rollbacks(base), plan.helm, r, outs);
        PairsExact(faults, base, plan, r, a);
        FinishedAfter(t, releases0, releases1, base, plan, r, Full(plan), a);
      }
    }

    lemma EndedLength(t: Trace, releases1: map<Release, Content>, rollbacks: seq<ReleaseSnapshot>, helm: seq<Planned>,
                      r: Outcome, outs: seq<CommandOutcome>)
      requires AllHelm(helm) && Covered(rollbacks, helm) && Ended(t, releases1, rollbacks, helm, r, outs)
      ensures |outs| <= |helm|
    {
    }

    lemma SeenAll(t: Trace, plan: Plan, seen: seq<Seen>)
      requires ForwardPairs(plan.pairs) && |seen| <= |plan.pairs|
      requires Childless(t) && Looked(t, world.trace, AllSights(plan.pairs, seen))
      ensures Sights(world.trace) == AllSights(plan.pairs, seen)
    {
    }

    /** Every pair served. */
    lemma ServedExact(base: Record, plan: Plan, r: Outcome, a: Account)
      requires AllHelm(plan.helm) && plan.pairs != [] && !Unprepared(base, plan)
      requires a == Full(plan).(seen := a.seen) && |a.seen| == |plan.pairs|
      requires AllServed(argv, plan.pairs, a.seen, |plan.pairs|)
      requires Tidy(argv, plan, Full(plan)) && !Fails(Full(plan).results)
      requires r.Returned? && r.status.Succeeded?
      ensures Tidy(argv, plan, a) && Exact(argv, base, plan, r, a)
    {
      hide Planning, ProbeCommands, AllHelm, VerdictOn, Zeros, Whole;
    }

    /** The last pair not served, or a journal access that failed. */
    lemma PairsExact(faults: nat, base: Record, plan: Plan, r: Outcome, a: Account)
      requires AllHelm(plan.helm) && plan.pairs != [] && !Unprepared(base, plan) && faultsBefore <= faults
      requires a == Full(plan).(outs := a.outs, seen := a.seen) && |a.seen| <= |plan.pairs|
      requires a.seen != [] ==> AllServed(argv, plan.pairs, a.seen, |a.seen| - 1)
      requires Tidy(argv, plan, Full(plan)) && !Fails(Full(plan).results)
      requires Stops(faults, plan.pairs, a.seen, plan.helm, r, a.outs)
      requires |a.outs| <= |plan.helm|
      ensures Tidy(argv, plan, a) && (Exact(argv, base, plan, r, a) || Troubled(r, a))
      ensures a.seen == [] ==> !r.Returned?
    {
      hide Planning, ProbeCommands, AllHelm, VerdictOn, Zeros, Whole, AllZero;
    }

    lemma WholeKept(t: Trace, t1: Trace, plan: Plan)
      requires AllHelm(plan.helm)
      requires Made(t, Whole(plan), Zeros(Whole(plan))) && Extends(t, t1, [], [])
      ensures Made(t1, Whole(plan), Zeros(Whole(plan)))
    {
      hide Extends, Made, Whole, Zeros;
      var commands := Whole(plan);
      MadeMore(t, t1, commands, Zeros(commands), [], []);
      assert commands + [] == commands && Zeros(commands) + [] == Zeros(commands);
    }

    lemma SuccessFinishes(releases0: map<Release, Content>, base: Record, plan: Plan, r: Outcome, seen: seq<Seen>)
      requires PlanOk(Rollbacks(base), plan) && r.Returned? && r.status.Succeeded?
      requires world.Valid() && world.Known(r.record) && Newest(r.record) && r.record.status.Succeeded?
      requires |seen| == |plan.pairs| && AllServed(argv, plan.pairs, seen, |seen|)
      requires ServedUpTo(Credited(base, plan), r.record, plan.pairs, |plan.pairs|, seen)
      requires Made(world.trace, Whole(plan), Zeros(Whole(plan)))
      requires Sights(world.trace) == AllSights(plan.pairs, seen) && faultsBefore <= world.faults
      requires Children(world.trace) == Closes(world.trace)
      requires SameOutside(releases0, world.releases, ReleasesOf(plan.helm))
      requires Tidy(argv, plan, Full(plan).(seen := seen))
      requires Exact(argv, base, plan, r, Full(plan).(seen := seen))
      ensures Finished(releases0, base, plan, r, Full(plan).(seen := seen))
    {
      hide World.Valid, World.Known, Extends, Made, SameOutside, ReleasesOf, Planning, UndoCommands, Opened,
        Disciplined, Steady, NoneRecorded, RestoredAll, AllZero, ServedUpTo, Rollbacks, DistinctTargets, UndoFresh,
        Commands, Ended, Outcomes, ProbeCommands, CanUndo, Covered, PairsFit, ForwardPairs, Zeros, Passed, Increasing,
        Tidy, Exact, AllServed, Sights, AllSights, Children, Closes, Whole, Evidenced, Verdict, AllIssued,
        IssuedCommands, Complete;
      FullWithin(plan);
      SuccessVerdict(base, plan, r, seen);
      var a := Full(plan).(seen := seen);
      TidyWithin(plan, a);
      SameIssue(plan, seen);
    }

    lemma SameIssue(plan: Plan, seen: seq<Seen>)
      requires AllHelm(plan.helm) && WithinPlan(plan, Full(plan)) && WithinPlan(plan, Full(plan).(seen := seen))
      ensures IssuedCommands(plan, Full(plan).(seen := seen)) == IssuedCommands(plan, Full(plan))
    {
    }

    lemma SuccessVerdict(base: Record, plan: Plan, r: Outcome, seen: seq<Seen>)
      requires PlanOk(Rollbacks(base), plan) && r.Returned? && r.status.Succeeded?
      requires world.Known(r.record) && Newest(r.record) && r.record.status.Succeeded?
      requires |seen| == |plan.pairs| && AllServed(argv, plan.pairs, seen, |seen|)
      requires ServedUpTo(Credited(base, plan), r.record, plan.pairs, |plan.pairs|, seen)
      requires Tidy(argv, plan, Full(plan).(seen := seen))
      ensures WithinPlan(plan, Full(plan).(seen := seen)) && Verdict(base, plan, r, Full(plan).(seen := seen))
    {
      hide World.Known, Planning, UndoCommands, RestoredAll, AllZero, ServedUpTo, Rollbacks, DistinctTargets,
        ProbeCommands, Covered, PairsFit, ForwardPairs, Zeros, Passed, Increasing, Tidy, AllServed, Whole, Evidenced,
        IssuedCommands;
      FullWithin(plan);
      TidyWithin(plan, Full(plan).(seen := seen));
      SameIssue(plan, seen);
      if seen == [] {
        ServedEvidence(base, plan, r.record, seen);
        SuccessEvidence(base, plan, r.record);
      }
    }

    lemma ServedEvidence(base: Record, plan: Plan, u: Record, seen: seq<Seen>)
      requires AllHelm(plan.helm) && ForwardPairs(plan.pairs) && |seen| == |plan.pairs|
      requires ServedUpTo(Credited(base, plan), u, plan.pairs, |plan.pairs|, seen)
      ensures u.evidence == Credited(base, plan).evidence
    {
      hide Passed, Whole;
    }

    lemma SuccessEvidence(base: Record, plan: Plan, u: Record)
      requires AllHelm(plan.helm) && (u.evidence == Credited(base, plan).evidence || Along(base, u, Whole(plan)))
      ensures Evidenced(base.evidence, u.evidence, Whole(plan), Zeros(Whole(plan)))
    {
      hide Whole, Zeros, Passed, Evidenced;
      ZerosEvidenced(base.evidence, Whole(plan));
    }

    lemma ForwardReady(t: Trace, releases0: map<Release, Content>, base: Record, record: Record, plan: Plan)
      requires PlanOk(Rollbacks(base), plan) && t == world.trace
      requires Stage(releases0, base, record, Whole(plan), plan.helm)
      requires plan.helm != [] ==> Opened(t)
      ensures world.Valid() && world.Known(record) && faultsBefore <= world.faults
      ensures Made(t, Whole(plan), Zeros(Whole(plan))) && Childless(t) && Along(base, record, Whole(plan))
      ensures SameOutside(releases0, world.releases, ReleasesOf(plan.helm))
      ensures Disciplined(t) && Children(t) == Closes(t) && AllStopped(record.forwards) && ForwardPairs(plan.pairs)
      ensures record.forwards == [] && record.tls == [] && Rollbacks(record) == Rollbacks(base)
      ensures AllHelm(plan.helm) && Covered(Rollbacks(base), plan.helm) && PairsFit(plan.pairs)
      ensures CanUndo(t, Rollbacks(base), plan.helm)
      ensures Unrecorded(earlier, plan) ==> NoneRecorded(earlier, UndoCommands(plan.helm))
      ensures PortForwardIntent in Transitions(Approved) && PortForwardIntent in Transitions(ServerDryRunPassed)
      ensures PortForwardIntent in Transitions(Probing)
    {
      hide World.Valid, World.Known, SameOutside, ReleasesOf, UndoCommands, Opened, Disciplined, Commands, Outcomes,
        UndoFresh, ProbeCommands, Zeros, Passed, PairsFit, Increasing, Planning, Covered, DistinctTargets, Whole,
        Extends, Made, CanUndo, Unrecorded, NoneRecorded;
      hide Children, Closes, Sights;
      MadeMeans(t, Whole(plan), Zeros(Whole(plan)));
      WholeCanUndo(t, Rollbacks(base), plan);
      if Unrecorded(earlier, plan) {
        UnrecordedUndo(earlier, plan, |plan.helm|);
        assert plan.helm[..|plan.helm|] == plan.helm;
      }
    }

    lemma WholeCanUndo(t: Trace, rollbacks: seq<ReleaseSnapshot>, plan: Plan)
      requires PlanOk(rollbacks, plan) && Commands(t) == Whole(plan)
      requires plan.helm != [] ==> Opened(t)
      ensures CanUndo(t, rollbacks, plan.helm)
    {
      hide Opened, Commands, UndoFresh, ProbeCommands, PairsFit, ForwardPairs, Increasing, Planning, Covered,
        DistinctTargets;
      if plan.helm != [] {
        PlanCanUndo(t, rollbacks, plan, |plan.helm|, |ProbeCommands(plan.helm)|);
        assert plan.helm[..|plan.helm|] == plan.helm;
      }
    }

    /** A phase that ends because a status write was not acknowledged. */
    lemma Unwritten(releases0: map<Release, Content>, base: Record, plan: Plan, d: nat, m: nat, q: nat)
      requires PlanOk(Rollbacks(base), plan)
      requires d <= |plan.dry| && m <= |plan.helm| && q <= |ProbeCommands(plan.helm)|
      requires (m > 0 ==> d == |plan.dry|) && (q > 0 ==> m == |plan.helm| > 0)
      requires var commands := Planning(plan.dry, plan.helm, d, m, q);
               Issued(releases0, commands, Zeros(commands), plan.helm[..m])
      requires world.faults > faultsBefore
      ensures var a := Account(d, m, q, Zeros(Planning(plan.dry, plan.helm, d, m, q)), [], []);
              && Finished(releases0, base, plan, StoreRaised, a)
              && (d == |plan.dry| ==> Dried(plan, a)) && !Fails(a.results)
    {
      hide World.Valid, World.Known, Extends, Made, SameOutside, ReleasesOf, Planning, UndoCommands, Opened,
        Disciplined, Steady, NoneRecorded, RestoredAll, AllZero, IssuedCommands, ServedUpTo, Complete, Rollbacks,
        DistinctTargets, UndoFresh, Commands, Finished, Ended, Outcomes, ProbeCommands, CanUndo, Covered, PairsFit,
        ForwardPairs, Zeros, Passed, Increasing, Issued, Tidy, Exact, Fails, Undoes, Dried;
      var commands := Planning(plan.dry, plan.helm, d, m, q);
      var a := Account(d, m, q, Zeros(commands), [], []);
      NoFailure(plan, a, commands);
      if d == |plan.dry| {
        assert Zeros(commands) + [] == Zeros(commands);
        DriedBy(plan, a, m, q, []);
      }
      FinishedPlainly(releases0, base, plan, StoreRaised, a);
    }

    /** The last transition of an execution without forwards. */
    method Succeed(ghost releases0: map<Release, Content>, ghost base: Record, record: Record, plan: Plan)
      returns (r: Outcome, ghost a: Account)
      requires PlanOk(Rollbacks(base), plan) && plan.pairs == [] && plan.helm != [] && !Unprepared(base, plan)
      requires ProbingAt(releases0, base, record, plan, |ProbeCommands(plan.helm)|)
      modifies world
      ensures world.Onward(old(world.cursor), old(world.clock))
      ensures old(world.history) <= world.history
      ensures Finished(releases0, base, plan, r, a) && Dried(plan, a) && a.m == |plan.helm|
      ensures old(Steady(record)) ==> r.Returned? && QuietEnd(old(world.faults), r, a)
    {
      hide World.Valid, World.Known, Extends, Made, SameOutside, ReleasesOf, Planning, UndoCommands, Opened,
        Disciplined, Steady, NoneRecorded, RestoredAll, AllZero, IssuedCommands, ServedUpTo, Complete, Rollbacks,
        DistinctTargets, UndoFresh, Commands, Finished, Ended, Outcomes, ProbeCommands, CanUndo, Covered, PairsFit,
        ForwardPairs, Zeros, Passed, Increasing, Whole, Tidy, Exact, Dried, Fails, Overfull, AllSights, Sights,
        Children, Closes;
      FullWithin(plan);
      ServedNothing(base, record, plan);
      assert Succeeded in Transitions(Probing);
      var w := Move(releases0, base, record, Whole(plan), Zeros(Whole(plan)), plan.helm, Succeeded);
      a := Full(plan);
      IssuedValid(releases0, Whole(plan), Zeros(Whole(plan)), plan.helm);
      if w.None? {
        FinishedPlainly(releases0, base, plan, StoreRaised, a);
        return StoreRaised, a;
      }
      ServedNothing(base, w.value, plan);
      r := Returned(w.value, w.value.status);
      DoneExact(base, plan, r);
      NothingSeen(plan);
      IssuedMeans(releases0, Whole(plan), Zeros(Whole(plan)), plan.helm);
      SuccessFinishes(releases0, base, plan, r, []);
    }

    lemma IssuedMeans(releases0: map<Release, Content>, commands: seq<Command>, outcomes: seq<CommandOutcome>,
                      started: seq<Planned>)
      requires AllHelm(started) && Issued(releases0, commands, outcomes, started)
      ensures Made(world.trace, commands, outcomes) && Sights(world.trace) == []
      ensures Children(world.trace) == Closes(world.trace)
      ensures SameOutside(releases0, world.releases, ReleasesOf(started))
    {
    }

    /** No pairs, and everything else succeeded. */
    lemma DoneExact(base: Record, plan: Plan, r: Outcome)
      requires AllHelm(plan.helm) && plan.pairs == [] && !Unprepared(base, plan)
      requires Tidy(argv, plan, Full(plan)) && !Fails(Full(plan).results)
      requires r.Returned?
      requires r.status == if plan.helm != [] then Succeeded
                           else if base.status.Approved? && plan.dry != [] then ServerDryRunPassed else base.status
      ensures Exact(argv, base, plan, r, Full(plan)) && Full(plan).(seen := []) == Full(plan)
      ensures AllServed(argv, plan.pairs, [], 0)
    {
      hide Planning, ProbeCommands, AllHelm, VerdictOn, Zeros, Whole;
    }

    lemma ServedNothing(base: Record, record: Record, plan: Plan)
      requires AllHelm(plan.helm) && plan.pairs == [] && Along(base, record, Whole(plan))
      ensures ServedUpTo(Credited(base, plan), record, plan.pairs, |plan.pairs|, [])
      ensures record.forwards == []
    {
      hide Whole, Passed;
    }

    /** From SERVER_DRY_RUN_PASSED on: the mutation boundary, the upgrades, the probes, the forwards. */
    method RunUpgrades(ghost releases0: map<Release, Content>, ghost base: Record, record: Record, plan: Plan)
      returns (r: Outcome, ghost a: Account)
      requires PlanOk(Rollbacks(base), plan) && record.status.ServerDryRunPassed? && plan.helm != []
      requires Stage(releases0, base, record, Planning(plan.dry, plan.helm, |plan.dry|, 0, 0), plan.helm[..0])
      requires !Unprepared(base, plan)
      modifies world
      ensures world.Onward(old(world.cursor), old(world.clock))
      ensures old(world.history) <= world.history
      ensures Finished(releases0, base, plan, r, a) && Dried(plan, a)
      ensures a.m > 0 ==> |world.history| > |old(world.history)|
      ensures old(Steady(record)) ==> a.m > 0
      ensures old(Steady(record)) && Unrecorded(earlier, plan) ==> QuietEnd(old(world.faults), r, a)
    {
      hide World.Valid, World.Known, Extends, Made, SameOutside, ReleasesOf, Planning, UndoCommands, Opened,
        Disciplined, Steady, NoneRecorded, RestoredAll, AllZero, IssuedCommands, ServedUpTo, Complete, Rollbacks,
        DistinctTargets, UndoFresh, Commands, Finished, Ended, Outcomes, ProbeCommands, CanUndo, Covered, PairsFit,
        ForwardPairs, Zeros, Passed, Increasing, Unrecorded, QuietEnd, Dried, Fails;
      AlongFacts(base, record, record, Planning(plan.dry, plan.helm, |plan.dry|, 0, 0));
      ghost var dried := Planning(plan.dry, plan.helm, |plan.dry|, 0, 0);
      assert MutationStarted in Transitions(ServerDryRunPassed);
      var w := Move(releases0, base, record, dried, Zeros(dried), plan.helm[..0], MutationStarted);
      if w.None? {
        Unwritten(releases0, base, plan, |plan.dry|, 0, 0);
        return StoreRaised, Account(|plan.dry|, 0, 0, Zeros(dried), [], []);
      }
      var p;
      p, a := RunMutations(releases0, base, w.value, plan);
      if p.Halt? {
        return p.outcome, a;
      }
      r, a := ProbeAndForward(releases0, base, p.record, plan);
    }

    /** Behind the last upgrade. */
    method ProbeAndForward(ghost releases0: map<Release, Content>, ghost base: Record, record: Record, plan: Plan)
      returns (r: Outcome, ghost a: Account)
      requires PlanOk(Rollbacks(base), plan) && record.status.MutationStarted? && Opened(world.trace)
      requires Stage(releases0, base, record, Planning(plan.dry, plan.helm, |plan.dry|, |plan.helm|, 0), plan.helm)
      requires plan.helm != [] && !Unprepared(base, plan)
      modifies world
      ensures world.Onward(old(world.cursor), old(world.clock))
      ensures old(world.history) <= world.history
      ensures Finished(releases0, base, plan, r, a) && Dried(plan, a) && a.m > 0
      ensures old(Steady(record)) && Unrecorded(earlier, plan) ==> QuietEnd(old(world.faults), r, a)
    {
      hide World.Valid, World.Known, Extends, Made, SameOutside, ReleasesOf, Planning, UndoCommands, Opened,
        Disciplined, Steady, NoneRecorded, RestoredAll, AllZero, IssuedCommands, ServedUpTo, Complete, Rollbacks,
        DistinctTargets, UndoFresh, Commands, Finished, Ended, Outcomes, ProbeCommands, CanUndo, Covered, PairsFit,
        ForwardPairs, Zeros, Passed, Increasing, Unrecorded, QuietEnd, Dried, Fails, Tidy, Whole;
      ghost var done := Planning(plan.dry, plan.helm, |plan.dry|, |plan.helm|, 0);
      assert plan.helm[..|plan.helm|] == plan.helm;
      AlongFacts(base, record, record, done);
      assert Mutated in Transitions(MutationStarted) && Probing in Transitions(Mutated);
      a := Account(|plan.dry|, |plan.helm|, 0, Zeros(done), [], []);
      var w := Move(releases0, base, record, done, Zeros(done), plan.helm, Mutated);
      if w.None? {
        Unwritten(releases0, base, plan, |plan.dry|, |plan.helm|, 0);
        return StoreRaised, a;
      }
      AlongFacts(base, w.value, w.value, done);
      w := Move(releases0, base, w.value, done, Zeros(done), plan.helm, Probing);
      if w.None? {
        Unwritten(releases0, base, plan, |plan.dry|, |plan.helm|, 0);
        return StoreRaised, a;
      }
      var p;
      p, a := RunProbes(releases0, base, w.value, plan);
      if p.Halt? {
        return p.outcome, a;
      }
      FullWithin(plan);
      if plan.pairs != [] {
        r, a := ForwardPhase(releases0, base, p.record, plan);
      } else {
        r, a := Succeed(releases0, base, p.record, plan);
      }
    }

    /** The launched part of `_execute_loaded_record`, for an accepted plan.  An APPROVED row in a quiet
        journal whose dry-runs all succeed gets to its upgrades exactly when it does not hold the evidence of
        one of them already. */
    method RunPlan(base: Record, plan: Plan) returns (r: Outcome, ghost a: Account)
      requires PlanOk(Rollbacks(base), plan)
      requires base.status.Approved? || (base.status.ServerDryRunPassed? && plan.dry == [])
      requires world.Valid() && world.Known(base) && Newest(base) && Unstarted(world.trace)
      requires world.faults == faultsBefore
      requires base.forwards == [] && base.tls == []
      modifies world
      ensures world.Onward(old(world.cursor), old(world.clock))
      ensures old(world.history) <= world.history
      ensures Finished(old(world.releases), base, plan, r, a)
      ensures base.status.Approved? ==> Answered(old(world.cursor), a)
      ensures Footprint(old(world.history), a)
      ensures base.status.Approved? && !NoneRecorded(base.evidence, DryCommands(plan.dry)) ==>
                a.m == 0 && (r.Returned? ==> r.status.Failed?)
      ensures old(Steady(base)) && Unrecorded(earlier, plan) ==> QuietEnd(faultsBefore, r, a)
      ensures old(Steady(base)) && Upgradable(base, plan) && AllDryRunsPass(old(world.cursor), plan) ==>
                (a.m > 0 <==> NoneRecorded(base.evidence, DryCommands(plan.dry)))
    {
      hide World.Valid, World.Known, Extends, Made, SameOutside, ReleasesOf, Planning, UndoCommands, Opened,
        Disciplined, Steady, NoneRecorded, RestoredAll, AllZero, IssuedCommands, ServedUpTo, Complete, Rollbacks,
        DistinctTargets, UndoFresh, Commands, Finished, Ended, Outcomes, ProbeCommands, CanUndo, Covered, PairsFit,
        ForwardPairs, Zeros, Passed, Increasing, Unrecorded, QuietEnd, Fails, Heard, DryCommands, Tidy, Answered,
        AllDryRunsPass, Footprint;
      ghost var releases0, c0, h0 := world.releases, world.cursor, world.history;
      ghost var decided := Steady(base) && Upgradable(base, plan) && AllDryRunsPass(c0, plan);
      StageAtFirst(base, plan);
      DryPart(plan);
      var record := base;
      if base.status.Approved? {
        var p;
        p, a := RunDryRuns(releases0, base, plan);
        if p.Halt? {
          if decided && NoneRecorded(base.evidence, DryCommands(plan.dry)) {
            DryRunsPassed(c0, releases0, base, plan, p.outcome, a);
          }
          return p.outcome, a;
        }
        record := p.record;
        ghost var dried := Planning(plan.dry, plan.helm, |plan.dry|, 0, 0);
        AlongFacts(base, record, record, dried);
        if plan.dry != [] {
          assert ServerDryRunPassed in Transitions(Approved);
          var w := Move(releases0, base, record, dried, Zeros(dried), plan.helm[..0], ServerDryRunPassed);
          if w.None? {
            Unwritten(releases0, base, plan, |plan.dry|, 0, 0);
            a := Account(|plan.dry|, 0, 0, Zeros(dried), [], []);
            DryAnswers(c0, base, plan, a, h0);
            return StoreRaised, a;
          }
          record := w.value;
        }
      }
      r, a := RunRest(releases0, base, record, plan);
      if Unprepared(base, plan) {
        NothingAnswered(c0, h0);
      } else {
        DryAnswers(c0, base, plan, a, h0);
      }
    }

    /** An approved row with something to dry-run and something to upgrade, whose evidence is what was known
        before, with room for the dry-runs. */
    ghost predicate Upgradable(base: Record, plan: Plan) {
      && base.status.Approved? && base.evidence == earlier && plan.dry != [] && plan.helm != []
      && |earlier| + |plan.dry| <= 200
    }

    /** The answers to the dry-runs are all successes. */
    ghost predicate AllDryRunsPass(c: nat, plan: Plan) {
      forall k | 0 <= k < |plan.dry| :: Heard(world.script(c + 3 * k)) == Completed(0)
    }

    /** All dry-runs succeeded, so their answers were successes. */
    lemma DryAnswers(c: nat, base: Record, plan: Plan, a: Account, h0: seq<Record>)
      requires Dried(plan, a) && (plan.dry != [] ==> AllDryRunsPass(c, plan))
      requires plan.dry != [] || a.m > 0 ==> |world.history| > |h0|
      ensures Answered(c, a) && Footprint(h0, a)
    {
      hide Heard;
      if a.d == 1 {
        assert a.results[0] == Completed(0);
      }
    }

    lemma NothingAnswered(c: nat, h0: seq<Record>)
      ensures Answered(c, Account(0, 0, 0, [], [], [])) && Footprint(h0, Account(0, 0, 0, [], [], []))
    {
    }

    /** Dry-runs that all succeed halt a quiet execution only when their evidence does not fit. */
    lemma DryRunsPassed(c: nat, releases0: map<Release, Content>, base: Record, plan: Plan, r: Outcome, a: Account)
      requires PlanOk(Rollbacks(base), plan) && Finished(releases0, base, plan, r, a)
      requires a.m == 0 && |a.results| == a.d && Answered(c, a) && AllDryRunsPass(c, plan)
      requires QuietEnd(faultsBefore, r, a) && (Fails(a.results) || world.faults > faultsBefore)
      ensures |earlier| + |plan.dry| > 200
    {
      hide World.Valid, SameOutside, ReleasesOf, Planning, UndoCommands, Disciplined, Rollbacks, DistinctTargets,
        Commands, IssuedCommands, Outcomes, ProbeCommands, Covered, PairsFit, ForwardPairs, Increasing, Exact,
        Verdict, AllSights, Sights, Children, Closes, Heard, Undoes, AllServed;
      assert a.results + a.outs == a.results;
      PassedResults(c, plan, a);
    }

    lemma PassedResults(c: nat, plan: Plan, a: Account)
      requires Answered(c, a) && AllDryRunsPass(c, plan) && |a.results| == a.d <= |plan.dry|
      ensures !Fails(a.results)
    {
      if a.d > 0 {
        assert a.results[a.d - 1] == Heard(world.script(c + 3 * (a.d - 1)));
      }
    }

    lemma DryPart(plan: Plan)
      requires AllHelm(plan.helm)
      ensures Unrecorded(earlier, plan) ==> NoneRecorded(earlier, DryCommands(plan.dry))
    {
      PlanningSize(plan);
      forall c | c in DryCommands(plan.dry)
        ensures c in Whole(plan) + UndoCommands(plan.helm)
      {
        assert c in DryCommands(plan.dry)[..|plan.dry|];
      }
    }

    /** Behind the dry-runs. */
    method RunRest(ghost releases0: map<Release, Content>, ghost base: Record, record: Record, plan: Plan)
      returns (r: Outcome, ghost a: Account)
      requires PlanOk(Rollbacks(base), plan) && base.status in {Approved, ServerDryRunPassed}
      requires record.status == if base.status.Approved? && plan.dry != [] then ServerDryRunPassed else base.status
      requires Stage(releases0, base, record, Planning(plan.dry, plan.helm, |plan.dry|, 0, 0), plan.helm[..0])
      modifies world
      ensures world.Onward(old(world.cursor), old(world.clock))
      ensures old(world.history) <= world.history
      ensures Finished(releases0, base, plan, r, a) && (!Unprepared(base, plan) ==> Dried(plan, a))
      ensures a.m > 0 ==> |world.history| > |old(world.history)|
      ensures Unprepared(base, plan) ==> a == Account(0, 0, 0, [], [], [])
      ensures old(Steady(record)) && plan.helm != [] && !Unprepared(base, plan) ==> a.m > 0
      ensures old(Steady(record)) && Unrecorded(earlier, plan) ==> QuietEnd(old(world.faults), r, a)
    {
      hide World.Valid, World.Known, Extends, Made, SameOutside, ReleasesOf, Planning, UndoCommands, Opened,
        Disciplined, Steady, NoneRecorded, RestoredAll, AllZero, IssuedCommands, ServedUpTo, Complete, Rollbacks,
        DistinctTargets, UndoFresh, Commands, Finished, Ended, Outcomes, ProbeCommands, CanUndo, Covered, PairsFit,
        ForwardPairs, Zeros, Passed, Increasing, Whole, Unrecorded, Tidy, Exact, Dried, Fails, Overfull;
      IssuedValid(releases0, Planning(plan.dry, plan.helm, |plan.dry|, 0, 0),
                  Zeros(Planning(plan.dry, plan.helm, |plan.dry|, 0, 0)), plan.helm[..0]);
      if Steady(record) {
        SteadyIsLatest(record);
      }
      if plan.helm == [] {
        NoUpgrades(plan);
        if plan.pairs != [] {
          r, a := ForwardPhase(releases0, base, record, plan);
        } else {
          a := Full(plan);
          r := Returned(record, record.status);
          NothingMutated(releases0, base, record, plan);
        }
        return;
      }
      if !record.status.ServerDryRunPassed? {
        a := Account(0, 0, 0, [], [], []);
        TurnedDown(releases0, base, plan);
        return RunnerRaised, a;
      }
      r, a := RunUpgrades(releases0, base, record, plan);
    }

    /** Upgrades without dry-runs are turned down before anything is issued. */
    lemma TurnedDown(releases0: map<Release, Content>, base: Record, plan: Plan)
      requires PlanOk(Rollbacks(base), plan) && Unprepared(base, plan)
      requires var commands := Planning(plan.dry, plan.helm, |plan.dry|, 0, 0);
               Issued(releases0, commands, Zeros(commands), plan.helm[..0])
      ensures Finished(releases0, base, plan, RunnerRaised, Account(0, 0, 0, [], [], []))
    {
      hide World.Valid, SameOutside, Made, Finished, Planning, PlanOk, Rollbacks;
      var a := Account(0, 0, 0, [], [], []);
      assert AllHelm(plan.helm) by { PlanHelm(Rollbacks(base), plan); }
      PlanningNone(plan);
      assert Zeros([]) == [];
      NoFailure(plan, a, []);
      FinishedPlainly(releases0, base, plan, RunnerRaised, a);
    }

    lemma PlanHelm(rollbacks: seq<ReleaseSnapshot>, plan: Plan)
      requires PlanOk(rollbacks, plan)
      ensures AllHelm(plan.helm)
    {
    }

    lemma StageAtFirst(base: Record, plan: Plan)
      requires PlanOk(Rollbacks(base), plan) && faultsBefore <= world.faults
      requires world.Valid() && world.Known(base) && Newest(base) && Unstarted(world.trace)
      requires base.forwards == [] && base.tls == []
      ensures Stage(world.releases, base, base, [], plan.helm[..0])
      ensures plan.dry == [] ==>
                Stage(world.releases, base, base, Planning(plan.dry, plan.helm, |plan.dry|, 0, 0), plan.helm[..0])
    {
      hide World.Valid, World.Known, DistinctTargets, Covered, PairsFit, ForwardPairs, Increasing, Planning;
      PlanningNone(plan);
      SameOutsideSelf(world.releases, plan.helm[..0]);
      assert base.evidence + [] == base.evidence;
    }

    lemma NoUpgrades(plan: Plan)
      requires AllHelm(plan.helm) && plan.helm == []
      ensures Planning(plan.dry, plan.helm, |plan.dry|, 0, 0) == Whole(plan)
      ensures plan.helm[..0] == plan.helm && Dried(plan, Full(plan))
    {
      FullWithin(plan);
    }

    lemma NothingMutated(releases0: map<Release, Content>, base: Record, record: Record, plan: Plan)
      requires PlanOk(Rollbacks(base), plan) && plan.helm == [] && plan.pairs == []
      requires record.status in {Approved, ServerDryRunPassed}
      requires record.status == if base.status.Approved? && plan.dry != [] then ServerDryRunPassed else base.status
      requires Stage(releases0, base, record, Whole(plan), plan.helm)
      ensures Finished(releases0, base, plan, Returned(record, record.status), Full(plan))
    {
      FullWithin(plan);
      DoneExact(base, plan, Returned(record, record.status));
      NothingSeen(plan);
      SuccessEvidence(base, plan, record);
      hide World.Valid, World.Known, Extends, Made, SameOutside, ReleasesOf, Planning, UndoCommands, Opened,
        Disciplined, RestoredAll, AllZero, ServedUpTo, Complete, Rollbacks, DistinctTargets, Commands, IssuedCommands,
        Outcomes, ProbeCommands, Covered, PairsFit, ForwardPairs, Zeros, Passed, Increasing, Whole, Along, Tidy,
        Exact, AllSights, Evidenced;
    }

    // -------------------------------------------------------------------------------------------
    // Admission

    /** The checks of `_validate_launch` that compare the operation, the journal and the configuration. */
    predicate LaunchAgrees(op: Operation, record: Record) {
      && record.identity.target == op.target && record.identity.operation == op.manifest.operationId
      && record.identity.step == op.step && record.identity.config == config
      && record.identity.manifest == op.digest
      && record.actions == StaticDigests(op.manifest.actions, digest)
      && record.snapshot.Some? && record.approval.Some?
      && record.snapshot.value.toolchain == toolchain
      && RollbackExact(op.manifest.actions, record.snapshot.value.rollbacks)
    }

    method ValidateLaunch(op: Operation, record: Record) returns (ok: bool)
      modifies world`cursor
      ensures ok <==> LaunchAgrees(op, record) && world.script(old(world.cursor)).inspected
      ensures world.cursor == old(world.cursor) + 1
      ensures old(Steady(record)) ==> Steady(record)
    {
      hide RollbackExact, StaticDigests;
      var inspected := world.Inspect();
      ok := inspected && LaunchAgrees(op, record);
    }

    /** The actions the approval lets through. */
    function ApprovedPart(op: Operation, record: Record): seq<Planned>
      requires record.approval.Some?
    {
      Kept(op.manifest.actions, AllowedMap(record.approval.value.allowed).Keys, |op.manifest.actions|)
    }

    /** When an approval is accepted and its actions are ordered as the runner demands. */
    predicate Launchable(op: Operation, record: Record) {
      && LaunchAgrees(op, record)
      && var a := op.manifest.actions;
         var approved := AllowedMap(record.approval.value.allowed);
         var s := ApprovedPart(op, record);
         && DigestsAgree(a, approved, digest, |a|) && PairsApproved(a, approved.Keys, |a|) && s != []
         && LinkedUpTo(s, |s|)
         && (PairsUpTo(s, |s|) != [] ==> adapters)
         && (record.status.Approved? && Helms(s) != [] ==> DryRuns(s) != [])
         && DryRunsLead(s)
    }

    /** The plan of an accepted launch. */
    function PlanFor(op: Operation, record: Record): Plan
      requires record.approval.Some? && LinkedUpTo(ApprovedPart(op, record), |ApprovedPart(op, record)|)
    {
      var s := ApprovedPart(op, record);
      Plan(if record.status.Approved? then DryRuns(s) else [], Helms(s), PairsUpTo(s, |s|))
    }

    /** Everything `_execute_loaded_record` checks before its first command. */
    method Prepare(op: Operation, record: Record) returns (r: Option<Plan>)
      modifies world`cursor
      ensures r.Some? <==> Launchable(op, record) && world.script(old(world.cursor)).inspected
      ensures r.Some? ==> r.value == PlanFor(op, record)
      ensures world.cursor == old(world.cursor) + 1
      ensures old(Steady(record)) ==> Steady(record)
    {
      hide Steady, NoneRecorded, LaunchAgrees, DigestsAgree, PairsApproved, LinkedUpTo, PairsUpTo, DryRunsLead,
        DryRuns, Helms, Kept, AllowedMap;
      var ok := ValidateLaunch(op, record);
      AgreesHasApproval(op, record);
      if !ok {
        return None;
      }
      var kept := ApprovedActions(op.manifest.actions, AllowedMap(record.approval.value.allowed), digest);
      if kept.Rejected? {
        return None;
      }
      var pairs := PortForwardPairs(kept.actions);
      if pairs.Unlinked? || (pairs.pairs != [] && !adapters) {
        return None;
      }
      var dry, helm := DryRuns(kept.actions), Helms(kept.actions);
      if helm != [] && dry == [] && record.status.Approved? {
        return None;
      }
      if !DryRunsLead(kept.actions) {
        return None;
      }
      return Some(Plan(if record.status.Approved? then dry else [], helm, pairs.pairs));
    }

    lemma AgreesHasApproval(op: Operation, record: Record)
      ensures LaunchAgrees(op, record) ==> record.approval.Some?
    {
    }

    /** An accepted launch of a valid manifest can rely on its plan. */
    lemma LaunchPlan(op: Operation, record: Record)
      requires DeclaredScope(op.manifest) && ValidRecord(record) && Launchable(op, record)
      ensures record.approval.Some? && LinkedUpTo(ApprovedPart(op, record), |ApprovedPart(op, record)|)
      ensures PlanOk(Rollbacks(record), PlanFor(op, record))
      ensures record.status.Approved? && PlanFor(op, record).helm != [] ==> PlanFor(op, record).dry != []
    {
      hide DigestsAgree, PairsApproved, LinkedUpTo, PairsUpTo, DryRunsLead, DryRuns, Helms, Kept, AllowedMap, PlanOk,
        RollbackExact, PairedScope, DistinctActions, ValidForwards, ValidBindings, DistinctEvidence, DistinctProbes;
      assert |op.manifest.actions| == |StaticDigests(op.manifest.actions, digest)| <= 20;
      PlanFacts(op.manifest.actions, AllowedMap(record.approval.value.allowed).Keys, Rollbacks(record));
    }

    // -------------------------------------------------------------------------------------------
    // Execution

    /** A record whose execution may be started. */
    predicate Launches(s: Status) { s in {Approved, ServerDryRunPassed} }

    /** A record that is not launched: nothing is issued, spawned or closed, at most its status is
        written, and the answer is the recovery disposition. */
    ghost predicate Unlaunched(t0: Trace, releases0: map<Release, Content>, record: Record, r: Outcome)
      reads world
    {
      && world.Valid() && world.releases == releases0
      && OneWrite(t0, world.trace) && Disciplined(world.trace)
      && match record.status
         case PortForwardIntent => ReconciledNow(r)
         case PortForwardStarted => ReconciledNow(r)
         case TlsDc8Probing => ReconciledNow(r)
         case MutationStarted => r == Returned(record, ReconciliationRequired) && world.trace == t0
         case Probing => r == Returned(record, ReconciliationRequired) && world.trace == t0
         case RollbackStarted => r == Returned(record, ReconciliationRequired) && world.trace == t0
         case ReconciliationRequired => r == Returned(record, ReconciliationRequired) && world.trace == t0
         case Succeeded => r == Returned(record, Succeeded) && world.trace == t0
         case RolledBack => r == Returned(record, RolledBack) && world.trace == t0
         case Failed => r == Returned(record, Failed) && world.trace == t0
         case _ => r.RunnerRaised? && world.trace == t0
    }

    ghost predicate ReconciledNow(r: Outcome)
      reads world
    {
      !r.RunnerRaised? && (r.Returned? ==> world.Known(r.record) && IsReconciled(r))
    }

    /** `_execute_loaded_record` for the statuses it does not launch. */
    method Recover(record: Record) returns (r: Outcome)
      requires world.Valid() && world.Known(record) && Unstarted(world.trace)
      requires !Launches(record.status)
      modifies world
      ensures world.Onward(old(world.cursor), old(world.clock))
      ensures old(world.history) <= world.history && Unlaunched(old(world.trace), old(world.releases), record, r)
    {
      hide World.Valid, World.Known, Steady, NoneRecorded, Extends, Made, SameChildren;
      MadeMeans(world.trace, [], []);
      if Recovery(record.status).ReconciliationRequired? {
        if record.status in {PortForwardIntent, PortForwardStarted, TlsDc8Probing} {
          ghost var t0 := world.trace;
          r := Reconcile();
          ExtendsMeans(t0, world.trace, [], []);
        } else {
          r := Returned(record, Recovery(record.status));
        }
      } else if record.status in {Succeeded, RolledBack, Failed} {
        r := Returned(record, record.status);
      } else {
        r := RunnerRaised;
      }
    }

    /** What `_execute_loaded_record` promises for a record it may launch, when the environment is inspected
        with request `c` and the first dry-run is request `c + 1`. */
    ghost predicate Launched(t0: Trace, releases0: map<Release, Content>, op: Operation, record: Record, c: nat,
                             r: Outcome, plan: Plan, a: Account)
      reads world
    {
      if Launchable(op, record) && world.script(c).inspected then
        && plan == PlanFor(op, record) && PlanOk(Rollbacks(record), plan) && !Unprepared(record, plan)
        && Finished(releases0, record, plan, r, a)
        && (record.status.Approved? ==> Answered(c + 1, a))
      else
        r.RunnerRaised? && world.Valid() && world.trace == t0 && world.releases == releases0
    }

    /** What the journal shows of it: nothing is written when it is not launched. */
    ghost predicate Written(h0: seq<Record>, op: Operation, record: Record, c: nat, a: Account)
      reads world`history, world`faults
    {
      if Launchable(op, record) && world.script(c).inspected then Footprint(h0, a)
      else world.history == h0 && world.faults == faultsBefore
    }

    /** No planned command and no rollback is recorded already. */
    ghost predicate Afresh(op: Operation, record: Record) {
      Launchable(op, record) ==> Unrecorded(earlier, PlanFor(op, record))
    }

    /** `_execute_loaded_record` for a record that it may launch. */
    method Start(op: Operation, record: Record) returns (r: Outcome, ghost plan: Plan, ghost a: Account)
      requires world.Valid() && world.Known(record) && Newest(record) && Unstarted(world.trace)
      requires DeclaredScope(op.manifest) && Launches(record.status) && world.faults == faultsBefore
      modifies world
      ensures world.Onward(old(world.cursor), old(world.clock))
      ensures old(world.history) <= world.history
      ensures Launched(old(world.trace), old(world.releases), op, record, old(world.cursor), r, plan, a)
      ensures Written(old(world.history), op, record, old(world.cursor), a)
      ensures old(Steady(record)) && Afresh(op, record) ==> QuietEnd(faultsBefore, r, a)
    {
      hide World.Valid, Steady, NoneRecorded, Finished, Launchable, PlanFor, PlanOk, DeclaredScope, Rollbacks,
        ValidRecord, Unrecorded, Answered, Footprint, Unprepared;
      ghost var c := world.cursor;
      KnownValid(record);
      KnownBare(record);
      plan, a := Plan([], [], []), Account(0, 0, 0, [], [], []);
      var prepared := Prepare(op, record);
      if prepared.None? {
        if Steady(record) {
          SteadyIsLatest(record);
        }
        return RunnerRaised, plan, a;
      }
      LaunchPlan(op, record);
      plan := PlanFor(op, record);
      ApprovedPlan(op, record);
      PlanHelm(Rollbacks(record), plan);
      r, a := RunPlan(record, prepared.value);
    }

    lemma ApprovedPlan(op: Operation, record: Record)
      requires Launchable(op, record) && Launches(record.status)
      ensures var plan := PlanFor(op, record);
              && (record.status.Approved? || (record.status.ServerDryRunPassed? && plan.dry == []))
              && !Unprepared(record, plan)
    {
      hide DigestsAgree, PairsApproved, LinkedUpTo, PairsUpTo, DryRunsLead, DryRuns, Helms, Kept, AllowedMap,
        LaunchAgrees;
      AgreesHasApproval(op, record);
    }

    lemma KnownBare(record: Record)
      requires world.Valid() && world.Known(record) && Launches(record.status)
      ensures record.forwards == [] && record.tls == []
    {
      EarlyRecordsHoldNoForward(world.history, record.generation - 1);
    }

    /** `_execute_loaded_record`, for the row as it was just loaded. */
    method ExecuteLoaded(op: Operation, record: Record) returns (r: Outcome, ghost plan: Plan, ghost a: Account)
      requires world.Valid() && world.Known(record) && Newest(record) && Unstarted(world.trace)
      requires DeclaredScope(op.manifest) && world.faults == faultsBefore
      modifies world
      ensures world.Onward(old(world.cursor), old(world.clock))
      ensures old(world.history) <= world.history
      ensures Launches(record.status) ==>
                && Launched(old(world.trace), old(world.releases), op, record, old(world.cursor), r, plan, a)
                && Written(old(world.history), op, record, old(world.cursor), a)
      ensures !Launches(record.status) ==> Unlaunched(old(world.trace), old(world.releases), record, r)
      ensures old(Steady(record)) && Launches(record.status) && Afresh(op, record) ==> QuietEnd(faultsBefore, r, a)
    {
      hide World.Valid, Steady, NoneRecorded, Launched, Unlaunched, Launchable, PlanFor, DeclaredScope, Afresh,
        Written;
      if Launches(record.status) {
        r, plan, a := Start(op, record);
      } else {
        r := Recover(record);
        plan, a := Plan([], [], []), Account(0, 0, 0, [], [], []);
      }
    }

    /** `execute`: the same for the row as it is stored now. */
    method Execute(op: Operation)
      returns (r: Outcome, ghost record: Option<Record>, ghost plan: Plan, ghost a: Account)
      requires world.Valid() && Unstarted(world.trace)
      requires DeclaredScope(op.manifest) && world.faults == faultsBefore
      modifies world
      ensures world.Onward(old(world.cursor), old(world.clock))
      ensures old(world.history) <= world.history
      ensures record.None? ==>
                && r.StoreRaised? && world.Valid()
                && world.trace == old(world.trace) && world.releases == old(world.releases)
      ensures record.Some? && Launches(record.value.status) ==>
                Launched(old(world.trace), old(world.releases), op, record.value, old(world.cursor) + 1, r, plan, a)
      ensures record.Some? && !Launches(record.value.status) ==>
                Unlaunched(old(world.trace), old(world.releases), record.value, r)
      ensures old(world.Still()) ==> record == Some(old(Latest()))
      ensures record.Some? && old(Steady(record.value)) && Launches(record.value.status) && Afresh(op, record.value) ==>
                QuietEnd(faultsBefore, r, a)
    {
      hide World.Valid, NoneRecorded, Launched, Unlaunched, Launchable, PlanFor, DeclaredScope, Afresh, Written,
        Accounted, Made;
      var loaded := world.Load();
      record, plan, a := loaded, Plan([], [], []), Account(0, 0, 0, [], [], []);
      if loaded.None? {
        return StoreRaised, record, plan, a;
      }
      r, plan, a := ExecuteLoaded(op, loaded.value);
    }

    /** The row is still the one that was meant. */
    predicate SameRow(a: Record, b: Record) {
      && a.identity.run == b.identity.run && a.identity.operation == b.identity.operation
      && a.identity.revision == b.identity.revision
    }

    /** `execute_record`: the row is read again and must still be the same row; another one is refused. */
    method ExecuteRecord(op: Operation, record: Record)
      returns (r: Outcome, ghost current: Option<Record>, ghost plan: Plan, ghost a: Account)
      requires world.Valid() && Unstarted(world.trace)
      requires DeclaredScope(op.manifest) && world.faults == faultsBefore
      modifies world
      ensures world.Onward(old(world.cursor), old(world.clock))
      ensures old(world.history) <= world.history
      ensures current.None? ==>
                && r.StoreRaised? && world.Valid() && world.trace == old(world.trace)
                && world.releases == old(world.releases)
      ensures current.Some? ==> world.Known(current.value)
      ensures current.Some? && !SameRow(current.value, record) ==>
                && r.RunnerRaised? && world.Valid() && world.trace == old(world.trace)
                && world.releases == old(world.releases)
      ensures current.Some? && SameRow(current.value, record) && Launches(current.value.status) ==>
                && Launched(old(world.trace), old(world.releases), op, current.value, old(world.cursor) + 1, r, plan, a)
      ensures current.Some? && SameRow(current.value, record) && !Launches(current.value.status) ==>
                Unlaunched(old(world.trace), old(world.releases), current.value, r)
      ensures old(world.Still()) ==> current == Some(old(Latest()))
      ensures current.Some? && old(Steady(current.value)) && SameRow(current.value, record) &&
              Launches(current.value.status) ==>
                && Written(old(world.history), op, current.value, old(world.cursor) + 1, a)
                && (Afresh(op, current.value) ==> QuietEnd(faultsBefore, r, a))
    {
      hide World.Valid, NoneRecorded, Launched, Unlaunched, Launchable, PlanFor, DeclaredScope, Unstarted, Afresh,
        Written, Accounted;
      var loaded := world.Load();
      current, plan, a := loaded, Plan([], [], []), Account(0, 0, 0, [], [], []);
      if loaded.None? {
        return StoreRaised, current, plan, a;
      }
      var i, j := loaded.value.identity, record.identity;
      if i.run != j.run || i.operation != j.operation || i.revision != j.revision {
        return RunnerRaised, current, plan, a;
      }
      r, plan, a := ExecuteLoaded(op, loaded.value);
    }

    /** Every returned SUCCEEDED is a durable one, and the trace only grew, without breaking discipline. */
    lemma ReturnedIsDurable(t0: Trace, releases0: map<Release, Content>, op: Operation, record: Record, c: nat,
                            r: Outcome, plan: Plan, a: Account)
      requires Unstarted(t0) && world.Known(record)
      requires Launches(record.status) ==> Launched(t0, releases0, op, record, c, r, plan, a)
      requires !Launches(record.status) ==> Unlaunched(t0, releases0, record, r)
      ensures world.Valid() && origin <= world.trace
      ensures r.Returned? ==> world.Known(r.record)
      ensures r.Returned? && r.status.Succeeded? ==> r.record.status.Succeeded?
      ensures Disciplined(world.trace)
    {
      hide World.Valid, World.Known, SameOutside, ReleasesOf, Planning, UndoCommands, Disciplined, RestoredAll,
        AllZero, IssuedCommands, ServedUpTo, Complete, Rollbacks, DistinctTargets, Commands, Outcomes, ProbeCommands,
        Covered, PairsFit, ForwardPairs, Zeros, Passed, Increasing, Launchable, PlanFor, Along, Whole, Credited, Tidy,
        Exact, Answered, Evidenced, Children, Closes, Sights, AllSights, Unprepared;
    }

    // -------------------------------------------------------------------------------------------
    // What the returned results mean

    lemma PassedSize(commands: seq<Command>)
      ensures |Passed(commands)| == |commands|
    {
    }

    /** SUCCEEDED: every planned dry-run, upgrade and readiness probe was issued and reported success, and
        the durable record holds exactly one success for each, under pairwise distinct identities, besides
        what it held before.  Every pair was served: in order, its child was spawned as asked, was ready,
        gave an accepted probe answer and was confirmed to be closed; and the durable record holds that
        child's identity, STOPPED, and that answer.  So a plan whose evidence does not fit the row never
        ends in SUCCEEDED. */
    lemma SucceededIsComplete(releases0: map<Release, Content>, base: Record, plan: Plan, r: Outcome, a: Account)
      requires PlanOk(Rollbacks(base), plan) && Finished(releases0, base, plan, r, a)
      requires r.Returned? && r.status.Succeeded?
      ensures Commands(world.trace) == Whole(plan) && Outcomes(world.trace) == Zeros(Whole(plan))
      ensures r.record.evidence == base.evidence + Passed(Whole(plan)) && DistinctEvidence(r.record.evidence)
      ensures |base.evidence| + |Whole(plan)| <= 200
      ensures |r.record.tls| == |base.tls| + |plan.pairs| && |r.record.forwards| == |base.forwards| + |plan.pairs|
      ensures |a.seen| == |plan.pairs| && ForwardPairs(plan.pairs)
      ensures Sights(world.trace) == AllSights(plan.pairs, a.seen)
      ensures forall k | 0 <= k < |plan.pairs| ::
                && VerdictOn(argv(plan.pairs[k].forward), a.seen[k]).IsServed?
                && ServedProbe(r.record.tls[|base.tls| + k], plan.pairs[k], a.seen[k])
                && ServedForward(r.record.forwards[|base.forwards| + k], plan.pairs[k], a.seen[k])
    {
      hide World.Valid, Planning, UndoCommands, Whole, Zeros, Passed, RestoredAll, Covered, DistinctTargets,
        Increasing, PairsFit, Disciplined, Commands, Outcomes, ProbeCommands, ServedProbe, ServedForward, ReleasesOf,
        SameOutside, Exact, VerdictOn, AllSights, Sights, Evidenced, Children, Closes;
      KnownValid(r.record);
      TidyWithin(plan, a);
      PlainIssue(plan, a);
      PassedSize(Whole(plan));
      assert a.results + [] == a.results;
    }

    lemma PlainIssue(plan: Plan, a: Account)
      requires AllHelm(plan.helm) && WithinPlan(plan, a) && Complete(plan, a)
      ensures IssuedCommands(plan, a) == Whole(plan) && a.outs == [] && a.results == Zeros(Whole(plan))
    {
      hide Planning, Zeros;
      assert IssuedCommands(plan, a) == Whole(plan) + [];
    }

    /** In a quiet journal the end is exactly the one that the answers demand, unless more results came than
        the row can hold evidence of. */
    lemma QuietlyExact(releases0: map<Release, Content>, base: Record, plan: Plan, r: Outcome, a: Account)
      requires PlanOk(Rollbacks(base), plan) && Finished(releases0, base, plan, r, a)
      requires QuietEnd(faultsBefore, r, a)
      ensures Overfull(world.trace) <==> |earlier| + CountCompleted(a.results + a.outs) > 200
      ensures !Overfull(world.trace) ==> Exact(argv, base, plan, r, a) && world.faults == faultsBefore
    {
      hide World.Valid, SameOutside, ReleasesOf, Planning, UndoCommands, Disciplined, Rollbacks, DistinctTargets,
        Commands, IssuedCommands, ProbeCommands, Covered, PairsFit, ForwardPairs, Increasing, Exact, Verdict,
        AllSights, Sights, Children, Closes, Tidy, CountCompleted;
    }

    /** The plan fits and every answer is good exactly when a quiet execution ends in SUCCEEDED: given that
        every command that was issued reported success and every pair that was tried was served, SUCCEEDED
        is returned if and only if the row has room for the evidence of the whole plan. */
    lemma SucceedsIffItFits(releases0: map<Release, Content>, base: Record, plan: Plan, r: Outcome, a: Account)
      requires PlanOk(Rollbacks(base), plan) && Finished(releases0, base, plan, r, a)
      requires QuietEnd(faultsBefore, r, a) && base.evidence == earlier
      requires Launches(base.status) && !Unprepared(base, plan) && (plan.helm != [] || plan.pairs != [])
      requires AllZero(a.results) && AllServed(argv, plan.pairs, a.seen, |a.seen|)
      ensures r.Returned? && r.status.Succeeded? <==> |base.evidence| + |Whole(plan)| <= 200
    {
      hide Finished, QuietEnd, Exact, PlanOk, Rollbacks, Overfull, CountCompleted, Unprepared;
      if r.Returned? && r.status.Succeeded? {
        SucceededIsComplete(releases0, base, plan, r, a);
      } else {
        QuietlyExact(releases0, base, plan, r, a);
        FinishedTidy(releases0, base, plan, r, a);
        AllGood(base, plan, r, a);
        assert a.results + a.outs == a.results;
      }
    }

    lemma FinishedTidy(releases0: map<Release, Content>, base: Record, plan: Plan, r: Outcome, a: Account)
      requires PlanOk(Rollbacks(base), plan) && Finished(releases0, base, plan, r, a)
      ensures AllHelm(plan.helm) && Tidy(argv, plan, a)
    {
      hide World.Valid, Tidy, Verdict, Exact;
    }

    /** Good answers roll nothing back, and end well. */
    lemma AllGood(base: Record, plan: Plan, r: Outcome, a: Account)
      requires AllHelm(plan.helm) && Tidy(argv, plan, a)
      requires Launches(base.status) && !Unprepared(base, plan) && (plan.helm != [] || plan.pairs != [])
      requires AllZero(a.results) && AllServed(argv, plan.pairs, a.seen, |a.seen|)
      ensures a.outs == [] && CountCompleted(a.results) <= |Whole(plan)|
      ensures Exact(argv, base, plan, r, a) ==> r.Returned? && r.status.Succeeded?
    {
      hide Planning, ProbeCommands, AllHelm, VerdictOn, CountCompleted, Whole;
      CleanUnlessFails(a.results);
      PlanningPrefix(plan, a.d, a.m, a.q);
      if a.seen != [] {
        assert LastVerdict(argv, plan, a).IsServed?;
      }
    }

    lemma RaisesExactly(releases0: map<Release, Content>, base: Record, plan: Plan, r: Outcome, a: Account)
      requires PlanOk(Rollbacks(base), plan) && Finished(releases0, base, plan, r, a)
      requires QuietEnd(faultsBefore, r, a) && base.evidence == earlier && !Unprepared(base, plan)
      ensures r.Returned? <==> !Strands(|earlier|, a)
    {
      hide Finished, Exact, PlanOk, Rollbacks, Overfull, CountCompleted, Unprepared, World.Valid;
      QuietlyExact(releases0, base, plan, r, a);
      FinishedTidy(releases0, base, plan, r, a);
      if |earlier| + CountCompleted(a.results + a.outs) > 200 {
        if r.Returned? && a.seen == [] {
          EvidenceFits(releases0, base, plan, r, a);
        }
      } else {
        ExactReturns(base, plan, r, a);
      }
    }

    /** Without pairs, a returned row holds the evidence of everything that was issued. */
    lemma EvidenceFits(releases0: map<Release, Content>, base: Record, plan: Plan, r: Outcome, a: Account)
      requires PlanOk(Rollbacks(base), plan) && Finished(releases0, base, plan, r, a)
      requires r.Returned? && a.seen == []
      ensures |base.evidence| + CountCompleted(a.results + a.outs) <= 200
    {
      hide World.Valid, SameOutside, ReleasesOf, Planning, UndoCommands, Disciplined, Rollbacks, DistinctTargets,
        Commands, Outcomes, ProbeCommands, Covered, PairsFit, ForwardPairs, Increasing, Exact, AllSights, Sights,
        Children, Closes, CountCompleted, RestoredAll, AllZero, ServedUpTo, Complete, Along, Whole, Recorded,
        World.Known;
      TidyWithin(plan, a);
      hide Tidy;
      KnownValid(r.record);
      RecordedSize(IssuedCommands(plan, a), a.results + a.outs);
    }

    lemma ExactReturns(base: Record, plan: Plan, r: Outcome, a: Account)
      requires AllHelm(plan.helm) && Exact(argv, base, plan, r, a) && !Unprepared(base, plan)
      ensures r.Returned? <==> !(a.seen == [] && a.m == 0 && Fails(a.results) && !FailsDefinitely(a.results))
    {
      hide Planning, ProbeCommands, AllHelm, VerdictOn;
    }

    /** ROLLED_BACK: the rollbacks are exactly those of the started upgrades, in reverse; all succeeded;
        and when the snapshot described the cluster, the cluster is back where it was. */
    lemma RolledBackIsRestored(releases0: map<Release, Content>, base: Record, plan: Plan, r: Outcome, a: Account)
      requires PlanOk(Rollbacks(base), plan) && Finished(releases0, base, plan, r, a)
      requires r.Returned? && r.status.RolledBack?
      requires forall p | p in plan.helm[..a.m] ::
                 && HasSnapshot(Rollbacks(base), p.action.release) && p.action.release in releases0
                 && releases0[p.action.release] == Restored(SnapshotOf(Rollbacks(base), p.action.release))
      ensures world.releases == releases0
      ensures Commands(world.trace) ==
              Planning(plan.dry, plan.helm, a.d, a.m, a.q) + UndoCommands(plan.helm[..a.m])
      ensures AllZero(a.outs) && |a.outs| == a.m
    {
      hide World.Valid, World.Known, Planning, UndoCommands, Zeros, RestoredAll, Covered, DistinctTargets, Increasing,
        PairsFit, Disciplined, Commands, Outcomes, ProbeCommands, ReleasesOf, SameOutside, AllZero, SnapshotOf,
        HasSnapshot, ForwardPairs, Restored;
      NothingUndone(plan.helm[..a.m]);
      assert UndoCommands(plan.helm[..a.m])[..a.m] == UndoCommands(plan.helm[..a.m]);
      CompensationRestores(releases0, world.releases, Rollbacks(base), plan.helm[..a.m]);
    }

    /** FAILED: no upgrade was issued, and no release changed. */
    lemma FailedIsUntouched(releases0: map<Release, Content>, base: Record, plan: Plan, r: Outcome, a: Account)
      requires PlanOk(Rollbacks(base), plan) && Finished(releases0, base, plan, r, a)
      requires r.Returned? && r.status.Failed?
      ensures world.releases == releases0
      ensures Commands(world.trace) == DryCommands(plan.dry)[..a.d]
    {
      hide World.Valid, World.Known, RestoredAll, Covered, DistinctTargets, Increasing, PairsFit, Disciplined,
        Commands, Outcomes, ProbeCommands, AllZero, ForwardPairs, DryCommands, MutationCommands, UndoCommands;
      NothingUndone(plan.helm[..a.m]);
      NoMutations(plan.helm);
      assert ReleasesOf(plan.helm[..0]) == {};
      forall x
        ensures x in world.releases <==> x in releases0
        ensures x in releases0 && x in world.releases ==> world.releases[x] == releases0[x]
      {
      }
    }

    lemma NoMutations(helm: seq<Planned>)
      requires AllHelm(helm)
      ensures MutationCommands(helm)[..0] == [] && ProbeCommands(helm)[..0] == []
      ensures helm == [] ==> |ProbeCommands(helm)| == 0
    {
    }

    /** A returned SUCCEEDED, FAILED or ROLLED_BACK is durable, and every forward of it is STOPPED. */
    lemma EndIsForwardFree(record: Record)
      requires world.Valid() && world.Known(record) && ForwardFree(record.status)
      ensures AllStopped(record.forwards)
    {
      KnownValid(record);
    }

    lemma KnownValid(record: Record)
      requires world.Valid() && world.Known(record)
      ensures ValidRecord(record)
    {
      HistoryBasics(world.history, record.generation - 1);
    }
  }
}
