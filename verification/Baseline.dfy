/** Historical baselines of src/dispatcher/baseline.py: what the approval checks, how a new run is
    hydrated, and exactly what such a run still owes.
 */
module Baseline {
  import opened Common
  import opened PlanModel
  import opened Workflow
  import opened Completion

  datatype Disposition = DecidedPending | DecidedAccepted | DecidedWaived

  datatype Decision = Decision(step: Id, state: Disposition, reference: string, reviewers: seq<string>)

  /** What was found for one step: the artifacts, and how many review proofs. */
  datatype Observed = Observed(evidence: seq<string>, reviewProofs: nat)

  datatype Observation = Observation(steps: map<Id, Observed>)

  /** BaselineDecision.validate_state_details. */
  predicate ValidDecision(d: Decision) {
    Distinct(d.reviewers) && (!d.state.DecidedAccepted? ==> d.reviewers == [])
  }

  predicate OncePerStep(decisions: seq<Decision>) {
    forall i, j | 0 <= i < j < |decisions| :: decisions[i].step != decisions[j].step
  }

  /** BaselineApproval.validate_coverage. */
  predicate CoversAll(observation: Observation, decisions: seq<Decision>) {
    (set d | d in decisions :: d.step) == observation.steps.Keys && OncePerStep(decisions)
  }

  function StepIds(steps: seq<PlanStep>): set<Id> {
    set s | s in steps :: s.id
  }

  /** What an ACCEPTED decision needs: all required evidence, and under a review duty a proof and
      enough of its reviewers. */
  predicate Supported(policy: ReviewPolicy, step: PlanStep, observed: Observed, d: Decision) {
    d.state.DecidedAccepted? ==>
      && (forall a | a in step.evidence :: a in observed.evidence)
      && (if Demanded(policy, step) then
            && observed.reviewProofs > 0
            && (forall r | r in d.reviewers :: r in DemandedReviewers(policy, step))
            && |d.reviewers| >= DemandedAcceptances(policy, step)
          else d.reviewers == [])
  }

  /** The step a decision speaks about. */
  predicate Decides(steps: seq<PlanStep>, d: Decision, step: PlanStep) {
    step in steps && step.id == d.step
  }

  ghost predicate AllSupported(policy: ReviewPolicy, steps: seq<PlanStep>, observation: Observation,
                               decisions: seq<Decision>)
    requires forall d | d in decisions :: d.step in observation.steps
  {
    forall d, s | d in decisions && Decides(steps, d, s) :: Supported(policy, s, observation.steps[d.step], d)
  }

  /** What `approve_baseline` accepts. */
  ghost predicate Approvable(policy: ReviewPolicy, steps: seq<PlanStep>, observation: Observation,
                             decisions: seq<Decision>)
  {
    && observation.steps.Keys == StepIds(steps)
    && CoversAll(observation, decisions)
    && (forall s | s in steps :: Compilable(policy, s))
    && (forall d | d in decisions :: d.step in observation.steps)
    && AllSupported(policy, steps, observation, decisions)
  }

  /** The plan step of a decision, and its place. */
  function StepAt(steps: seq<PlanStep>, id: Id): (k: nat)
    ensures k <= |steps|
    ensures k < |steps| ==> steps[k].id == id
    ensures forall i :: 0 <= i < k ==> steps[i].id != id
  {
    if steps == [] || steps[0].id == id then 0 else 1 + StepAt(steps[1..], id)
  }

  lemma OnlyStep(steps: seq<PlanStep>, s: PlanStep)
    requires DistinctIds(steps) && s in steps
    ensures StepAt(steps, s.id) < |steps| && steps[StepAt(steps, s.id)] == s
  {
    var i :| 0 <= i < |steps| && steps[i] == s;
    assert StepAt(steps, s.id) <= i;
  }

  /** The checks of `approve_baseline`: the policy compiles for every step, and every ACCEPTED decision
      is supported. */
  method ApproveBaseline(policy: ReviewPolicy, steps: seq<PlanStep>, observation: Observation,
                         decisions: seq<Decision>)
    returns (ok: bool)
    requires DistinctIds(steps) && forall d | d in decisions :: ValidDecision(d)
    ensures ok <==> Approvable(policy, steps, observation, decisions)
  {
    if observation.steps.Keys != StepIds(steps) || !CoversAll(observation, decisions) {
      return false;
    }
    var compiled := CompileAll(policy, steps);
    if !compiled {
      return false;
    }
    DecisionsObserved(observation, decisions);
    var i := 0;
    while i < |decisions|
      invariant 0 <= i <= |decisions|
      invariant forall d, s | d in decisions[..i] && Decides(steps, d, s) ::
                  d.step in observation.steps && Supported(policy, s, observation.steps[d.step], d)
    {
      var d := decisions[i];
      assert decisions[..i + 1] == decisions[..i] + [d];
      assert d in decisions && d.step in StepIds(steps);
      var step := steps[StepOfDecision(steps, d)];
      var fine := CheckDecision(policy, step, observation.steps[d.step], d);
      if !fine {
        assert Decides(steps, d, step);
        return false;
      }
      forall s | Decides(steps, d, s)
        ensures s == step
      {
        OnlyStep(steps, s);
      }
      i := i + 1;
    }
    assert decisions[..|decisions|] == decisions;
    return true;
  }

  lemma DecisionsObserved(observation: Observation, decisions: seq<Decision>)
    requires CoversAll(observation, decisions)
    ensures forall d | d in decisions :: d.step in observation.steps
  {
    forall d | d in decisions
      ensures d.step in observation.steps
    {
      assert d.step in (set x | x in decisions :: x.step);
    }
  }

  function StepOfDecision(steps: seq<PlanStep>, d: Decision): (k: nat)
    requires d.step in StepIds(steps)
    ensures k < |steps| && steps[k].id == d.step
  {
    var s :| s in steps && s.id == d.step;
    var i :| 0 <= i < |steps| && steps[i] == s;
    assert StepAt(steps, d.step) <= i;
    StepAt(steps, d.step)
  }

  method CompileAll(policy: ReviewPolicy, steps: seq<PlanStep>) returns (ok: bool)
    ensures ok <==> forall s | s in steps :: Compilable(policy, s)
  {
    var i := 0;
    while i < |steps|
      invariant 0 <= i <= |steps|
      invariant forall s | s in steps[..i] :: Compilable(policy, s)
    {
      assert steps[..i + 1] == steps[..i] + [steps[i]];
      var duty := CompileDuty(policy, steps[i]);
      if duty.None? {
        assert steps[i] in steps;
        return false;
      }
      i := i + 1;
    }
    assert steps[..|steps|] == steps;
    return true;
  }

  /** One turn of the loop over the decisions. */
  method CheckDecision(policy: ReviewPolicy, step: PlanStep, observed: Observed, d: Decision) returns (ok: bool)
    requires Compilable(policy, step)
    ensures ok <==> Supported(policy, step, observed, d)
  {
    hide Compilable, Demanded, DemandedReviewers, DemandedAcceptances;
    if !d.state.DecidedAccepted? {
      return true;
    }
    if exists a :: a in step.evidence && a !in observed.evidence {
      return false;
    }
    var compiled := CompileDuty(policy, step);
    var duty := compiled.value;
    if duty.required {
      if observed.reviewProofs == 0 {
        return false;
      }
      if exists r :: r in d.reviewers && r !in duty.reviewers {
        return false;
      }
      return |d.reviewers| >= duty.acceptances;
    }
    return d.reviewers == [];
  }

  // ---------------------------------------------------------------------------------------------
  // Hydration

  /** The record of a step in a new run. */
  function NewStepRecord(step: PlanStep): StepRecord {
    StepRecord(Pending, !step.needsApproval, [], 0, false, None)
  }

  /** The record after a decision. */
  function Hydrated(record: StepRecord, d: Decision, observed: Observed): StepRecord {
    match d.state
    case DecidedPending => record
    case DecidedWaived => record.(state := Waived, waiver := Some(d.reference), reviewWaived := false)
    case DecidedAccepted =>
      record.(state := Accepted, artifacts := observed.evidence, acceptances := |d.reviewers|, gateResolved := true)
  }

  function DecisionFor(decisions: seq<Decision>, id: Id): (k: nat)
    ensures k <= |decisions|
    ensures k < |decisions| ==> decisions[k].step == id
    ensures forall i :: 0 <= i < k ==> decisions[i].step != id
  {
    if decisions == [] || decisions[0].step == id then 0 else 1 + DecisionFor(decisions[1..], id)
  }

  /** Every step has its decision and its observation. */
  predicate Decided(steps: seq<PlanStep>, observation: Observation, decisions: seq<Decision>) {
    forall s | s in steps :: s.id in observation.steps && DecisionFor(decisions, s.id) < |decisions|
  }

  function FinalRecord(observation: Observation, decisions: seq<Decision>, step: PlanStep): StepRecord
    requires step.id in observation.steps && DecisionFor(decisions, step.id) < |decisions|
  {
    Hydrated(NewStepRecord(step), decisions[DecisionFor(decisions, step.id)], observation.steps[step.id])
  }

  /** The step records of `new_run_record`. */
  function NewRecords(steps: seq<PlanStep>): (r: map<Id, StepRecord>)
    requires DistinctIds(steps)
    ensures r.Keys == StepIds(steps)
    ensures forall s :: s in steps ==> s.id in r && r[s.id] == NewStepRecord(s)
  {
    SameStep(steps);
    map s | s in steps :: s.id := NewStepRecord(s)
  }

  lemma SameStep(steps: seq<PlanStep>)
    requires DistinctIds(steps)
    ensures forall s, t | s in steps && t in steps && s.id == t.id :: s == t
  {
    forall s, t | s in steps && t in steps && s.id == t.id
      ensures s == t
    {
      OnlyStep(steps, s);
      OnlyStep(steps, t);
    }
  }

  /** `hydrate_run_from_baseline` on a new run. */
  method HydrateRun(steps: seq<PlanStep>, observation: Observation, decisions: seq<Decision>)
    returns (records: map<Id, StepRecord>)
    requires DistinctIds(steps) && Decided(steps, observation, decisions)
    ensures records.Keys == StepIds(steps)
    ensures forall s | s in steps :: s.id in records && records[s.id] == FinalRecord(observation, decisions, s)
  {
    hide Hydrated, NewStepRecord, DecisionFor, NewRecords, StepIds, FinalRecord;
    records := NewRecords(steps);
    var i := 0;
    while i < |steps|
      invariant 0 <= i <= |steps|
      invariant records.Keys == StepIds(steps)
      invariant forall k | 0 <= k < i :: HydratedAt(steps, observation, decisions, records, k)
      invariant forall k | i <= k < |steps| :: NewAt(steps, records, k)
    {
      var step := steps[i];
      assert step in steps && NewAt(steps, records, i);
      HydratedIsFinal(observation, decisions, step);
      var d := decisions[DecisionFor(decisions, step.id)];
      ghost var before := records;
      records := records[step.id := Hydrated(records[step.id], d, observation.steps[step.id])];
      forall k | 0 <= k < i
        ensures HydratedAt(steps, observation, decisions, records, k)
      {
        assert HydratedAt(steps, observation, decisions, before, k);
        assert steps[k].id != steps[i].id;
      }
      forall k | i < k < |steps|
        ensures NewAt(steps, records, k)
      {
        assert NewAt(steps, before, k);
        assert steps[i].id != steps[k].id;
      }
      assert HydratedAt(steps, observation, decisions, records, i);
      i := i + 1;
    }
    forall s | s in steps
      ensures s.id in records && records[s.id] == FinalRecord(observation, decisions, s)
    {
      var k :| 0 <= k < |steps| && steps[k] == s;
      assert HydratedAt(steps, observation, decisions, records, k);
    }
  }

  lemma HydratedIsFinal(observation: Observation, decisions: seq<Decision>, step: PlanStep)
    requires step.id in observation.steps && DecisionFor(decisions, step.id) < |decisions|
    ensures FinalRecord(observation, decisions, step) ==
            Hydrated(NewStepRecord(step), decisions[DecisionFor(decisions, step.id)], observation.steps[step.id])
  {
  }

  predicate NewAt(steps: seq<PlanStep>, records: map<Id, StepRecord>, k: nat)
    requires k < |steps|
  {
    steps[k].id in records && records[steps[k].id] == NewStepRecord(steps[k])
  }

  predicate HydratedAt(steps: seq<PlanStep>, observation: Observation, decisions: seq<Decision>,
                       records: map<Id, StepRecord>, k: nat)
    requires k < |steps| && Decided(steps, observation, decisions)
  {
    assert steps[k] in steps;
    steps[k].id in records && records[steps[k].id] == FinalRecord(observation, decisions, steps[k])
  }

  // ---------------------------------------------------------------------------------------------
  // What a hydrated run owes

  lemma DecisionFound(observation: Observation, decisions: seq<Decision>, id: Id)
    requires CoversAll(observation, decisions) && id in observation.steps
    ensures DecisionFor(decisions, id) < |decisions|
  {
    assert id in (set x | x in decisions :: x.step);
    var d :| d in decisions && d.step == id;
    var i :| 0 <= i < |decisions| && decisions[i] == d;
  }

  lemma ApprovedIsDecided(policy: ReviewPolicy, steps: seq<PlanStep>, observation: Observation,
                          decisions: seq<Decision>)
    requires Approvable(policy, steps, observation, decisions)
    ensures Decided(steps, observation, decisions)
  {
    hide AllSupported, Compilable, DecisionFor;
    forall s | s in steps
      ensures s.id in observation.steps && DecisionFor(decisions, s.id) < |decisions|
    {
      assert s.id in StepIds(steps);
      DecisionFound(observation, decisions, s.id);
    }
  }

  /** A new run of this plan, hydrated from these decisions, with or without the compiled policy. */
  ghost predicate IsHydrated(policy: ReviewPolicy, observation: Observation, decisions: seq<Decision>, run: Run)
    requires Decided(run.steps, observation, decisions)
  {
    && ValidRun(run) && run.records.Keys == StepIds(run.steps)
    && (forall s | s in run.steps ::
          s.id in run.records && run.records[s.id] == FinalRecord(observation, decisions, s))
    && (run.policy.Some? ==>
          forall s | s in run.steps :: s.id in run.policy.value && run.policy.value[s.id] == DutyOf(policy, s))
    && run.dispatches == [] && !run.request
  }

  /** An accepted step of a hydrated run owes neither evidence, nor review, nor a gate. */
  lemma NoGaps(policy: ReviewPolicy, observation: Observation, decisions: seq<Decision>, run: Run, step: PlanStep)
    requires Approvable(policy, run.steps, observation, decisions)
    requires forall s | s in run.steps :: ValidReview(s.review)
    requires Decided(run.steps, observation, decisions) && IsHydrated(policy, observation, decisions, run)
    requires step in run.steps && run.records[step.id].state.Accepted?
    ensures AcceptanceGaps(run, step) == []
  {
    hide Demanded, DemandedReviewers, DemandedAcceptances, Compilable, DecisionFor, CoversAll;
    var d := decisions[DecisionFor(decisions, step.id)];
    assert d in decisions && Decides(run.steps, d, step);
    assert Supported(policy, step, observation.steps[step.id], d);
    NeededIsDemanded(policy, observation, decisions, run, step);
  }

  lemma NeededIsDemanded(policy: ReviewPolicy, observation: Observation, decisions: seq<Decision>, run: Run,
                         step: PlanStep)
    requires ValidReview(step.review) && step in run.steps
    requires Decided(run.steps, observation, decisions) && IsHydrated(policy, observation, decisions, run)
    ensures NeededAcceptances(run, step) <= DemandedAcceptances(policy, step)
    ensures !Demanded(policy, step) ==> DemandedAcceptances(policy, step) == 0
  {
    hide FinalRecord, Decided, ValidRun;
    DutyCoversPlan(policy, step);
  }

  /** Exactly what a hydrated run owes for one step. */
  function Owed(records: map<Id, StepRecord>, step: PlanStep): seq<Obligation>
    requires step.id in records && forall d | d in step.dependsOn :: d in records
  {
    if records[step.id].state.Pending? then [StepOpen(step.id)]
    else OpenDependencies(records, step.id, step.dependsOn)
  }

  function AllOwed(run: Run, n: nat): seq<Obligation>
    requires ValidRun(run) && n <= |run.steps|
  {
    if n == 0 then []
    else
      assert run.steps[n - 1] in run.steps;
      AllOwed(run, n - 1) + Owed(run.records, run.steps[n - 1])
  }

  lemma {:induction false} OwedUpTo(policy: ReviewPolicy, observation: Observation, decisions: seq<Decision>, run: Run,
                                    n: nat)
    requires Approvable(policy, run.steps, observation, decisions)
    requires forall s | s in run.steps :: ValidReview(s.review)
    requires Decided(run.steps, observation, decisions) && IsHydrated(policy, observation, decisions, run)
    requires n <= |run.steps|
    ensures AllStepObligations(run, n) == AllOwed(run, n)
  {
    hide Approvable, AcceptanceGaps, OpenDependencies, IsHydrated, Decided, DecisionFor, ValidReview, FinalRecord;
    RunIsValid(policy, observation, decisions, run);
    if n > 0 {
      OwedUpTo(policy, observation, decisions, run, n - 1);
      var step := run.steps[n - 1];
      assert step in run.steps;
      if run.records[step.id].state.Accepted? {
        NoGaps(policy, observation, decisions, run, step);
      }
      StatesDecided(policy, observation, decisions, run, step);
    }
  }

  lemma RunIsValid(policy: ReviewPolicy, observation: Observation, decisions: seq<Decision>, run: Run)
    requires Decided(run.steps, observation, decisions) && IsHydrated(policy, observation, decisions, run)
    ensures ValidRun(run)
  {
  }

  lemma StatesDecided(policy: ReviewPolicy, observation: Observation, decisions: seq<Decision>, run: Run,
                      step: PlanStep)
    requires Decided(run.steps, observation, decisions) && IsHydrated(policy, observation, decisions, run)
    requires step in run.steps
    ensures run.records[step.id].state in {Pending, Accepted, Waived}
    ensures run.records[step.id].state.Pending? <==>
            decisions[DecisionFor(decisions, step.id)].state.DecidedPending?
  {
  }

  /** For a new run hydrated from any approved baseline the completion guard demands exactly one
      acceptance per PENDING decision, and one per settled step and unsettled dependency: never
      evidence, a review or a gate. */
  lemma BaselineObligations(policy: ReviewPolicy, observation: Observation, decisions: seq<Decision>, run: Run)
    requires Approvable(policy, run.steps, observation, decisions)
    requires forall s | s in run.steps :: ValidReview(s.review)
    requires Decided(run.steps, observation, decisions) && IsHydrated(policy, observation, decisions, run)
    ensures Obligations(run) == AllOwed(run, |run.steps|)
  {
    hide Approvable, IsHydrated, AllOwed, AllStepObligations;
    OwedUpTo(policy, observation, decisions, run, |run.steps|);
    NoneInFlight(policy, observation, decisions, run);
  }

  lemma NoneInFlight(policy: ReviewPolicy, observation: Observation, decisions: seq<Decision>, run: Run)
    requires Decided(run.steps, observation, decisions) && IsHydrated(policy, observation, decisions, run)
    ensures InFlight(run.dispatches) == [] && !run.request
  {
  }

  /** Such a run can go to SUCCEEDED exactly when it is RUNNING and no decision is PENDING. */
  lemma CompletesIffNothingPending(policy: ReviewPolicy, observation: Observation, decisions: seq<Decision>, run: Run,
                                   state: RunState)
    requires Approvable(policy, run.steps, observation, decisions)
    requires forall s | s in run.steps :: ValidReview(s.review)
    requires Decided(run.steps, observation, decisions) && IsHydrated(policy, observation, decisions, run)
    requires forall s, d | s in run.steps && d in s.dependsOn :: d in StepIds(run.steps)
    ensures Completes(state, run) <==> state.RunRunning? && forall d | d in decisions :: !d.state.DecidedPending?
  {
    hide RunTransitions, AllStepObligations, InFlight, Approvable, FinalRecord, AllOwed, ValidReview;
    OnlyRunningSucceeds(state);
    BaselineObligations(policy, observation, decisions, run);
    if forall d | d in decisions :: !d.state.DecidedPending? {
      forall s | s in run.steps
        ensures Settled(run.records[s.id].state)
      {
        StatesDecided(policy, observation, decisions, run, s);
        assert decisions[DecisionFor(decisions, s.id)] in decisions;
      }
      NothingOwed(run, |run.steps|);
    } else {
      var d :| d in decisions && d.state.DecidedPending?;
      PendingOwed(policy, observation, decisions, run, d);
    }
  }

  /** `create_run_from_baseline` behind an approval: the new run exists for every approved baseline, and
      it owes exactly what the pending decisions and the open dependencies say. */
  method CreateRun(ghost policy: ReviewPolicy, steps: seq<PlanStep>, observation: Observation,
                   decisions: seq<Decision>)
    returns (run: Run)
    requires DistinctIds(steps) && Approvable(policy, steps, observation, decisions)
    requires forall s | s in steps :: ValidReview(s.review)
    requires forall s, d | s in steps && d in s.dependsOn :: d in StepIds(steps)
    ensures run.steps == steps && run.policy.None? && Decided(steps, observation, decisions)
    ensures IsHydrated(policy, observation, decisions, run)
    ensures Obligations(run) == AllOwed(run, |steps|)
  {
    hide Approvable, FinalRecord, DecisionFor, ValidReview, Obligations, AllOwed;
    ApprovedIsDecided(policy, steps, observation, decisions);
    var records := HydrateRun(steps, observation, decisions);
    run := Run(steps, records, None, [], false);
    BaselineObligations(policy, observation, decisions, run);
  }

  lemma {:induction false} NothingOwed(run: Run, n: nat)
    requires ValidRun(run) && n <= |run.steps|
    requires forall s | s in run.steps :: Settled(run.records[s.id].state)
    requires forall s, d | s in run.steps && d in s.dependsOn :: d in StepIds(run.steps)
    ensures AllOwed(run, n) == []
  {
    if n > 0 {
      NothingOwed(run, n - 1);
      var step := run.steps[n - 1];
      assert step in run.steps;
      forall d | d in step.dependsOn
        ensures Settled(run.records[d].state)
      {
        assert d in StepIds(run.steps);
        var t :| t in run.steps && t.id == d;
      }
      NoneOpen(run.records, step.id, step.dependsOn);
    }
  }

  lemma {:induction false} NoneOpen(records: map<Id, StepRecord>, step: Id, deps: seq<Id>)
    requires forall d | d in deps :: d in records && Settled(records[d].state)
    ensures OpenDependencies(records, step, deps) == []
  {
    if deps != [] {
      assert deps[|deps| - 1] in deps;
      NoneOpen(records, step, deps[..|deps| - 1]);
    }
  }

  lemma {:induction false} OwedGrows(run: Run, m: nat, n: nat)
    requires ValidRun(run) && m <= n <= |run.steps|
    ensures |AllOwed(run, m)| <= |AllOwed(run, n)|
  {
    if m < n {
      OwedGrows(run, m, n - 1);
      assert run.steps[n - 1] in run.steps;
    }
  }

  lemma PendingOwed(policy: ReviewPolicy, observation: Observation, decisions: seq<Decision>, run: Run, d: Decision)
    requires Approvable(policy, run.steps, observation, decisions)
    requires Decided(run.steps, observation, decisions) && IsHydrated(policy, observation, decisions, run)
    requires d in decisions && d.state.DecidedPending?
    ensures AllOwed(run, |run.steps|) != []
  {
    hide AllSupported, Compilable, OpenDependencies, DecisionFor, FinalRecord, IsHydrated, AllOwed, Decided;
    RunIsValid(policy, observation, decisions, run);
    DecisionsObserved(observation, decisions);
    assert d.step in StepIds(run.steps);
    var s :| s in run.steps && s.id == d.step;
    OwnDecision(decisions, d);
    StatesDecided(policy, observation, decisions, run, s);
    var k :| 0 <= k < |run.steps| && run.steps[k] == s;
    OwedAt(run, k);
    OwedGrows(run, k + 1, |run.steps|);
  }

  lemma OwedAt(run: Run, k: nat)
    requires ValidRun(run) && k < |run.steps|
    requires run.steps[k] in run.steps && run.records[run.steps[k].id].state.Pending?
    ensures |AllOwed(run, k + 1)| >= 1
  {
  }

  lemma OwnDecision(decisions: seq<Decision>, d: Decision)
    requires OncePerStep(decisions) && d in decisions
    ensures DecisionFor(decisions, d.step) < |decisions| && decisions[DecisionFor(decisions, d.step)] == d
  {
    hide DecisionFor;
    var i :| 0 <= i < |decisions| && decisions[i] == d;
    assert DecisionFor(decisions, d.step) <= i;
  }
}
