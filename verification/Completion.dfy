/** Review policy (src/dispatcher/policy.py), the completion guard (src/dispatcher/workflow.py) and the
    historical baseline (src/dispatcher/baseline.py): what an approved baseline leaves to be done.
 */
module Completion {
  import opened Common
  import opened PlanModel
  import opened Workflow

  // ---------------------------------------------------------------------------------------------
  // Policy

  datatype Schedule = Always | Critical | OnRequest

  datatype MultiReview = OnEveryReview | OnCriticalOnly | Off

  datatype Profile = Profile(schedule: Schedule, multi: MultiReview, reviewers: seq<string>, acceptances: nat)

  datatype ReviewPolicy = ReviewPolicy(profile: Profile, mandatory: bool, criticalTags: set<string>)

  datatype Duty = Duty(required: bool, reviewers: seq<string>, acceptances: nat)

  /** ReviewObligation.validate_requirement. */
  predicate ValidReview(r: Review) {
    && (if r.required then r.reviewers != [] && r.acceptances >= 1 else r.reviewers == [] && r.acceptances == 0)
    && Distinct(r.reviewers) && r.acceptances <= |r.reviewers|
  }

  predicate IsCritical(policy: ReviewPolicy, step: PlanStep) {
    exists t :: t in step.riskTags && t in policy.criticalTags
  }

  /** Whether the profile's reviewers and acceptances join those of the step. */
  predicate Widened(policy: ReviewPolicy, step: PlanStep) {
    || policy.mandatory
    || policy.profile.schedule.Always? || (policy.profile.schedule.Critical? && IsCritical(policy, step))
    || policy.profile.multi.OnEveryReview? || (policy.profile.multi.OnCriticalOnly? && IsCritical(policy, step))
  }

  predicate Demanded(policy: ReviewPolicy, step: PlanStep) {
    || step.review.required || policy.mandatory
    || policy.profile.schedule.Always? || (policy.profile.schedule.Critical? && IsCritical(policy, step))
  }

  function Max(a: nat, b: nat): nat { if a >= b then a else b }

  /** The acceptances that `_compile_review_obligation` demands. */
  function DemandedAcceptances(policy: ReviewPolicy, step: PlanStep): nat {
    if !Demanded(policy, step) then 0
    else if Widened(policy, step) then Max(step.review.acceptances, policy.profile.acceptances)
    else step.review.acceptances
  }

  /** The reviewers: the step's, then the profile's that are not among them. */
  function Joined(roles: seq<string>, more: seq<string>): seq<string> {
    if more == [] then roles
    else
      var r := Joined(roles, more[..|more| - 1]);
      if more[|more| - 1] in r then r else r + [more[|more| - 1]]
  }

  function DemandedReviewers(policy: ReviewPolicy, step: PlanStep): seq<string> {
    if !Demanded(policy, step) then []
    else if Widened(policy, step) then Joined(step.review.reviewers, policy.profile.reviewers)
    else step.review.reviewers
  }

  predicate Compilable(policy: ReviewPolicy, step: PlanStep) {
    && (Demanded(policy, step) ==> DemandedReviewers(policy, step) != [])
    && DemandedAcceptances(policy, step) <= |DemandedReviewers(policy, step)|
    && DemandedAcceptances(policy, step) <= step.maxReviews
  }

  function DutyOf(policy: ReviewPolicy, step: PlanStep): Duty {
    Duty(Demanded(policy, step), DemandedReviewers(policy, step), DemandedAcceptances(policy, step))
  }

  /** `_compile_review_obligation`. */
  method CompileDuty(policy: ReviewPolicy, step: PlanStep) returns (r: Option<Duty>)
    ensures r.Some? <==> Compilable(policy, step)
    ensures r.Some? ==> r.value == DutyOf(policy, step)
  {
    var profile := policy.profile;
    var critical := IsCritical(policy, step);
    var scheduled := profile.schedule.Always? || (profile.schedule.Critical? && critical);
    var required := step.review.required || policy.mandatory || scheduled;
    var multi := profile.multi.OnEveryReview? || (profile.multi.OnCriticalOnly? && critical);
    var roles := step.review.reviewers;
    var acceptances := step.review.acceptances;
    if scheduled || policy.mandatory || multi {
      var i := 0;
      while i < |profile.reviewers|
        invariant 0 <= i <= |profile.reviewers|
        invariant roles == Joined(step.review.reviewers, profile.reviewers[..i])
      {
        assert profile.reviewers[..i + 1][..i] == profile.reviewers[..i];
        if profile.reviewers[i] !in roles {
          roles := roles + [profile.reviewers[i]];
        }
        i := i + 1;
      }
      assert profile.reviewers[..|profile.reviewers|] == profile.reviewers;
      acceptances := Max(acceptances, profile.acceptances);
    }
    if !required {
      roles, acceptances := [], 0;
    }
    if (required && roles == []) || acceptances > |roles| || acceptances > step.maxReviews {
      return None;
    }
    return Some(Duty(required, roles, acceptances));
  }

  /** A compiled duty never asks for less than the plan does, and never names a reviewer twice. */
  lemma DutyCoversPlan(policy: ReviewPolicy, step: PlanStep)
    requires ValidReview(step.review)
    ensures DutyOf(policy, step).acceptances >= step.review.acceptances
    ensures forall x | x in step.review.reviewers :: x in DutyOf(policy, step).reviewers
    ensures Distinct(DutyOf(policy, step).reviewers)
    ensures Demanded(policy, step) && Widened(policy, step) ==>
              && DutyOf(policy, step).acceptances >= policy.profile.acceptances
              && forall x | x in policy.profile.reviewers :: x in DutyOf(policy, step).reviewers
  {
    var roles, more := step.review.reviewers, policy.profile.reviewers;
    JoinedKeeps(roles, more);
    assert forall x | x in roles || x in more :: x in roles + more;
  }

  lemma {:induction false} JoinedKeeps(roles: seq<string>, more: seq<string>)
    requires Distinct(roles)
    ensures Distinct(Joined(roles, more)) && roles <= Joined(roles, more)
    ensures forall x | x in roles + more :: x in Joined(roles, more)
  {
    if more != [] {
      JoinedKeeps(roles, more[..|more| - 1]);
      assert more == more[..|more| - 1] + [more[|more| - 1]];
    }
  }

  // ---------------------------------------------------------------------------------------------
  // The completion guard

  datatype Obligation =
    | StepOpen(step: Id)
    | DependencyOpen(step: Id, dependency: Id)
    | EvidenceMissing(step: Id)
    | ReviewIncomplete(step: Id)
    | GateUnresolved(step: Id)
    | DispatchInFlight(step: Id)
    | RequestOpen

  datatype Run = Run(
    steps: seq<PlanStep>, records: map<Id, StepRecord>, policy: Option<map<Id, Duty>>, dispatches: seq<Dispatch>,
    request: bool)

  /** Every step has one record and, if there is a policy, one duty; dependencies are steps. */
  predicate ValidRun(run: Run) {
    && (forall s | s in run.steps :: s.id in run.records && (run.policy.Some? ==> s.id in run.policy.value))
    && (forall s, d | s in run.steps && d in s.dependsOn :: d in run.records)
    && DistinctIds(run.steps)
  }

  function NeededAcceptances(run: Run, step: PlanStep): nat
    requires run.policy.Some? ==> step.id in run.policy.value
  {
    if run.policy.Some? then run.policy.value[step.id].acceptances else step.review.acceptances
  }

  function OpenDependencies(records: map<Id, StepRecord>, step: Id, deps: seq<Id>): seq<Obligation>
    requires forall d | d in deps :: d in records
  {
    if deps == [] then []
    else
      var last := deps[|deps| - 1];
      OpenDependencies(records, step, deps[..|deps| - 1]) +
      if Settled(records[last].state) then [] else [DependencyOpen(step, last)]
  }

  predicate HasEvidence(record: StepRecord, step: PlanStep) {
    forall a | a in step.evidence :: a in record.artifacts
  }

  /** What an ACCEPTED record still owes. */
  function AcceptanceGaps(run: Run, step: PlanStep): seq<Obligation>
    requires step.id in run.records && (run.policy.Some? ==> step.id in run.policy.value)
  {
    var r := run.records[step.id];
    (if HasEvidence(r, step) then [] else [EvidenceMissing(step.id)]) +
    (if !r.reviewWaived && r.acceptances < NeededAcceptances(run, step) then [ReviewIncomplete(step.id)] else []) +
    (if r.gateResolved then [] else [GateUnresolved(step.id)])
  }

  function StepObligations(run: Run, step: PlanStep): seq<Obligation>
    requires step.id in run.records && (run.policy.Some? ==> step.id in run.policy.value)
    requires forall d | d in step.dependsOn :: d in run.records
  {
    if !Settled(run.records[step.id].state) then [StepOpen(step.id)]
    else
      OpenDependencies(run.records, step.id, step.dependsOn) +
      if run.records[step.id].state.Accepted? then AcceptanceGaps(run, step) else []
  }

  function AllStepObligations(run: Run, n: nat): seq<Obligation>
    requires ValidRun(run) && n <= |run.steps|
  {
    if n == 0 then []
    else
      assert run.steps[n - 1] in run.steps;
      AllStepObligations(run, n - 1) + StepObligations(run, run.steps[n - 1])
  }

  function InFlight(ds: seq<Dispatch>): seq<Obligation> {
    if ds == [] then []
    else
      var last := ds[|ds| - 1];
      InFlight(ds[..|ds| - 1]) + if IsActive(last.state) then [DispatchInFlight(last.step)] else []
  }

  function Obligations(run: Run): seq<Obligation>
    requires ValidRun(run)
  {
    AllStepObligations(run, |run.steps|) + InFlight(run.dispatches) + if run.request then [RequestOpen] else []
  }

  /** `transition_run` to SUCCEEDED: the table and the completion guard. */
  predicate Completes(state: RunState, run: Run)
    requires ValidRun(run)
  {
    RunSucceeded in RunTransitions(state) && Obligations(run) == []
  }

  /** `completion_obligations`. */
  method CompletionObligations(run: Run) returns (obligations: seq<Obligation>)
    requires ValidRun(run)
    ensures obligations == Obligations(run)
  {
    hide StepObligations, IsActive;
    obligations := [];
    var i := 0;
    while i < |run.steps|
      invariant 0 <= i <= |run.steps|
      invariant obligations == AllStepObligations(run, i)
    {
      assert run.steps[i] in run.steps;
      var more := OneStep(run, run.steps[i]);
      obligations := obligations + more;
      i := i + 1;
    }
    var flying := DispatchesInFlight(run.dispatches);
    obligations := obligations + flying;
    if run.request {
      obligations := obligations + [RequestOpen];
    }
  }

  /** The loop over the dispatches. */
  method DispatchesInFlight(dispatches: seq<Dispatch>) returns (obligations: seq<Obligation>)
    ensures obligations == InFlight(dispatches)
  {
    hide IsActive;
    obligations := [];
    var k := 0;
    while k < |dispatches|
      invariant 0 <= k <= |dispatches|
      invariant obligations == InFlight(dispatches[..k])
    {
      assert dispatches[..k + 1][..k] == dispatches[..k];
      if IsActive(dispatches[k].state) {
        obligations := obligations + [DispatchInFlight(dispatches[k].step)];
      }
      k := k + 1;
    }
    assert dispatches[..|dispatches|] == dispatches;
  }

  /** One turn of the loop over the steps. */
  method OneStep(run: Run, step: PlanStep) returns (obligations: seq<Obligation>)
    requires ValidRun(run) && step in run.steps
    ensures obligations == StepObligations(run, step)
  {
    var record := run.records[step.id];
    if !Settled(record.state) {
      return [StepOpen(step.id)];
    }
    obligations := [];
    var i := 0;
    while i < |step.dependsOn|
      invariant 0 <= i <= |step.dependsOn|
      invariant forall d | d in step.dependsOn[..i] :: d in run.records
      invariant obligations == OpenDependencies(run.records, step.id, step.dependsOn[..i])
    {
      assert step.dependsOn[i] in step.dependsOn;
      assert step.dependsOn[..i + 1][..i] == step.dependsOn[..i];
      if !Settled(run.records[step.dependsOn[i]].state) {
        obligations := obligations + [DependencyOpen(step.id, step.dependsOn[i])];
      }
      i := i + 1;
    }
    assert step.dependsOn[..|step.dependsOn|] == step.dependsOn;
    if record.state.Accepted? {
      if !HasEvidence(record, step) {
        obligations := obligations + [EvidenceMissing(step.id)];
      }
      if !record.reviewWaived && record.acceptances < NeededAcceptances(run, step) {
        obligations := obligations + [ReviewIncomplete(step.id)];
      }
      if !record.gateResolved {
        obligations := obligations + [GateUnresolved(step.id)];
      }
    }
  }
}
