/** The autonomous execution scope of src/dispatcher/operation.py: how it is cut from a plan, and how
    the approved scope is found again after progress.
 */
module AutonomousScope {
  import opened Common
  import opened PlanModel
  import opened Workflow

  type Records = map<Id, StepRecord>

  /** Every plan step has a record, and steps are listed once. */
  predicate Covers(steps: seq<PlanStep>, records: Records) {
    (forall s | s in steps :: s.id in records) && DistinctIds(steps)
  }

  /** The states in which a step may stand in a scope; `retain` widens them for a resumed scope. */
  function Executable(retain: bool): set<StepState> {
    if retain then {Pending, Ready, ReviewRequired, Accepted, Waived} else {Pending, Ready}
  }

  predicate InScope(scoped: seq<PlanStep>, id: Id) {
    exists s :: s in scoped && s.id == id
  }

  /** `completed | scoped_ids`. */
  predicate Reached(records: Records, scoped: seq<PlanStep>, id: Id) {
    (id in records && Settled(records[id].state)) || InScope(scoped, id)
  }

  /** Whether `step` may follow the scope so far. */
  predicate Follows(records: Records, retain: bool, scoped: seq<PlanStep>, step: PlanStep)
    requires step.id in records
  {
    && records[step.id].state in Executable(retain)
    && records[step.id].gateResolved
    && (forall d | d in step.dependsOn + step.producers :: Reached(records, scoped, d))
  }

  /** `scope` is cut from `steps` at `start`: each step may follow the ones before it, and the step
      behind the scope, if there is one, may not. */
  predicate IsScope(steps: seq<PlanStep>, records: Records, retain: bool, start: nat, scope: seq<PlanStep>)
    requires Covers(steps, records)
  {
    && start + |scope| <= |steps|
    && scope == steps[start..start + |scope|]
    && (forall i | 0 <= i < |scope| :: Steps(steps, start, i) && Follows(records, retain, scope[..i], scope[i]))
    && (start + |scope| < |steps| ==> Stops(steps, records, retain, start + |scope|, scope))
  }

  predicate Steps(steps: seq<PlanStep>, start: nat, i: nat) {
    start + i < |steps| && steps[start + i] in steps
  }

  /** The step at position `k` cannot follow the scope. */
  predicate Stops(steps: seq<PlanStep>, records: Records, retain: bool, k: nat, scope: seq<PlanStep>)
    requires Covers(steps, records) && k < |steps|
  {
    assert steps[k] in steps;
    !Follows(records, retain, scope, steps[k])
  }

  /** `first_pending_executable_step`: its position, or the number of steps. */
  function FirstPending(steps: seq<PlanStep>, records: Records): (k: nat)
    requires forall s | s in steps :: s.id in records
    ensures k <= |steps|
    ensures k < |steps| ==> steps[k] in steps && records[steps[k].id].state in Executable(false)
    ensures forall i | 0 <= i < k :: steps[i] in steps && records[steps[i].id].state !in Executable(false)
  {
    if steps == [] then 0
    else
      assert steps[0] in steps;
      if records[steps[0].id].state in Executable(false) then 0 else 1 + FirstPending(steps[1..], records)
  }

  /** `_contiguous_autonomous_scope` from the step at `start`. */
  method ContiguousScope(steps: seq<PlanStep>, records: Records, start: nat, retain: bool)
    returns (scope: seq<PlanStep>)
    requires Covers(steps, records) && start <= |steps|
    ensures IsScope(steps, records, retain, start, scope)
  {
    hide Executable, Reached;
    scope := [];
    var k := start;
    while k < |steps|
      invariant start <= k <= |steps| && |scope| == k - start
      invariant scope == steps[start..k]
      invariant forall i | 0 <= i < |scope| ::
                  Steps(steps, start, i) && Follows(records, retain, scope[..i], scope[i])
    {
      var step := steps[k];
      assert step in steps;
      if !Follows(records, retain, scope, step) {
        return;
      }
      ghost var before := scope;
      scope := scope + [step];
      forall i | 0 <= i < |scope|
        ensures Steps(steps, start, i) && Follows(records, retain, scope[..i], scope[i])
      {
        assert steps[start + i] in steps;
        if i < |before| {
          assert scope[..i] == before[..i] && scope[i] == before[i];
          assert Follows(records, retain, before[..i], before[i]);
        } else {
          assert scope[..i] == before;
        }
      }
      k := k + 1;
    }
  }

  /** `autonomous_execution_scope`: the scope from the first pending or ready step on, which is empty
      exactly when there is no such step or when that step has to wait. */
  method AutonomousExecutionScope(steps: seq<PlanStep>, records: Records)
    returns (scope: seq<PlanStep>, start: nat)
    requires Covers(steps, records)
    ensures IsScope(steps, records, false, start, scope)
    ensures forall s | s in steps[..start] :: s.id in records && records[s.id].state !in {Pending, Ready}
    ensures start < |steps| ==> steps[start] in steps && records[steps[start].id].state in {Pending, Ready}
    ensures scope == [] <==>
            forall i | 0 <= i < |steps| && InLine(steps, records, i) :: Stops(steps, records, false, i, [])
  {
    start := FirstPending(steps, records);
    scope := [];
    if start < |steps| {
      scope := ContiguousScope(steps, records, start, false);
      if scope != [] {
        assert Steps(steps, start, 0) && Follows(records, false, scope[..0], scope[0]);
        assert scope[..0] == [] && InLine(steps, records, start);
      }
    }
  }

  /** The first pending or ready step stands at position `i`. */
  predicate InLine(steps: seq<PlanStep>, records: Records, i: nat)
    requires Covers(steps, records) && i < |steps|
  {
    assert steps[i] in steps;
    && records[steps[i].id].state in {Pending, Ready}
    && forall s | s in steps[..i] :: s in steps && records[s.id].state !in {Pending, Ready}
  }

  /** The scope that `start` and the records determine is unique. */
  lemma ScopeIsUnique(steps: seq<PlanStep>, records: Records, retain: bool, start: nat,
                      a: seq<PlanStep>, b: seq<PlanStep>)
    requires Covers(steps, records)
    requires IsScope(steps, records, retain, start, a) && IsScope(steps, records, retain, start, b)
    ensures a == b
  {
    hide Follows;
    if |a| < |b| {
      ScopeAt(steps, records, retain, start, b, |a|);
    } else if |b| < |a| {
      ScopeAt(steps, records, retain, start, a, |b|);
    }
  }

  lemma ScopeAt(steps: seq<PlanStep>, records: Records, retain: bool, start: nat, scope: seq<PlanStep>, k: nat)
    requires Covers(steps, records) && IsScope(steps, records, retain, start, scope) && k < |scope|
    ensures start + k < |steps| && steps[start + k] in steps
    ensures scope[k] == steps[start + k] && scope[..k] == steps[start..start + k]
    ensures Follows(records, retain, steps[start..start + k], steps[start + k])
  {
    hide Follows;
    assert scope[..k] == steps[start..start + k] && scope[k] == steps[start + k];
    assert Steps(steps, start, k) && Follows(records, retain, scope[..k], scope[k]);
  }

  // ---------------------------------------------------------------------------------------------
  // Closure

  /** An approved scope is closed: whatever a step depends on is settled, or comes earlier in the scope. */
  lemma ScopeIsClosed(steps: seq<PlanStep>, records: Records, retain: bool, start: nat, scope: seq<PlanStep>,
                      i: nat, d: Id)
    requires Covers(steps, records) && IsScope(steps, records, retain, start, scope)
    requires i < |scope| && d in scope[i].dependsOn + scope[i].producers
    ensures (d in records && Settled(records[d].state)) || exists j :: 0 <= j < i && scope[j].id == d
  {
    assert Steps(steps, start, i) && Follows(records, retain, scope[..i], scope[i]);
    hide Executable;
    if InScope(scope[..i], d) {
      var s :| s in scope[..i] && s.id == d;
      var j :| 0 <= j < i && scope[..i][j] == s;
      assert scope[j].id == d;
    }
  }

  // ---------------------------------------------------------------------------------------------
  // Progress

  /** Any number of allowed step transitions. */
  ghost predicate StepsOn(s: StepState, t: StepState) {
    exists p: seq<StepState> :: MovesAlong(p) && p[0] == s && p[|p| - 1] == t
  }

  predicate MovesAlong(p: seq<StepState>) {
    p != [] && forall i | 0 < i < |p| :: StepMoves(p[i - 1], p[i])
  }

  /** The run went on: settled steps stayed settled, and resolved gates stayed resolved. */
  predicate Progress(records: Records, later: Records) {
    && later.Keys == records.Keys
    && forall id | id in records ::
         && (Settled(records[id].state) ==> Settled(later[id].state))
         && (records[id].gateResolved ==> later[id].gateResolved)
  }

  /** Transitions of the step table are progress. */
  lemma TransitionsAreProgress(records: Records, later: Records)
    requires later.Keys == records.Keys
    requires forall id | id in records ::
               StepsOn(records[id].state, later[id].state) && (records[id].gateResolved ==> later[id].gateResolved)
    ensures Progress(records, later)
  {
    hide StepsOn;
    forall id | id in records && Settled(records[id].state)
      ensures Settled(later[id].state)
    {
      SettledForGood(records[id].state, later[id].state);
    }
  }

  lemma SettledForGood(s: StepState, t: StepState)
    requires Settled(s) && StepsOn(s, t)
    ensures t == s
  {
    var p :| MovesAlong(p) && p[0] == s && p[|p| - 1] == t;
    if |p| > 1 {
      assert StepMoves(p[0], p[1]);
      SettledStays(s, p[1]);
    }
  }

  lemma StillReached(records: Records, later: Records, scoped: seq<PlanStep>, id: Id)
    requires Progress(records, later) && Reached(records, scoped, id)
    ensures Reached(later, scoped, id)
  {
    hide InScope;
  }

  lemma StillFollows(records: Records, later: Records, scoped: seq<PlanStep>, step: PlanStep)
    requires Progress(records, later) && step.id in records
    requires Follows(records, false, scoped, step)
    requires later[step.id].state in Executable(true)
    ensures Follows(later, true, scoped, step)
  {
    hide Reached, Executable;
    forall d | d in step.dependsOn + step.producers
      ensures Reached(later, scoped, d)
    {
      StillReached(records, later, scoped, d);
    }
  }

  /** Scope rebuild.  After any progress that leaves the scoped steps in the retained states, the scope
      rebuilt from the same first step has the approved one as a prefix; and it is the approved one
      exactly when there is no step behind it or that step still stops under the wider states. */
  lemma RebuiltScope(steps: seq<PlanStep>, records: Records, later: Records, start: nat,
                     approved: seq<PlanStep>, rebuilt: seq<PlanStep>)
    requires Covers(steps, records) && Covers(steps, later) && Progress(records, later)
    requires IsScope(steps, records, false, start, approved) && IsScope(steps, later, true, start, rebuilt)
    requires forall s | s in approved :: s.id in later && later[s.id].state in Executable(true)
    ensures approved <= rebuilt
    ensures rebuilt == approved <==>
            start + |approved| == |steps| || Stops(steps, later, true, start + |approved|, approved)
  {
    hide Follows, Executable, Progress;
    if |rebuilt| < |approved| {
      var k := |rebuilt|;
      ScopeAt(steps, records, false, start, approved, k);
      assert approved[k] in approved;
      StillFollows(records, later, steps[start..start + k], steps[start + k]);
    }
    if |rebuilt| > |approved| {
      ScopeAt(steps, later, true, start, rebuilt, |approved|);
    }
    assert rebuilt[..|approved|] == approved;
  }

  // ---------------------------------------------------------------------------------------------
  // Resuming

  datatype Remaining = Resume(index: nat) | CannotResume(index: nat) | Finished

  /** `_first_remaining_scope_manifest`. */
  method FirstRemaining(scope: seq<PlanStep>, records: Records) returns (r: Remaining)
    requires forall s | s in scope :: s.id in records
    ensures r.Finished? <==> forall s | s in scope :: Settled(records[s.id].state)
    ensures !r.Finished? ==>
              && r.index < |scope| && scope[r.index] in scope && !Settled(records[scope[r.index].id].state)
              && (forall s | s in scope[..r.index] :: s in scope && Settled(records[s.id].state))
              && (r.Resume? <==> records[scope[r.index].id].state in Executable(true))
  {
    var i := 0;
    while i < |scope|
      invariant 0 <= i <= |scope|
      invariant forall s | s in scope[..i] :: s in scope && Settled(records[s.id].state)
    {
      assert scope[i] in scope && scope[..i + 1] == scope[..i] + [scope[i]];
      var state := records[scope[i].id].state;
      if state !in {Accepted, Waived} {
        if state !in {Pending, Ready, ReviewRequired} {
          return CannotResume(i);
        }
        return Resume(i);
      }
      i := i + 1;
    }
    assert scope[..|scope|] == scope;
    return Finished;
  }

  /** The first unfinished step of a rebuilt scope has nothing left to wait for: everything it depends
      on is accepted or waived. */
  lemma ResumedStepIsUnblocked(steps: seq<PlanStep>, records: Records, start: nat, scope: seq<PlanStep>, k: nat, d: Id)
    requires Covers(steps, records) && IsScope(steps, records, true, start, scope)
    requires k < |scope| && d in scope[k].dependsOn + scope[k].producers
    requires forall s | s in scope[..k] :: s.id in records && Settled(records[s.id].state)
    ensures d in records && Settled(records[d].state)
  {
    assert forall j | 0 <= j < k :: scope[j] in scope[..k];
    ScopeIsClosed(steps, records, true, start, scope, k, d);
  }
}
