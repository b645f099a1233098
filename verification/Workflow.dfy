/** The step and dispatch tables of src/dispatcher/workflow.py and the completion guard. */
module Workflow {
  import opened Common
  import opened PlanModel

  datatype StepState =
    | Pending | Ready | Executing | Executed | ReviewRequired | Reviewing | ChangesRequested
    | Blocked | Accepted | Waived | Failed

  datatype DispatchState = Prepared | Running | Completed | DispatchFailed | Forwarded | Acknowledged | Abandoned

  /** STEP_TRANSITIONS. */
  function StepTransitions(s: StepState): set<StepState> {
    match s
    case Pending => {Ready, Waived}
    case Ready => {Executing, Blocked, Waived, Failed}
    case Executing => {Executed, Blocked, Failed}
    case Executed => {ReviewRequired, Accepted}
    case ReviewRequired => {Reviewing, Blocked, Failed}
    case Reviewing => {Accepted, ChangesRequested, Blocked, Failed, ReviewRequired}
    case ChangesRequested => {Ready, ReviewRequired, Blocked, Failed}
    case Blocked => {Ready, Waived, Failed}
    case Accepted => {}
    case Waived => {}
    case Failed => {}
  }

  /** DISPATCH_TRANSITIONS. */
  function DispatchTransitions(s: DispatchState): set<DispatchState> {
    match s
    case Prepared => {Running, Abandoned}
    case Running => {Completed, DispatchFailed, Abandoned}
    case Completed => {Forwarded}
    case DispatchFailed => {}
    case Forwarded => {Acknowledged, Abandoned}
    case Acknowledged => {}
    case Abandoned => {}
  }

  datatype RunState =
    | NewRun | RunReady | RunRunning | WaitingOperator | RunHalted | RunFailed | RunSucceeded | RunCancelled

  /** RUN_TRANSITIONS. */
  function RunTransitions(s: RunState): set<RunState> {
    match s
    case NewRun => {RunReady, WaitingOperator, RunFailed, RunCancelled}
    case RunReady => {RunRunning, WaitingOperator, RunHalted, RunFailed, RunCancelled}
    case RunRunning => {WaitingOperator, RunHalted, RunFailed, RunSucceeded, RunCancelled}
    case WaitingOperator => {RunReady, RunRunning, RunHalted, RunFailed, RunCancelled}
    case RunHalted => {}
    case RunFailed => {}
    case RunSucceeded => {}
    case RunCancelled => {}
  }

  lemma OnlyRunningSucceeds(s: RunState)
    ensures RunSucceeded in RunTransitions(s) <==> s.RunRunning?
  {
  }

  /** ACTIVE_DISPATCH_STATES. */
  predicate IsActive(s: DispatchState) { s in {Prepared, Running, Completed, Forwarded} }

  predicate Settled(s: StepState) { s in {Accepted, Waived} }

  datatype StepRecord = StepRecord(
    state: StepState, gateResolved: bool, artifacts: seq<string>, acceptances: nat, reviewWaived: bool,
    waiver: Option<string>)

  datatype Dispatch = Dispatch(step: string, role: string, state: DispatchState)

  /** The transitions of `transition_step`: the table, and the waiver of a required review. */
  predicate StepMoves(s: StepState, t: StepState) {
    t in StepTransitions(s) || (s.ReviewRequired? && t.Accepted?)
  }

  /** A settled step is never touched again. */
  lemma SettledStays(s: StepState, t: StepState)
    requires Settled(s)
    ensures !StepMoves(s, t)
  {
  }

  /** The inactive dispatch states are the final ones. */
  lemma InactiveIsFinal(s: DispatchState)
    ensures !IsActive(s) <==> DispatchTransitions(s) == {}
  {
    if IsActive(s) {
      assert s.Prepared? ==> Running in DispatchTransitions(s);
      assert s.Running? ==> Completed in DispatchTransitions(s);
      assert s.Completed? ==> Forwarded in DispatchTransitions(s);
      assert s.Forwarded? ==> Acknowledged in DispatchTransitions(s);
    }
  }
}
