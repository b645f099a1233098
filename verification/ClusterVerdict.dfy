/** How an execution has to end, as a function of what its commands and its children answered. */
module ClusterVerdict {
  import opened Common
  import opened ClusterManifest
  import opened ClusterLifecycle
  import opened ClusterTrace
  import opened ClusterCommands
  import opened ClusterWorld
  import opened ClusterSteps
  import opened ClusterPlan

  datatype Outcome = Returned(record: Record, status: Status) | RunnerRaised | StoreRaised

  /** All commands of the plan were issued. */
  predicate AllIssued(plan: Plan, a: Account)
    requires AllHelm(plan.helm) && WithinPlan(plan, a)
  {
    a.d == |plan.dry| && a.m == |plan.helm| && a.q == |ProbeCommands(plan.helm)|
  }

  /** All these commands but the last one reported success. */
  predicate ZeroBefore(results: seq<CommandOutcome>) {
    forall i | 0 <= i < |results| - 1 :: results[i] == Completed(0)
  }

  predicate Fails(results: seq<CommandOutcome>) {
    results != [] && results[|results| - 1] != Completed(0)
  }

  lemma CleanUnlessFails(results: seq<CommandOutcome>)
    requires ZeroBefore(results)
    ensures AllZero(results) <==> !Fails(results)
  {
    if Fails(results) {
      assert results[|results| - 1] in results;
    } else {
      forall o | o in results
        ensures o == Completed(0)
      {
        var i :| 0 <= i < |results| && results[i] == o;
      }
    }
  }

  /** The last command reported a failure, rather than nothing. */
  predicate FailsDefinitely(results: seq<CommandOutcome>) {
    Fails(results) && results[|results| - 1].Completed?
  }

  /** What the pair that was tried last means. */
  function LastVerdict(argv: Action -> Token, plan: Plan, a: Account): PairVerdict
    requires 0 < |a.seen| <= |plan.pairs|
  {
    VerdictOn(argv(plan.pairs[|a.seen| - 1].forward), a.seen[|a.seen| - 1])
  }

  /** The started upgrades have to be rolled back: an upgrade or a readiness probe definitely failed, or a
      pair did. */
  predicate Undoes(argv: Action -> Token, plan: Plan, a: Account)
    requires |a.seen| <= |plan.pairs|
  {
    a.m > 0 && (FailsDefinitely(a.results) || (a.seen != [] && LastVerdict(argv, plan, a).Failing?))
  }

  /** Each phase, command and pair comes only behind the success of everything before it, and a rollback
      only behind a definite failure. */
  predicate Tidy(argv: Action -> Token, plan: Plan, a: Account)
    requires AllHelm(plan.helm)
  {
    && WithinPlan(plan, a)
    && |a.results| == |Planning(plan.dry, plan.helm, a.d, a.m, a.q)| && ZeroBefore(a.results)
    && (a.seen != [] ==>
          && AllIssued(plan, a) && !Fails(a.results)
          && AllServed(argv, plan.pairs, a.seen, |a.seen| - 1))
    && (a.outs != [] ==> Undoes(argv, plan, a))
  }

  datatype End = Raises | Ends(status: Status)

  /** The end of the execution. */
  function EndOf(argv: Action -> Token, base: Record, plan: Plan, a: Account): End
    requires AllHelm(plan.helm) && WithinPlan(plan, a)
  {
    if Undoes(argv, plan, a) then Ends(if AllZero(a.outs) then RolledBack else ReconciliationRequired)
    else if Fails(a.results) then
      if a.m > 0 then Ends(ReconciliationRequired)
      else if FailsDefinitely(a.results) then Ends(Failed)
      else Raises
    else if a.seen != [] then
      match LastVerdict(argv, plan, a)
      case IsServed => Ends(Succeeded)
      case Failing => Ends(Failed)
      case Doubtful => Ends(ReconciliationRequired)
    else if plan.helm != [] then Ends(Succeeded)
    else Ends(if base.status.Approved? && plan.dry != [] then ServerDryRunPassed else base.status)
  }

  predicate Matches(r: Outcome, e: End) {
    match e
    case Raises => r.RunnerRaised?
    case Ends(status) => r.Returned? && r.status == status
  }

  /** The end behind the last pair, as its verdict demands. */
  predicate EndsPair(v: PairVerdict, started: seq<Planned>, r: Outcome, outs: seq<CommandOutcome>) {
    && r.Returned?
    && match v
       case IsServed => false
       case Failing =>
         if started == [] then r.status.Failed? && outs == []
         else |outs| == |started| && r.status == if AllZero(outs) then RolledBack else ReconciliationRequired
       case Doubtful => r.status.ReconciliationRequired? && outs == []
  }

  /** A row that no execution will ever move on its own again. */
  predicate AtRest(s: Status) { s in {Succeeded, Failed, RolledBack, ReconciliationRequired} }

  /** Upgrades without dry-runs: the one plan that the runner turns down itself. */
  predicate Unprepared(base: Record, plan: Plan) {
    base.status.Approved? && plan.dry == [] && plan.helm != []
  }

  /** When a quiet execution raises instead of returning a result: a dry-run reports nothing, or, before
      the forwards, more results come than the row, which held `known` before, can hold evidence of. */
  predicate Strands(known: nat, a: Account) {
    && a.seen == []
    && (|| known + CountCompleted(a.results + a.outs) > 200
        || (a.m == 0 && Fails(a.results) && !FailsDefinitely(a.results)))
  }

  /** The execution went as far as the answers let it, no further, and ended accordingly. */
  predicate Exact(argv: Action -> Token, base: Record, plan: Plan, r: Outcome, a: Account)
    requires AllHelm(plan.helm)
  {
    if Unprepared(base, plan) then r.RunnerRaised? && a == Account(0, 0, 0, [], [], [])
    else
      && Tidy(argv, plan, a)
      && |a.outs| == (if Undoes(argv, plan, a) then a.m else 0)
      && (!Fails(a.results) ==>
            && AllIssued(plan, a)
            && (plan.pairs != [] ==>
                  a.seen != [] && (|a.seen| == |plan.pairs| || !LastVerdict(argv, plan, a).IsServed?)))
      && Matches(r, EndOf(argv, base, plan, a))
  }

  /** Success, exactly: everything was issued and succeeded, and every pair was served. */
  lemma SucceedsExactly(argv: Action -> Token, base: Record, plan: Plan, r: Outcome, a: Account)
    requires AllHelm(plan.helm) && Exact(argv, base, plan, r, a) && !base.status.Succeeded?
    ensures r.Returned? && r.status.Succeeded? <==>
            && (plan.helm != [] || plan.pairs != []) && !Unprepared(base, plan)
            && Tidy(argv, plan, a) && AllIssued(plan, a) && AllZero(a.results)
            && |a.seen| == |plan.pairs| && AllServed(argv, plan.pairs, a.seen, |a.seen|)
  {
    hide Planning, ProbeCommands, AllHelm, VerdictOn;
    if !Unprepared(base, plan) {
      CleanUnlessFails(a.results);
    }
  }

  /** Compensation, exactly: a definite failure of an upgrade, a readiness probe or a pair rolls back every
      started upgrade, and nothing else does; the row is ROLLED_BACK when all rollbacks succeeded. */
  lemma CompensatesExactly(argv: Action -> Token, base: Record, plan: Plan, r: Outcome, a: Account)
    requires AllHelm(plan.helm) && Exact(argv, base, plan, r, a) && !Unprepared(base, plan)
    requires base.status.Approved? || base.status.ServerDryRunPassed?
    ensures a.outs != [] <==>
            a.m > 0 && (FailsDefinitely(a.results) || (a.seen != [] && LastVerdict(argv, plan, a).Failing?))
    ensures a.outs != [] ==>
              && |a.outs| == a.m && r.Returned?
              && r.status == if AllZero(a.outs) then RolledBack else ReconciliationRequired
    ensures r.Returned? && r.status.RolledBack? ==> a.outs != []
    ensures r.Returned? && r.status.Failed? <==>
            && a.m == 0
            && (FailsDefinitely(a.results) || (a.seen != [] && LastVerdict(argv, plan, a).Failing?))
    ensures r.RunnerRaised? <==> a.m == 0 && Fails(a.results) && !FailsDefinitely(a.results)
    ensures !r.StoreRaised?
  {
    hide Planning, ProbeCommands, AllHelm, VerdictOn;
  }
}
