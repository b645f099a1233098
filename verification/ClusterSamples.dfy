/** Concrete rows: a valid manifest whose evidence no row can hold, and a first run that is never settled. */
module ClusterSamples {
  import opened Common
  import opened ClusterManifest
  import opened ClusterLifecycle
  import opened ClusterHistory
  import opened ClusterTrace
  import opened ClusterProgress
  import opened ClusterCommands
  import opened ClusterWorld
  import opened ClusterSteps
  import opened ClusterPlan
  import opened ClusterVerdict
  import opened ClusterRunner
  import opened ClusterCoordinator

  /** Names of different lengths. */
  function Name(i: nat): string { seq(i, _ => 'r') }

  /** `d` dry-runs, then `n` upgrades of different releases with `p` readiness probes each. */
  function Scope(d: nat, n: nat, p: nat): (r: seq<Action>)
    ensures |r| == d + n
    ensures forall i | 0 <= i < d + n :: r[i] == if i < d then DryRun("n") else Helm(Release("n", Name(i)), p)
  {
    seq(d + n, i requires 0 <= i < d + n => if i < d then DryRun("n") else Helm(Release("n", Name(i)), p))
  }

  function SampleOperation(d: nat, n: nat, p: nat): Operation {
    Operation("step", "target", Manifest("operation", ["n"], ["f"], [], Scope(d, n, p)), 0)
  }

  lemma SampleDeclared(d: nat, n: nat, p: nat)
    ensures DeclaredScope(SampleOperation(d, n, p).manifest)
  {
    var a := Scope(d, n, p);
    forall x | x in a
      ensures !x.IsPaired() && x.Namespace() == "n"
    {
      var i :| 0 <= i < |a| && a[i] == x;
    }
    assert forall i | 0 <= i < |a| :: a[i] in a;
  }

  /** One rollback entry for each upgrade. */
  function Entries(d: nat, n: nat): seq<ReleaseSnapshot> {
    seq(n, i requires 0 <= i < n => NewRelease(Release("n", Name(d + i))))
  }

  lemma EntriesDistinct(d: nat, n: nat)
    ensures DistinctReleases(Entries(d, n))
  {
    forall i, j | 0 <= i < j < n
      ensures Entries(d, n)[i].release != Entries(d, n)[j].release
    {
      assert |Name(d + i)| != |Name(d + j)|;
    }
  }

  lemma EntriesExact(d: nat, n: nat, p: nat)
    ensures RollbackExact(Scope(d, n, p), Entries(d, n))
  {
    var a, e := Scope(d, n, p), Entries(d, n);
    forall i, j | 0 <= i < j < |a| && a[i].Helm? && a[j].Helm?
      ensures a[i].release != a[j].release
    {
      assert |Name(i)| != |Name(j)|;
    }
    forall x | x in HelmReleases(a)
      ensures x in set s | s in e :: s.release
    {
      var i :| 0 <= i < |a| && a[i].Helm? && a[i].release == x;
      assert e[i - d].release == x;
    }
    forall s | s in e
      ensures s.release in HelmReleases(a)
    {
      var i :| 0 <= i < n && e[i] == s;
      assert a[d + i] in a && a[d + i].release == s.release;
    }
  }

  // ---------------------------------------------------------------------------------------------
  // The row of such an operation, up to its approval

  /** What the row takes from the configuration. */
  datatype Setup = Setup(digest: Action -> Token, config: Token, toolchain: Token)

  function SampleDigests(s: Setup, d: nat, n: nat, p: nat): seq<ActionDigest> {
    StaticDigests(Scope(d, n, p), s.digest)
  }

  function SampleSnapshot(s: Setup, d: nat, n: nat, p: nat): Snapshot {
    Snapshot(SampleIdentity(s), SampleDigests(s, d, n, p), Entries(d, n), s.toolchain, Some(0), 7, 0, 10)
  }

  function SampleApproval(s: Setup, d: nat, n: nat, p: nat): Approval {
    Approval(PreauthorizedEnvelope, "run", "step", "operation", "revision", Some(7), Some(0), SampleDigests(s, d, n, p),
             0, 0, 10)
  }

  function SampleIdentity(s: Setup): Identity {
    Identity("run", "step", "operation", "revision", "target", 0, s.config, 0)
  }

  /** The versions of the row: discovered, validated, with its snapshot, approved. */
  function SampleRow(s: Setup, d: nat, n: nat, p: nat, i: nat): Record {
    var r := Record(SampleIdentity(s), SampleDigests(s, d, n, p), 0, 10, Discovered, i + 1, None, None,
                    [], [], [], 0, 0);
    if i == 0 then r
    else if i == 1 then r.(status := StaticValidated)
    else if i == 2 then r.(status := SnapshotCaptured, snapshot := Some(SampleSnapshot(s, d, n, p)))
    else r.(status := Approved, snapshot := Some(SampleSnapshot(s, d, n, p)),
            approval := Some(SampleApproval(s, d, n, p)))
  }

  function SampleWrite(s: Setup, d: nat, n: nat, p: nat, i: nat): Op {
    if i == 0 then ToStatus(StaticValidated, 0)
    else if i == 1 then WithSnapshot(SampleSnapshot(s, d, n, p), 0)
    else WithApproval(SampleApproval(s, d, n, p), 0)
  }

  lemma DigestsDistinct(actions: seq<Action>, digest: Action -> Token)
    ensures DistinctActions(StaticDigests(actions, digest))
  {
  }

  /** Every action of such a list stands at its own position. */
  lemma PositionAt(s: seq<ActionDigest>, i: nat)
    requires DistinctActions(s) && i < |s|
    ensures Position(s, s[i].action) == i
  {
  }

  lemma SampleApproved(s: Setup, d: nat, n: nat, p: nat)
    ensures ApprovalMatches(SampleRow(s, d, n, p, 2), SampleApproval(s, d, n, p))
    ensures ApprovalMatches(SampleRow(s, d, n, p, 3), SampleApproval(s, d, n, p))
  {
    hide Position, SampleDigests;
    var a := SampleDigests(s, d, n, p);
    assert DistinctActions(a) by {
      SampleDistinct(s, d, n, p);
    }
    forall i, j | 0 <= i < j < |a|
      ensures Position(a, a[i].action) <= Position(a, a[j].action)
    {
      PositionAt(a, i);
      PositionAt(a, j);
    }
  }

  lemma SampleDistinct(s: Setup, d: nat, n: nat, p: nat)
    ensures DistinctActions(SampleDigests(s, d, n, p)) && |SampleDigests(s, d, n, p)| == d + n
  {
  }

  lemma SampleValid(s: Setup, d: nat, n: nat, p: nat, i: nat)
    requires 1 <= d + n <= 20 && i < 4
    ensures ValidRecord(SampleRow(s, d, n, p, i))
    ensures ValidRecord(SampleRow(s, d, n, p, i).(generation := if i > 0 then i else 1))
  {
    SampleDistinct(s, d, n, p);
    EntriesDistinct(d, n);
    SampleApproved(s, d, n, p);
    hide SampleDigests, Entries, DistinctActions, DistinctReleases, Position;
  }

  lemma SampleCommits(s: Setup, d: nat, n: nat, p: nat, i: nat)
    requires 1 <= d + n <= 20 && i < 3
    ensures Commit(SampleRow(s, d, n, p, i), SampleWrite(s, d, n, p, i)) == Ok(SampleRow(s, d, n, p, i + 1))
  {
    SampleValid(s, d, n, p, i + 1);
    SampleApproved(s, d, n, p);
    hide ValidRecord, SampleDigests, ApprovalMatches;
  }

  /** Its history up to version `i`. */
  function SampleHistory(s: Setup, d: nat, n: nat, p: nat, i: nat): (h: seq<Record>)
    ensures |h| == i + 1 && h[i] == SampleRow(s, d, n, p, i)
  {
    (if i == 0 then [] else SampleHistory(s, d, n, p, i - 1)) + [SampleRow(s, d, n, p, i)]
  }

  lemma {:induction false} SampleIsHistory(s: Setup, d: nat, n: nat, p: nat, i: nat)
    requires 1 <= d + n <= 20 && i <= 3
    ensures IsHistory(SampleHistory(s, d, n, p, i))
  {
    if i == 0 {
      SampleValid(s, d, n, p, 0);
      hide ValidRecord, SampleDigests;
      assert SampleHistory(s, d, n, p, 0) == [SampleRow(s, d, n, p, 0)];
    } else {
      SampleIsHistory(s, d, n, p, i - 1);
      SampleCommits(s, d, n, p, i - 1);
      hide Commit, SampleRow, SampleWrite;
      HistoryExtend(SampleHistory(s, d, n, p, i - 1), SampleWrite(s, d, n, p, i - 1));
    }
  }

  // ---------------------------------------------------------------------------------------------
  // Its launch

  /** An approval that lists every action once, read as a dictionary. */
  lemma {:induction false} AllowedAll(s: seq<ActionDigest>, i: nat)
    requires DistinctActions(s) && i < |s|
    ensures s[i].action in AllowedMap(s) && AllowedMap(s)[s[i].action] == s[i].sha256
  {
    var k := |s| - 1;
    assert s[i] in s;
    if i < k {
      AllowedAll(s[..k], i);
      assert s[..k][i] == s[i];
    }
  }

  /** All actions are kept. */
  lemma AllKept(a: seq<Action>, approved: set<nat>)
    requires forall i | 1 <= i <= |a| :: i in approved
    ensures Kept(a, approved, |a|) == Number(a)
  {
    KeptSplit(a, approved, 0, |a|);
    assert Number(a)[0..|a|] == Number(a);
    assert Kept(a, approved, 0) + Number(a) == Number(a);
  }

  lemma {:induction false} FilterDry(s: seq<Planned>)
    requires AllDryRun(s)
    ensures DryRuns(s) == s && Helms(s) == []
  {
    if s != [] {
      FilterDry(s[..|s| - 1]);
      assert s == s[..|s| - 1] + [s[|s| - 1]];
      FilterLast(s[..|s| - 1], s[|s| - 1]);
      assert s[|s| - 1] in s;
    }
  }

  lemma {:induction false} FilterHelm(s: seq<Planned>)
    requires AllHelm(s)
    ensures DryRuns(s) == [] && Helms(s) == s
  {
    if s != [] {
      FilterHelm(s[..|s| - 1]);
      assert s == s[..|s| - 1] + [s[|s| - 1]];
      FilterLast(s[..|s| - 1], s[|s| - 1]);
      assert s[|s| - 1] in s;
    }
  }

  lemma SampleShape(d: nat, n: nat, p: nat)
    ensures var s := Number(Scope(d, n, p));
            && DryRuns(s) == s[..d] && Helms(s) == s[d..] && DryRunsLead(s)
            && LinkedUpTo(s, |s|) && PairsUpTo(s, |s|) == []
            && forall x | x in s[d..] :: x.action.Helm? && x.action.probes == p
  {
    hide Number, Scope, DryRuns, Helms, PairsUpTo;
    var s := Number(Scope(d, n, p));
    SampleParts(d, n, p);
    SplitFilters(s, d);
    assert s + [] == s;
    NoPairs(s, [], |s|);
  }

  /** A list of dry-runs, then of upgrades. */
  lemma SplitFilters(s: seq<Planned>, d: nat)
    requires d <= |s| && AllDryRun(s[..d]) && AllHelm(s[d..])
    ensures DryRuns(s) == s[..d] && Helms(s) == s[d..] && DryRunsLead(s)
  {
    assert s == s[..d] + s[d..];
    FilterDry(s[..d]);
    FilterHelm(s[d..]);
    FilterAppend(s[..d], s[d..]);
    hide DryRuns, Helms;
    assert s[..d] + [] == s[..d] && [] + s[d..] == s[d..];
    forall i | d <= i < |s|
      ensures !s[i].action.DryRun?
    {
      assert s[i] in s[d..];
    }
  }

  lemma SampleParts(d: nat, n: nat, p: nat)
    ensures var s := Number(Scope(d, n, p));
            && |s| == d + n && AllDryRun(s[..d]) && AllHelm(s[d..])
            && (forall x | x in s[d..] :: x.action.Helm? && x.action.probes == p)
            && forall x | x in s :: !x.action.IsPaired()
  {
  }

  lemma SampleLaunches(runner: ClusterOperationRunner, s: Setup, d: nat, n: nat, p: nat)
    requires runner.digest == s.digest && runner.config == s.config && runner.toolchain == s.toolchain && d > 0
    ensures var op, record := SampleOperation(d, n, p), SampleRow(s, d, n, p, 3);
            && runner.Launchable(op, record)
            && runner.PlanFor(op, record) == Plan(Number(Scope(d, n, p))[..d], Number(Scope(d, n, p))[d..], [])
  {
    hide DryRuns, Helms, Kept, AllowedMap, Number, DryRunsLead, Scope, Entries, RollbackExact;
    var op, record := SampleOperation(d, n, p), SampleRow(s, d, n, p, 3);
    SampleAgrees(runner, s, d, n, p);
    SampleAllowed(s, d, n, p);
    AllKept(Scope(d, n, p), AllowedMap(SampleDigests(s, d, n, p)).Keys);
    SampleShape(d, n, p);
    hide SampleDigests, ClusterOperationRunner.LaunchAgrees;
    var t := Number(Scope(d, n, p));
    assert t[0] in t;
  }

  lemma SampleAgrees(runner: ClusterOperationRunner, s: Setup, d: nat, n: nat, p: nat)
    requires runner.digest == s.digest && runner.config == s.config && runner.toolchain == s.toolchain
    ensures runner.LaunchAgrees(SampleOperation(d, n, p), SampleRow(s, d, n, p, 3))
  {
    EntriesExact(d, n, p);
  }

  lemma SampleAllowed(s: Setup, d: nat, n: nat, p: nat)
    ensures var a, allowed := Scope(d, n, p), AllowedMap(SampleDigests(s, d, n, p));
            && (forall i | 1 <= i <= |a| :: i in allowed)
            && DigestsAgree(a, allowed, s.digest, |a|) && PairsApproved(a, allowed.Keys, |a|)
  {
    hide AllowedMap;
    var a, allowed := Scope(d, n, p), AllowedMap(SampleDigests(s, d, n, p));
    SampleDistinct(s, d, n, p);
    forall i | 1 <= i <= |a|
      ensures i in allowed && allowed[i] == s.digest(a[i - 1])
    {
      AllowedAll(SampleDigests(s, d, n, p), i - 1);
    }
    forall x | x in Number(a)[..|a|]
      ensures 1 <= x.index <= |a| && x.action == a[x.index - 1]
    {
      var i :| 0 <= i < |a| && Number(a)[i] == x;
    }
  }

  lemma {:induction false} ProbeCount(s: seq<Planned>, p: nat)
    requires AllHelm(s) && forall x | x in s :: x.action.Helm? && x.action.probes == p
    ensures |ProbeCommands(s)| == |s| * p
  {
    if s != [] {
      assert s[|s| - 1] in s;
      ProbeCount(s[..|s| - 1], p);
      assert (|s| - 1) * p + p == |s| * p;
    }
  }

  // ---------------------------------------------------------------------------------------------
  // The two rows

  /** A valid manifest of five actions, approved in full, with more commands than a row can hold evidence
      of: it is launched, and no execution of it ends in SUCCEEDED. */
  lemma NeverSucceeds(runner: ClusterOperationRunner)
    returns (op: Operation, h: seq<Record>, record: Record, plan: Plan)
    ensures DeclaredScope(op.manifest) && |op.manifest.actions| == 5 && IsHistory(h) && record == h[|h| - 1]
    ensures record.status.Approved? && runner.Launchable(op, record) && plan == runner.PlanFor(op, record)
    ensures PlanOk(Rollbacks(record), plan) && |Whole(plan)| == 205
    ensures forall releases0, r, a | runner.Finished(releases0, record, plan, r, a) ::
              !(r.Returned? && r.status.Succeeded?)
  {
    hide ClusterOperationRunner.Finished, ClusterOperationRunner.Launchable, ClusterOperationRunner.PlanFor, PlanOk,
      IsHistory, ValidRecord, DeclaredScope, ProbeCommands, SampleDigests;
    var s := Setup(runner.digest, runner.config, runner.toolchain);
    op, h := SampleOperation(1, 4, 50), SampleHistory(s, 1, 4, 50, 3);
    record := SampleRow(s, 1, 4, 50, 3);
    SampleDeclared(1, 4, 50);
    SampleIsHistory(s, 1, 4, 50, 3);
    SampleValid(s, 1, 4, 50, 3);
    SampleLaunches(runner, s, 1, 4, 50);
    runner.LaunchPlan(op, record);
    plan := runner.PlanFor(op, record);
    SampleShape(1, 4, 50);
    ProbeCount(plan.helm, 50);
    assert |Whole(plan)| == 205;
    forall releases0, r, a | runner.Finished(releases0, record, plan, r, a) && r.Returned? && r.status.Succeeded?
      ensures false
    {
      runner.SucceededIsComplete(releases0, record, plan, r, a);
    }
  }

  /** The dry-runs succeed, except for the second one, which reports nothing. */
  predicate LosesSecond(a: Account) {
    forall k | 0 <= k < a.d :: k < |a.results| && a.results[k] == if k == 1 then NoResult else Completed(0)
  }

  /** Two dry-runs and an upgrade, of which the second dry-run reports nothing. */
  lemma SecondDryRunStrands(argv: Action -> Token, base: Record, plan: Plan, r: Outcome, a: Account)
    requires AllHelm(plan.helm) && !Unprepared(base, plan) && |plan.dry| == 2
    requires Exact(argv, base, plan, r, a)
    requires LosesSecond(a)
    ensures Stranded(a)
  {
    hide ProbeCommands, AllServed, VerdictOn, AllHelm;
    var size := |Planning(plan.dry, plan.helm, a.d, a.m, a.q)|;
    assert size == a.d + a.m + a.q;
    hide Planning;
    assert a.d > 1 ==> a.results[1] == NoResult;
    assert ZeroBefore(a.results);
    assert Fails(a.results);
  }

  function SampleScript(s: Setup): nat -> Answer {
    (k: nat) =>
      Answer(0, true, [], Applied, true, if k == 13 then NoResult else Completed(0), None,
             SpawnRaised, IsReady, IsClosed, ProbeRaised,
             Some(SampleSnapshot(s, 2, 1, 1)), Some(SampleApproval(s, 2, 1, 1)))
  }

  /** A first run in a quiet journal whose second dry-run reports nothing: the step is not accepted, and
      the safe failure leaves the row unsettled. */
  method UnsettledRun(digest: Action -> Token, argv: Action -> Token, config: Token, toolchain: Token)
    returns (c: ClusterOperationCoordinator, ok: bool)
    ensures c.world.Valid() && !ok && !AtRest(c.Latest().status)
  {
    hide World.Valid, Commit, After, SampleSnapshot, SampleApproval, SampleDigests, IsHistory, DeclaredScope,
      SampleRow, SampleScript, SampleHistory, Name, Scope, SampleOperation, ClusterOperationCoordinator.Settled,
      World.Calm, ClusterOperationCoordinator.Reviewed, ClusterOperationCoordinator.Ours, SameOperation, Coordinated,
      Disciplined, ClusterOperationCoordinator.Until;
    var s := Setup(digest, config, toolchain);
    var op := SampleOperation(2, 1, 1);
    SampleIsHistory(s, 2, 1, 1, 1);
    SampleDeclared(2, 1, 1);
    var world := new World(SampleScript(s), 0, SampleHistory(s, 2, 1, 1, 1), map[]);
    c := new ClusterOperationCoordinator(world, digest, argv, config, toolchain, false);
    QuietStart(s, c);
    ghost var loaded, run;
    ok, loaded, run := c.ExecuteAfterReview(op, SampleRow(s, 2, 1, 1, 1));
    ExpiresAtTen(s, c, run.value);
    StrandedRun(s, c, run.value, ok);
  }

  lemma ExpiresAtTen(s: Setup, c: ClusterOperationCoordinator, run: Run)
    requires run.approved == SampleRow(s, 2, 1, 1, 3)
    ensures c.Until(run, 10)
  {
  }

  /** The script is quiet, and the review approves the row. */
  lemma QuietStart(s: Setup, c: ClusterOperationCoordinator)
    requires c.world.script == SampleScript(s) && c.world.cursor == 0 && c.world.clock == 0
    ensures c.world.Still() && c.world.Calm(10)
    ensures var row := SampleRow(s, 2, 1, 1, 1);
            && row.createdAt == 0 && c.Begins(row, row, 1)
            && c.Reviewed(row, 2, 0) == Some(SampleRow(s, 2, 1, 1, 3))
  {
    SampleCommits(s, 2, 1, 1, 1);
    SampleCommits(s, 2, 1, 1, 2);
    hide Commit, SampleSnapshot, SampleApproval, SampleDigests;
    CommitStores(SampleRow(s, 2, 1, 1, 1), SampleWrite(s, 2, 1, 1, 1));
    CommitStores(SampleRow(s, 2, 1, 1, 2), SampleWrite(s, 2, 1, 1, 2));
    hide After;
  }

  /** Such a run strands the row. */
  lemma StrandedRun(s: Setup, c: ClusterOperationCoordinator, run: Run, ok: bool)
    requires c.world.Valid() && c.world.script == SampleScript(s) && c.digest == s.digest && c.config == s.config
    requires c.toolchain == s.toolchain && c.Ours(run) && run.approved == SampleRow(s, 2, 1, 1, 3)
    requires c.Settled(SampleOperation(2, 1, 1), run, 9, ok)
    ensures !ok && !AtRest(c.Latest().status)
  {
    hide World.Valid, Tidy, Exact, SampleRow, SampleScript, SampleOperation, Unprepared, Stranded, LosesSecond,
      ClusterOperationRunner.Launchable, ClusterOperationRunner.PlanFor, ClusterOperationRunner.Answered, Scope,
      Number, SampleSnapshot, SampleApproval;
    SampleLaunches(run.runner, s, 2, 1, 1);
    assert c.world.script(9).inspected by {
      ScriptIs(s);
    }
    var a := run.account;
    SmallAccount(c.argv, run.plan, a);
    ScriptAnswers(s, run.runner, a);
    SecondDryRunStrands(c.argv, run.approved, run.plan, run.outcome, a);
  }

  lemma ScriptIs(s: Setup)
    ensures SampleScript(s)(9).inspected
    ensures Heard(SampleScript(s)(10)) == Completed(0) && Heard(SampleScript(s)(13)) == NoResult
  {
    hide SampleSnapshot, SampleApproval;
  }

  /** What the two dry-runs are told. */
  lemma ScriptAnswers(s: Setup, runner: ClusterOperationRunner, a: Account)
    requires runner.world.script == SampleScript(s) && runner.Answered(10, a) && a.d <= 2
    ensures LosesSecond(a)
  {
    hide SampleScript, Heard;
    ScriptIs(s);
    forall k | 0 <= k < a.d
      ensures k < |a.results| && a.results[k] == if k == 1 then NoResult else Completed(0)
    {
      assert a.results[k] == Heard(runner.world.script(10 + 3 * k));
    }
  }

  /** Two dry-runs, one upgrade and one probe report at most five results. */
  lemma SmallAccount(argv: Action -> Token, plan: Plan, a: Account)
    requires plan == Plan(Number(Scope(2, 1, 1))[..2], Number(Scope(2, 1, 1))[2..], [])
    requires AllHelm(plan.helm) && Tidy(argv, plan, a)
    ensures a.d <= |plan.dry| == 2 && CountCompleted(a.results + a.outs) <= 200
  {
    hide CountCompleted, ProbeCommands, Undoes, AllServed, Scope, Number;
    SampleParts(2, 1, 1);
    ProbeCount(plan.helm, 1);
    assert |Planning(plan.dry, plan.helm, a.d, a.m, a.q)| == a.d + a.m + a.q;
  }
}
