/** The launch plan that the runner derives from a manifest and an approval, and why it fits the row:
    its commands never collide, every upgrade has a rollback entry, and every pair can be served.
 */
module ClusterPlan {
  import opened Common
  import opened ClusterManifest
  import opened ClusterLifecycle
  import opened ClusterTrace
  import opened ClusterCommands
  import opened ClusterWorld
  import opened ClusterSteps

  /** The dry-runs still to issue, the Helm actions and the pairs. */
  datatype Plan = Plan(dry: seq<Planned>, helm: seq<Planned>, pairs: seq<Pair>)

  /** The journal's view of a manifest's actions: position and digest. */
  function StaticDigests(actions: seq<Action>, digest: Action -> Token): seq<ActionDigest> {
    seq(|actions|, i requires 0 <= i < |actions| => ActionDigest(i + 1, digest(actions[i])))
  }

  /** The approval read as a dictionary. */
  function AllowedMap(allowed: seq<ActionDigest>): (r: ActionDigests)
    ensures forall d :: d in r <==> exists x :: x in allowed && x.action == d
  {
    if allowed == [] then map[]
    else
      var last := allowed[|allowed| - 1];
      assert allowed == allowed[..|allowed| - 1] + [last];
      AllowedMap(allowed[..|allowed| - 1])[last.action := last.sha256]
  }

  function HelmReleases(actions: seq<Action>): set<Release> {
    set x | x in actions && x.Helm? :: x.release
  }

  predicate DistinctUpgrades(actions: seq<Action>) {
    forall i, j | 0 <= i < j < |actions| && actions[i].Helm? && actions[j].Helm? ::
      actions[i].release != actions[j].release
  }

  /** The snapshot's rollback entries are exactly those of the manifest's Helm releases. */
  predicate RollbackExact(actions: seq<Action>, rollbacks: seq<ReleaseSnapshot>) {
    && DistinctUpgrades(actions)
    && (set x | x in rollbacks :: x.release) == HelmReleases(actions)
  }

  /** What the execution relies on. */
  predicate PlanOk(rollbacks: seq<ReleaseSnapshot>, plan: Plan) {
    && AllHelm(plan.helm) && Increasing(plan.dry + plan.helm)
    && DistinctTargets(plan.helm) && Covered(rollbacks, plan.helm)
    && ForwardPairs(plan.pairs) && PairsFit(plan.pairs)
  }

  function Whole(plan: Plan): seq<Command>
    requires AllHelm(plan.helm)
  {
    Planning(plan.dry, plan.helm, |plan.dry|, |plan.helm|, |ProbeCommands(plan.helm)|)
  }

  /** Numbered actions stand at their own position. */
  lemma KeptAt(a: seq<Action>, approved: set<nat>, p: Planned)
    requires p in Kept(a, approved, |a|)
    ensures 1 <= p.index <= |a| && p.action == a[p.index - 1]
  {
    KeptMembers(a, approved, |a|);
    assert p in Number(a);
    var i :| 0 <= i < |a| && Number(a)[i] == p;
  }

  lemma HelmsCovered(a: seq<Action>, approved: set<nat>, rollbacks: seq<ReleaseSnapshot>)
    requires RollbackExact(a, rollbacks)
    ensures Covered(rollbacks, Helms(Kept(a, approved, |a|)))
  {
    var helm := Helms(Kept(a, approved, |a|));
    forall p | p in helm
      ensures HasSnapshot(rollbacks, p.action.release)
    {
      KeptAt(a, approved, p);
      assert p.action in a;
      assert p.action.release in HelmReleases(a);
      var x :| x in rollbacks && x.release == p.action.release;
    }
  }

  lemma HelmsDistinct(a: seq<Action>, approved: set<nat>)
    requires DistinctUpgrades(a) && Increasing(Helms(Kept(a, approved, |a|)))
    ensures DistinctTargets(Helms(Kept(a, approved, |a|)))
  {
    var helm := Helms(Kept(a, approved, |a|));
    forall i, j | 0 <= i < j < |helm|
      ensures helm[i].action.release != helm[j].action.release
    {
      assert helm[i] in helm && helm[j] in helm;
      KeptAt(a, approved, helm[i]);
      KeptAt(a, approved, helm[j]);
      assert a[helm[i].index - 1].Helm? && a[helm[j].index - 1].Helm?;
    }
  }

  /** The i-th pair stands at positions 2i and 2i + 1 of the tail. */
  lemma PairAt(a: seq<Action>, i: nat)
    requires Alternating(Number(a)[Leading(a)..])
    requires i < |AsPairs(Number(a)[Leading(a)..])|
    ensures var k, p := Leading(a), AsPairs(Number(a)[Leading(a)..])[i];
            && k + 2 * i + 1 < |a|
            && p.forward.Forward? && p.forward == a[k + 2 * i] && p.probeIndex == k + 2 * i + 2
  {
    hide Alternating, Leading;
    var tail := Number(a)[Leading(a)..];
    assert AsPairs(tail)[i].forward == tail[2 * i].action;
  }

  lemma PairsDiffer(a: seq<Action>, i: nat, j: nat)
    requires PairedScope(a)
    requires Alternating(Number(a)[Leading(a)..])
    requires i < j < |AsPairs(Number(a)[Leading(a)..])|
    ensures var pairs := AsPairs(Number(a)[Leading(a)..]);
            && pairs[i].forward.Forward? && pairs[j].forward.Forward?
            && pairs[i].forward.id != pairs[j].forward.id && pairs[i].probeIndex != pairs[j].probeIndex
  {
    hide Alternating, AsPairs, Leading, LinksDistinct, LinksMatch, ProbesFollow, PairsTrail;
    PairAt(a, i);
    PairAt(a, j);
  }

  lemma PairsOf(tail: seq<Planned>)
    requires Alternating(tail)
    ensures ForwardPairs(AsPairs(tail)) && 2 * |AsPairs(tail)| == |tail|
  {
    hide Alternating, AsPairs;
  }

  lemma TailFits(a: seq<Action>)
    requires PairedScope(a) && |a| <= 20
    requires Alternating(Number(a)[Leading(a)..])
    ensures ForwardPairs(AsPairs(Number(a)[Leading(a)..])) && PairsFit(AsPairs(Number(a)[Leading(a)..]))
  {
    hide PairedScope, Alternating, AsPairs, Leading, Number;
    var pairs := AsPairs(Number(a)[Leading(a)..]);
    PairsOf(Number(a)[Leading(a)..]);
    forall i, j | 0 <= i < j < |pairs|
      ensures pairs[i].forward.id != pairs[j].forward.id && pairs[i].probeIndex != pairs[j].probeIndex
    {
      PairsDiffer(a, i, j);
    }
  }

  /** A valid manifest and an accepted approval give a plan the execution can rely on. */
  lemma PlanFacts(a: seq<Action>, approved: set<nat>, rollbacks: seq<ReleaseSnapshot>)
    requires PairedScope(a) && |a| <= 20
    requires PairsApproved(a, approved, |a|) && DryRunsLead(Kept(a, approved, |a|))
    requires RollbackExact(a, rollbacks)
    ensures var s := Kept(a, approved, |a|);
            && LinkedUpTo(s, |s|)
            && PlanOk(rollbacks, Plan(DryRuns(s), Helms(s), PairsUpTo(s, |s|)))
            && PlanOk(rollbacks, Plan([], Helms(s), PairsUpTo(s, |s|)))
  {
    hide PairedScope, RollbackExact, Covered, DistinctTargets, PairsFit, ForwardPairs, PairsApproved, DryRunsLead;
    var s := Kept(a, approved, |a|);
    ApprovedShape(a, approved);
    KeptMembers(a, approved, |a|);
    var dry, helm, tail := DryRuns(s), Helms(s), Number(a)[Leading(a)..];
    IncreasingParts(dry + helm, tail);
    IncreasingParts(dry, helm);
    assert [] + helm == helm;
    HelmsCovered(a, approved, rollbacks);
    UpgradesDistinct(a, rollbacks);
    HelmsDistinct(a, approved);
    TailFits(a);
  }

  lemma UpgradesDistinct(a: seq<Action>, rollbacks: seq<ReleaseSnapshot>)
    requires RollbackExact(a, rollbacks)
    ensures DistinctUpgrades(a)
  {
  }

  /** Once every started upgrade is restored and nothing else was touched, the cluster is back where
      it was, provided the snapshot described it. */
  lemma CompensationRestores(before: map<Release, Content>, after: map<Release, Content>,
                             rollbacks: seq<ReleaseSnapshot>, helm: seq<Planned>)
    requires AllHelm(helm) && Covered(rollbacks, helm)
    requires SameOutside(before, after, ReleasesOf(helm)) && RestoredAll(after, rollbacks, helm, 0)
    requires forall p | p in helm ::
               p.action.release in before &&
               before[p.action.release] == Restored(SnapshotOf(rollbacks, p.action.release))
    ensures after == before
  {
    assert helm[0..] == helm;
    forall x
      ensures x in after <==> x in before
      ensures x in after && x in before ==> after[x] == before[x]
    {
      if x in ReleasesOf(helm) {
        var p :| p in helm && p.action.release == x;
      }
    }
  }

  // ---------------------------------------------------------------------------------------------
  // What an execution issued

  /** How far an execution went: dry-runs, mutations and readiness probes issued, what they reported,
      what the rollbacks reported, and what was seen of the pairs. */
  datatype Account = Account(d: nat, m: nat, q: nat, results: seq<CommandOutcome>, outs: seq<CommandOutcome>,
                             seen: seq<Seen>)

  /** A phase is entered only when the one before it is complete. */
  predicate WithinPlan(plan: Plan, a: Account)
    requires AllHelm(plan.helm)
  {
    && a.d <= |plan.dry| && a.m <= |plan.helm| && a.q <= |ProbeCommands(plan.helm)| && |a.outs| <= a.m
    && (a.m > 0 ==> a.d == |plan.dry|) && (a.q > 0 ==> a.m == |plan.helm| > 0)
    && |a.seen| <= |plan.pairs|
  }

  /** The commands of an account, in the order they were issued. */
  function IssuedCommands(plan: Plan, a: Account): seq<Command>
    requires AllHelm(plan.helm) && WithinPlan(plan, a)
  {
    Planning(plan.dry, plan.helm, a.d, a.m, a.q) + UndoCommands(plan.helm[..a.m])[..|a.outs|]
  }

  predicate Complete(plan: Plan, a: Account)
    requires AllHelm(plan.helm) && WithinPlan(plan, a)
  {
    && a.d == |plan.dry| && a.m == |plan.helm| && a.q == |ProbeCommands(plan.helm)| && a.outs == []
    && a.results == Zeros(Whole(plan))
  }

  function Zeros(commands: seq<Command>): seq<CommandOutcome> {
    seq(|commands|, i requires 0 <= i < |commands| => Completed(0))
  }

  lemma ZerosAppend(commands: seq<Command>, c: Command)
    ensures Zeros(commands + [c]) == Zeros(commands) + [Completed(0)]
    ensures Passed(commands + [c]) == Passed(commands) + [EvidenceOf(c, 0)]
  {
  }

  lemma {:induction false} ZerosEvidenced(evidence: seq<Evidence>, commands: seq<Command>)
    ensures Evidenced(evidence, evidence + Passed(commands), commands, Zeros(commands))
    decreases |commands|
  {
    hide EvidenceOf;
    if commands == [] {
      EvidencedNone(evidence);
    } else {
      var n := |commands| - 1;
      ZerosEvidenced(evidence, commands[..n]);
      EvidencedNext(evidence, evidence + Passed(commands[..n]), commands[..n], Zeros(commands[..n]), commands[n],
                    Completed(0));
      assert commands[..n] + [commands[n]] == commands;
      ZerosAppend(commands[..n], commands[n]);
      assert (evidence + Passed(commands[..n])) + [EvidenceOf(commands[n], 0)] == evidence + Passed(commands);
    }
  }

  lemma PlanningDry(plan: Plan, i: nat)
    requires AllHelm(plan.helm) && Increasing(plan.dry + plan.helm) && i < |plan.dry|
    ensures Planning(plan.dry, plan.helm, i, 0, 0) + [DryCommand(plan.dry[i])] ==
            Planning(plan.dry, plan.helm, i + 1, 0, 0)
    ensures Unused(Planning(plan.dry, plan.helm, i, 0, 0), DryCommand(plan.dry[i]).id)
    ensures |Planning(plan.dry, plan.helm, i, 0, 0)| == i
  {
    IncreasingParts(plan.dry, plan.helm);
    FreshDry(plan.dry, i);
    assert Planning(plan.dry, plan.helm, i, 0, 0) == DryCommands(plan.dry)[..i];
    assert Planning(plan.dry, plan.helm, i + 1, 0, 0) == DryCommands(plan.dry)[..i + 1];
  }

  lemma PlanningMutation(plan: Plan, i: nat)
    requires AllHelm(plan.helm) && Increasing(plan.dry + plan.helm) && i < |plan.helm|
    ensures Planning(plan.dry, plan.helm, |plan.dry|, i, 0) + [MutationCommand(plan.helm[i])] ==
            Planning(plan.dry, plan.helm, |plan.dry|, i + 1, 0)
    ensures Unused(Planning(plan.dry, plan.helm, |plan.dry|, i, 0), MutationCommand(plan.helm[i]).id)
    ensures |Planning(plan.dry, plan.helm, |plan.dry|, i, 0)| == |plan.dry| + i
  {
    FreshMutation(plan.dry, plan.helm, |plan.dry|, i);
    var d := DryCommands(plan.dry)[..|plan.dry|];
    assert Planning(plan.dry, plan.helm, |plan.dry|, i, 0) == d + MutationCommands(plan.helm)[..i];
    assert Planning(plan.dry, plan.helm, |plan.dry|, i + 1, 0) == d + MutationCommands(plan.helm)[..i + 1];
  }

  /** Probe j of action i is the next of the planned probes. */
  lemma PlanningProbe(plan: Plan, i: nat, j: nat)
    requires AllHelm(plan.helm) && Increasing(plan.dry + plan.helm)
    requires i < |plan.helm| && j < plan.helm[i].action.probes
    ensures var q := |ProbeCommands(plan.helm[..i])| + j;
            var c := ReadinessCommand(plan.helm[i], j + 1);
            && q < |ProbeCommands(plan.helm)|
            && Planning(plan.dry, plan.helm, |plan.dry|, |plan.helm|, q) + [c] ==
               Planning(plan.dry, plan.helm, |plan.dry|, |plan.helm|, q + 1)
            && Unused(Planning(plan.dry, plan.helm, |plan.dry|, |plan.helm|, q), c.id)
            && |Planning(plan.dry, plan.helm, |plan.dry|, |plan.helm|, q)| == |plan.dry| + |plan.helm| + q
  {
    hide ProbeCommands, Unused, Increasing;
    var helm, q := plan.helm, |ProbeCommands(plan.helm[..i])| + j;
    FreshProbe(plan.dry, helm, |plan.dry|, |helm|, i, j);
    ProbePrefix(helm, i, j);
    ProbePrefix(helm, i, j + 1);
    ProbeStep(helm, i, j);
  }

  lemma ProbeStep(helm: seq<Planned>, i: nat, j: nat)
    requires AllHelm(helm) && i < |helm| && j < helm[i].action.probes
    ensures ProbesOf(helm[i])[..j] + [ReadinessCommand(helm[i], j + 1)] == ProbesOf(helm[i])[..j + 1]
  {
  }

  /** The probes of the first i + 1 actions are those of the first i and those of the next. */
  lemma ProbesSoFar(helm: seq<Planned>, i: nat)
    requires AllHelm(helm) && i < |helm|
    ensures |ProbeCommands(helm[..i + 1])| == |ProbeCommands(helm[..i])| + helm[i].action.probes
    ensures |ProbeCommands(helm[..i])| <= |ProbeCommands(helm)|
  {
    assert helm[..i + 1][..i] == helm[..i];
    ProbePrefix(helm, i, 0);
  }

  /** Rolling back the mutations issued so far repeats no command. */
  lemma PlanCanUndo(t: Trace, rollbacks: seq<ReleaseSnapshot>, plan: Plan, m: nat, q: nat)
    requires PlanOk(rollbacks, plan) && Opened(t)
    requires m <= |plan.helm| && q <= |ProbeCommands(plan.helm)|
    requires Commands(t) == Planning(plan.dry, plan.helm, |plan.dry|, m, q)
    ensures CanUndo(t, rollbacks, plan.helm[..m])
  {
    hide Planning, UndoCommands, ProbeCommands, Opened, Commands, Unused;
    var started := plan.helm[..m];
    assert UndoSized(started) by { UndoLength(started); }
    forall n | 0 <= n < m
      ensures Unused(Commands(t) + UndoCommands(started)[..n], UndoCommands(started)[n].id)
    {
      FreshUndo(plan.dry, plan.helm, |plan.dry|, m, q, m, n);
    }
    StartedPart(rollbacks, plan, m);
  }

  predicate UndoSized(s: seq<Planned>) { |UndoCommands(s)| == |s| }

  lemma UndoLength(s: seq<Planned>)
    ensures UndoSized(s)
  {
  }

  lemma StartedPart(rollbacks: seq<ReleaseSnapshot>, plan: Plan, m: nat)
    requires PlanOk(rollbacks, plan) && m <= |plan.helm|
    ensures AllHelm(plan.helm[..m]) && DistinctTargets(plan.helm[..m]) && Covered(rollbacks, plan.helm[..m])
  {
    hide HasSnapshot, Increasing, PairsFit;
  }

  /** No command is recorded already. */
  predicate NoneRecorded(earlier: seq<Evidence>, commands: seq<Command>) {
    forall c, e | c in commands && e in earlier :: e.id != c.id
  }

  /** No command of the plan and no rollback is recorded already. */
  predicate Unrecorded(earlier: seq<Evidence>, plan: Plan)
    requires AllHelm(plan.helm)
  {
    NoneRecorded(earlier, Whole(plan) + UndoCommands(plan.helm))
  }

  lemma PlanningPrefix(plan: Plan, d: nat, m: nat, q: nat)
    requires AllHelm(plan.helm) && d <= |plan.dry| && m <= |plan.helm| && q <= |ProbeCommands(plan.helm)|
    requires (m > 0 ==> d == |plan.dry|) && (q > 0 ==> m == |plan.helm|)
    requires q > 0 ==> d == |plan.dry|
    ensures Planning(plan.dry, plan.helm, d, m, q) <= Whole(plan)
  {
    hide ProbeCommands, DryCommands, MutationCommands;
    PlanningSize(plan);
  }

  lemma PlanningSize(plan: Plan)
    ensures |DryCommands(plan.dry)| == |plan.dry| && |MutationCommands(plan.helm)| == |plan.helm|
  {
  }

  /** The next command of an unrecorded plan. */
  lemma UnrecordedNext(earlier: seq<Evidence>, plan: Plan, commands: seq<Command>, c: Command, d: nat, m: nat, q: nat)
    requires AllHelm(plan.helm) && d <= |plan.dry| && m <= |plan.helm| && q <= |ProbeCommands(plan.helm)|
    requires (m > 0 ==> d == |plan.dry|) && (q > 0 ==> m == |plan.helm|) && (q > 0 ==> d == |plan.dry|)
    requires commands + [c] == Planning(plan.dry, plan.helm, d, m, q)
    ensures Unrecorded(earlier, plan) ==> NoneRecorded(earlier, [c])
  {
    hide Planning, Whole, UndoCommands;
    PlanningPrefix(plan, d, m, q);
    assert (commands + [c])[|commands|] == c;
    assert Whole(plan)[|commands|] == c;
    assert c in Whole(plan) + UndoCommands(plan.helm);
  }

  /** The rollbacks of an unrecorded plan. */
  lemma UnrecordedUndo(earlier: seq<Evidence>, plan: Plan, m: nat)
    requires AllHelm(plan.helm) && m <= |plan.helm| && Unrecorded(earlier, plan)
    ensures NoneRecorded(earlier, UndoCommands(plan.helm[..m]))
  {
    hide Whole;
    forall c | c in UndoCommands(plan.helm[..m])
      ensures c in Whole(plan) + UndoCommands(plan.helm)
    {
      var i :| 0 <= i < m && UndoCommands(plan.helm[..m])[i] == c;
      assert c == UndoCommands(plan.helm)[|plan.helm| - m + i];
    }
  }

  /** A restart behind the dry-runs: their evidence is in the way of nothing that is still planned. */
  lemma RestartUnrecorded(dry: seq<Planned>, plan: Plan)
    requires AllHelm(plan.helm) && Increasing(dry + plan.helm) && plan.dry == []
    ensures Unrecorded(Passed(DryCommands(dry)), plan)
  {
    hide ProbeCommands;
    var earlier, more := Passed(DryCommands(dry)), Whole(plan) + UndoCommands(plan.helm);
    forall c, e | c in more && e in earlier
      ensures e.id != c.id
    {
      var i :| 0 <= i < |dry| && earlier[i] == e;
      assert e.id == ActionCommand(dry[i].index);
      if c in MutationCommands(plan.helm) {
        var j :| 0 <= j < |plan.helm| && MutationCommands(plan.helm)[j] == c;
        DryThenHelm(dry, plan.helm, i, j);
      } else if c in ProbeCommands(plan.helm) {
        ProbeMembers(plan.helm, c);
      }
    }
  }
}
