/** The vocabulary of the runner's contracts: how a trace grows, what the cluster looks like after a
    rollback, and how a served forward shows in the record.
 */
module ClusterSteps {
  import opened Common
  import opened ClusterManifest
  import opened ClusterLifecycle
  import opened ClusterHistory
  import opened ClusterProgress
  import opened ClusterTrace
  import opened ClusterCommands
  import opened ClusterWorld

  /** The trace grew by these commands and outcomes, and stayed disciplined. */
  predicate Extends(t0: Trace, t1: Trace, commands: seq<Command>, outcomes: seq<CommandOutcome>) {
    && t0 <= t1
    && Commands(t1) == Commands(t0) + commands
    && Outcomes(t1) == Outcomes(t0) + outcomes
    && (Opened(t0) ==> Opened(t1))
    && Disciplined(t1)
  }

  lemma ExtendsBoth(t0: Trace, t1: Trace, t2: Trace, c1: seq<Command>, o1: seq<CommandOutcome>, c2: seq<Command>,
                    o2: seq<CommandOutcome>)
    requires Extends(t0, t1, c1, o1) && Extends(t1, t2, c2, o2)
    ensures Extends(t0, t2, c1 + c2, o1 + o2)
  {
    hide Disciplined, Opened, Commands, Outcomes;
  }

  lemma ExtendsQuietly(t0: Trace, t1: Trace, t2: Trace, commands: seq<Command>, outcomes: seq<CommandOutcome>)
    requires Extends(t0, t1, [], []) && Extends(t1, t2, commands, outcomes)
    ensures Extends(t0, t2, commands, outcomes)
  {
    hide Disciplined, Opened, Commands, Outcomes;
  }

  lemma ExtendsMeans(t0: Trace, t1: Trace, commands: seq<Command>, outcomes: seq<CommandOutcome>)
    requires Extends(t0, t1, commands, outcomes)
    ensures Commands(t1) == Commands(t0) + commands && Disciplined(t1) && (Opened(t0) ==> Opened(t1))
  {
    hide Disciplined, Opened, Commands;
  }

  /** At most one journal write happened. */
  predicate OneWrite(t0: Trace, t1: Trace) {
    t1 == t0 || (|t1| == |t0| + 1 && t1[..|t0|] == t0 && t1[|t0|].Wrote?)
  }

  predicate SameChildren(t0: Trace, t1: Trace) {
    Children(t1) == Children(t0) && Closes(t1) == Closes(t0) && Sights(t1) == Sights(t0)
  }

  /** The evidence of commands that all succeeded. */
  function Passed(s: seq<Command>): seq<Evidence> {
    seq(|s|, i requires 0 <= i < |s| => EvidenceOf(s[i], 0))
  }

  /** The evidence of these commands: one entry for each that reported a result, in order. */
  function Recorded(commands: seq<Command>, outcomes: seq<CommandOutcome>): seq<Evidence>
    requires |commands| == |outcomes|
  {
    if commands == [] then [] else
      var n := |commands| - 1;
      Recorded(commands[..n], outcomes[..n])
      + (if outcomes[n].Completed? then [EvidenceOf(commands[n], outcomes[n].returncode)] else [])
  }

  lemma {:induction false} RecordedSize(commands: seq<Command>, outcomes: seq<CommandOutcome>)
    requires |commands| == |outcomes|
    ensures |Recorded(commands, outcomes)| == CountCompleted(outcomes)
  {
    if commands != [] {
      RecordedSize(commands[..|commands| - 1], outcomes[..|commands| - 1]);
    }
  }

  /** What these commands reported is the evidence that was added. */
  predicate Evidenced(before: seq<Evidence>, after: seq<Evidence>, commands: seq<Command>,
                      outcomes: seq<CommandOutcome>)
  {
    |commands| == |outcomes| && after == before + Recorded(commands, outcomes)
  }

  lemma EvidencedNone(evidence: seq<Evidence>)
    ensures Evidenced(evidence, evidence, [], [])
  {
    assert evidence + [] == evidence;
  }

  lemma EvidencedNext(before: seq<Evidence>, after: seq<Evidence>, commands: seq<Command>,
                      outcomes: seq<CommandOutcome>,
                      c: Command, out: CommandOutcome)
    requires Evidenced(before, after, commands, outcomes)
    ensures Evidenced(before, if out.Completed? then after + [EvidenceOf(c, out.returncode)] else after, commands + [c],
                      outcomes + [out])
  {
    hide EvidenceOf;
    assert (commands + [c])[..|commands|] == commands && (outcomes + [out])[..|commands|] == outcomes;
    if out.NoResult? {
      assert Recorded(commands + [c], outcomes + [out]) == Recorded(commands, outcomes);
    }
  }

  lemma {:induction false} EvidencedBoth(e0: seq<Evidence>, e1: seq<Evidence>, e2: seq<Evidence>, c1: seq<Command>,
                                         o1: seq<CommandOutcome>, c2: seq<Command>, o2: seq<CommandOutcome>)
    requires Evidenced(e0, e1, c1, o1) && Evidenced(e1, e2, c2, o2)
    ensures Evidenced(e0, e2, c1 + c2, o1 + o2)
    decreases |c2|
  {
    hide EvidenceOf;
    if c2 == [] {
      assert c1 + c2 == c1 && o1 + o2 == o1 && e1 + [] == e1;
    } else {
      var n := |c2| - 1;
      var e := e1 + Recorded(c2[..n], o2[..n]);
      EvidencedBoth(e0, e1, e, c1, o1, c2[..n], o2[..n]);
      EvidencedNext(e0, e, c1 + c2[..n], o1 + o2[..n], c2[n], o2[n]);
      assert (c1 + c2[..n]) + [c2[n]] == c1 + c2 && (o1 + o2[..n]) + [o2[n]] == o1 + o2;
      assert e + [] == e;
    }
  }

  predicate AllZero(outcomes: seq<CommandOutcome>) {
    forall o | o in outcomes :: o == Completed(0)
  }

  /** Releases outside `touched` are as before. */
  ghost predicate SameOutside(before: map<Release, Content>, after: map<Release, Content>, touched: set<Release>) {
    forall x | x !in touched :: (x in before <==> x in after) && (x in before ==> after[x] == before[x])
  }

  function ReleasesOf(s: seq<Planned>): set<Release>
    requires AllHelm(s)
  {
    set p | p in s :: p.action.release
  }

  predicate DistinctTargets(s: seq<Planned>)
    requires AllHelm(s)
  {
    forall i, j | 0 <= i < j < |s| :: s[i].action.release != s[j].action.release
  }

  predicate HasSnapshot(rollbacks: seq<ReleaseSnapshot>, release: Release) {
    exists x :: x in rollbacks && x.release == release
  }

  /** The rollback entry of a release. */
  function SnapshotOf(rollbacks: seq<ReleaseSnapshot>, release: Release): (r: ReleaseSnapshot)
    requires HasSnapshot(rollbacks, release)
    ensures r in rollbacks && r.release == release
  {
    if rollbacks[0].release == release then rollbacks[0] else
      assert rollbacks == [rollbacks[0]] + rollbacks[1..];
      SnapshotOf(rollbacks[1..], release)
  }

  /** The rollback entries of the record's snapshot. */
  function Rollbacks(r: Record): seq<ReleaseSnapshot> {
    if r.snapshot.Some? then r.snapshot.value.rollbacks else []
  }

  /** Every Helm action has its rollback entry. */
  predicate Covered(rollbacks: seq<ReleaseSnapshot>, helm: seq<Planned>)
    requires AllHelm(helm)
  {
    forall p | p in helm :: HasSnapshot(rollbacks, p.action.release)
  }

  /** After these commands, rolling the actions back repeats none. */
  predicate UndoFresh(commands: seq<Command>, helm: seq<Planned>) {
    forall n | 0 <= n < |helm| :: Unused(commands + UndoCommands(helm)[..n], UndoCommands(helm)[n].id)
  }

  /** The rollbacks from position `k` on restored their releases. */
  predicate RestoredAll(releases: map<Release, Content>, rollbacks: seq<ReleaseSnapshot>, helm: seq<Planned>, k: nat)
    requires AllHelm(helm) && Covered(rollbacks, helm) && k <= |helm|
  {
    forall p | p in helm[k..] ::
      p.action.release in releases && releases[p.action.release] == Restored(SnapshotOf(rollbacks, p.action.release))
  }

  /** One rollback, seen on the cluster. */
  lemma UndoEffect(start: map<Release, Content>, before: map<Release, Content>, after: map<Release, Content>,
                   rollbacks: seq<ReleaseSnapshot>, helm: seq<Planned>, k: nat, out: CommandOutcome)
    requires AllHelm(helm) && DistinctTargets(helm) && Covered(rollbacks, helm) && k < |helm|
    requires SameOutside(start, before, ReleasesOf(helm))
    requires Touches(before, after, helm[k].action.release)
    requires out == Completed(0) ==>
               helm[k].action.release in after &&
               after[helm[k].action.release] == Restored(SnapshotOf(rollbacks, helm[k].action.release))
    ensures SameOutside(start, after, ReleasesOf(helm))
    ensures RestoredAll(before, rollbacks, helm, k + 1) && out == Completed(0) ==>
              RestoredAll(after, rollbacks, helm, k)
  {
    assert helm[k] in helm && helm[k].action.release in ReleasesOf(helm);
    if RestoredAll(before, rollbacks, helm, k + 1) && out == Completed(0) {
      forall p | p in helm[k..]
        ensures p.action.release in after
        ensures after[p.action.release] == Restored(SnapshotOf(rollbacks, p.action.release))
      {
        var j :| k <= j < |helm| && helm[j] == p;
        if j > k {
          assert p in helm[k + 1..];
        }
      }
    }
  }

  /** These answers of the adapters were added. */
  predicate Looked(t0: Trace, t1: Trace, sights: seq<Sight>) {
    Sights(t1) == Sights(t0) + sights
  }

  lemma LookedBoth(t0: Trace, t1: Trace, t2: Trace, s1: seq<Sight>, s2: seq<Sight>)
    requires Looked(t0, t1, s1) && Looked(t1, t2, s2)
    ensures Looked(t0, t2, s1 + s2)
  {
    hide Sights;
  }

  /** `u` is `r` with the forward declared last stopped. */
  predicate Shut(r: Record, u: Record, others: seq<Ownership>, o: Ownership) {
    && u == r.(forwards := u.forwards, updatedAt := u.updatedAt, generation := u.generation)
    && |u.forwards| == |others| + 1
    && u.forwards[..|others|] == others
    && var last := u.forwards[|others|];
       last == o.(state := Stopped, stoppedAt := last.stoppedAt)
  }

  function NewestForward(r: Record): Ownership
    requires r.forwards != []
  {
    r.forwards[|r.forwards| - 1]
  }

  /** `u` is `r` with one more declared forward. */
  predicate DeclaredIn(r: Record, u: Record, o: Ownership) {
    && !Has(r.forwards, o.id)
    && o.state.IntentPersisted?
    && u == r.(status := PortForwardIntent, forwards := r.forwards + [o], updatedAt := u.updatedAt,
               generation := u.generation)
  }

  /** The durable identity of a forward is that of this child. */
  predicate IsOf(o: Ownership, c: SpawnOutcome) {
    && c.Child? && o.argv == c.argv
    && o.process.Some? && o.process.value.pid == c.pid && o.process.value.createdAt == c.createdAt
  }

  /** `u` is `r` with one more forward, started as child `c`. */
  predicate OpenedWith(r: Record, u: Record, id: string, c: SpawnOutcome) {
    && !Has(r.forwards, id)
    && |u.forwards| == |r.forwards| + 1 && u.forwards[..|r.forwards|] == r.forwards
    && u == r.(status := PortForwardStarted, forwards := u.forwards, updatedAt := u.updatedAt,
               generation := u.generation)
    && NewestForward(u).id == id && NewestForward(u).state.Started? && IsOf(NewestForward(u), c)
  }

  predicate Accepted(outcome: TlsOutcome) {
    outcome in {ClientCertificateRequired, UnauthenticatedListenerRejected}
  }

  /** What was observed of one pair: the spawn, the wait, the probe and the close attempt. */
  datatype Seen = Seen(spawn: SpawnOutcome, ready: Option<Readiness>, probe: Option<ProbeOutcome>,
                       close: Option<CloseOutcome>)

  /** Those observations in order. */
  function SightsOf(id: string, s: Seen): seq<Sight> {
    [SawSpawn(id, s.spawn)]
    + (if s.ready.Some? then [SawWait(id, s.ready.value)] else [])
    + (if s.probe.Some? then [SawProbe(id, s.probe.value)] else [])
    + (if s.close.Some? then [SawClose(id, s.close.value)] else [])
  }

  /** The observations of the first pairs. */
  function AllSights(pairs: seq<Pair>, seen: seq<Seen>): seq<Sight>
    requires ForwardPairs(pairs) && |seen| <= |pairs|
  {
    if seen == [] then []
    else AllSights(pairs, seen[..|seen| - 1]) + SightsOf(pairs[|seen| - 1].forward.id, seen[|seen| - 1])
  }

  /** `_valid_port_forward_child`. */
  predicate ChildFits(argv: Token, c: SpawnOutcome) {
    c.Child? && c.pid >= 1 && c.argv == argv
  }

  datatype PairVerdict = IsServed | Failing | Doubtful

  /** What the observations of a pair mean.  It is served when the child was ready, the probe was accepted
      and the close was confirmed; it failed when the child or the probe definitely failed and the close was
      confirmed; everything else is in doubt. */
  function VerdictOn(argv: Token, s: Seen): PairVerdict {
    if !ChildFits(argv, s.spawn) || s.close != Some(IsClosed) then Doubtful
    else if s.ready in {Some(ReadyTimeout), Some(ReadyFailed)} then Failing
    else if s.ready != Some(IsReady) || s.probe.None? || Noted(s.probe.value).ProbeAmbiguous? then Doubtful
    else if Accepted(Noted(s.probe.value)) then IsServed
    else Failing
  }

  /** The first `n` pairs were served. */
  predicate AllServed(argv: Action -> Token, pairs: seq<Pair>, seen: seq<Seen>, n: nat)
    requires n <= |pairs| && n <= |seen|
  {
    forall k | 0 <= k < n :: VerdictOn(argv(pairs[k].forward), seen[k]).IsServed?
  }

  /** `u` is `r` with this pair served: its forward, which was the child that was seen, stopped again, and
      the answer of its probe accepted. */
  predicate Served(r: Record, u: Record, pair: Pair, s: Seen)
    requires pair.forward.Forward?
  {
    && u == r.(status := TlsDc8Probing, forwards := u.forwards, tls := u.tls, updatedAt := u.updatedAt,
               generation := u.generation)
    && |u.forwards| == |r.forwards| + 1 && u.forwards[..|r.forwards|] == r.forwards
    && ServedForward(NewestForward(u), pair, s)
    && |u.tls| == |r.tls| + 1 && u.tls[..|r.tls|] == r.tls
    && ServedProbe(u.tls[|r.tls|], pair, s)
  }

  predicate ForwardPairs(pairs: seq<Pair>) {
    forall p | p in pairs :: p.forward.Forward?
  }

  /** `u` is `r` with the first `n` pairs served, up to its status. */
  predicate ServedUpTo(r: Record, u: Record, pairs: seq<Pair>, n: nat, seen: seq<Seen>)
    requires ForwardPairs(pairs) && n <= |pairs| && n <= |seen|
  {
    && u == r.(status := u.status, forwards := u.forwards, tls := u.tls, updatedAt := u.updatedAt,
               generation := u.generation)
    && |u.forwards| == |r.forwards| + n && u.forwards[..|r.forwards|] == r.forwards
    && |u.tls| == |r.tls| + n && u.tls[..|r.tls|] == r.tls
    && (forall k | 0 <= k < n :: ServedForward(u.forwards[|r.forwards| + k], pairs[k], seen[k]))
    && (forall k | 0 <= k < n :: ServedProbe(u.tls[|r.tls| + k], pairs[k], seen[k]))
  }

  predicate ServedForward(o: Ownership, pair: Pair, s: Seen)
    requires pair.forward.Forward?
  {
    o.id == pair.forward.id && o.state.Stopped? && IsOf(o, s.spawn)
  }

  predicate ServedProbe(e: TlsEvidence, pair: Pair, s: Seen)
    requires pair.forward.Forward?
  {
    && e.probe == pair.probeIndex && e.forward == pair.forward.id
    && s.probe.Some? && e.outcome == Noted(s.probe.value) && Accepted(e.outcome)
  }

  lemma ServedNext(r: Record, u: Record, v: Record, pairs: seq<Pair>, n: nat, seen: seq<Seen>, last: Seen)
    requires ForwardPairs(pairs) && n < |pairs| && n == |seen|
    requires ServedUpTo(r, u, pairs, n, seen) && Served(u, v, pairs[n], last)
    ensures ServedUpTo(r, v, pairs, n + 1, seen + [last]) && v.status.TlsDc8Probing? && Rollbacks(v) == Rollbacks(r)
    ensures AllStopped(u.forwards) ==> AllStopped(v.forwards)
  {
    hide ServedForward, ServedProbe;
    var k, more := |r.forwards| + n, seen + [last];
    assert v.forwards == v.forwards[..k] + [v.forwards[k]];
    forall j | 0 <= j < n + 1
      ensures ServedForward(v.forwards[|r.forwards| + j], pairs[j], more[j])
    {
      if j < n {
        assert v.forwards[|r.forwards| + j] == u.forwards[|r.forwards| + j];
        assert ServedForward(u.forwards[|r.forwards| + j], pairs[j], seen[j]);
      }
    }
    forall j | 0 <= j < n + 1
      ensures ServedProbe(v.tls[|r.tls| + j], pairs[j], more[j])
    {
      if j < n {
        assert v.tls[|r.tls| + j] == u.tls[|r.tls| + j];
        assert ServedProbe(u.tls[|r.tls| + j], pairs[j], seen[j]);
      }
    }
    assert v.forwards[..|r.forwards|] == v.forwards[..k][..|r.forwards|];
    assert v.tls[..|r.tls|] == v.tls[..|r.tls| + n][..|r.tls|];
    LastIsStopped(v, pairs[n], last);
  }

  lemma LastIsStopped(v: Record, pair: Pair, s: Seen)
    requires pair.forward.Forward? && v.forwards != [] && ServedForward(NewestForward(v), pair, s)
    ensures NewestForward(v).state.Stopped?
  {
  }

  /** Pairs that fit one row: within the field limits, no forward and no probe twice. */
  predicate PairsFit(pairs: seq<Pair>)
    requires ForwardPairs(pairs)
  {
    && |pairs| <= 20
    && forall i, j | 0 <= i < j < |pairs| ::
         pairs[i].forward.id != pairs[j].forward.id && pairs[i].probeIndex != pairs[j].probeIndex
  }

  lemma NextPairFits(r: Record, u: Record, pairs: seq<Pair>, n: nat, seen: seq<Seen>)
    requires ForwardPairs(pairs) && PairsFit(pairs) && n < |pairs| && n <= |seen|
    requires r.forwards == [] && r.tls == [] && ServedUpTo(r, u, pairs, n, seen)
    ensures |u.forwards| < 20 && !Has(u.forwards, pairs[n].forward.id)
    ensures |u.tls| < 20 && forall e | e in u.tls :: e.probe != pairs[n].probeIndex
  {
    var id := pairs[n].forward.id;
    forall k | 0 <= k < |u.forwards|
      ensures u.forwards[k].id != id
    {
      assert ServedForward(u.forwards[|r.forwards| + k], pairs[k], seen[k]);
    }
    forall e | e in u.tls
      ensures e.probe != pairs[n].probeIndex
    {
      var k :| 0 <= k < |u.tls| && u.tls[k] == e;
      assert ServedProbe(u.tls[0 + k], pairs[k], seen[k]);
    }
  }

  /** `u` is `r` with one more probe result. */
  predicate ProbeNoted(r: Record, u: Record, e: TlsEvidence) {
    u == r.(tls := r.tls + [e], updatedAt := u.updatedAt, generation := u.generation)
  }

  /** What rolling the started mutations back needs; nothing when none was started. */
  predicate CanUndo(t: Trace, rollbacks: seq<ReleaseSnapshot>, started: seq<Planned>) {
    && AllHelm(started) && DistinctTargets(started) && Covered(rollbacks, started)
    && (started != [] ==> Opened(t) && UndoFresh(Commands(t), started))
  }
}
