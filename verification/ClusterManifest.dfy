/** The static operation manifest of src/dispatcher/cluster_operations.py and the action list that
    the runner of src/dispatcher/cluster_operation_runner.py derives from it.

    An action keeps the fields that validation and the runner read.  A readiness probe only counts:
    its argument list is not part of this model.
 */
module ClusterManifest {
  import opened Common

  datatype Release = Release(namespace: string, name: string)

  datatype Action =
    | DryRun(namespace: string)
    | Helm(release: Release, probes: nat)
    | Forward(namespace: string, id: string, localPort: nat)
    | TlsProbe(link: string)
  {
    predicate IsPaired() { Forward? || TlsProbe? }

    function Namespace(): string
      requires !TlsProbe?
    {
      match this
      case DryRun(n) => n
      case Helm(r, _) => r.namespace
      case Forward(n, _, _) => n
    }
  }

  datatype Manifest = Manifest(
    operationId: string,
    allowedNamespaces: seq<string>,
    allowedFiles: seq<string>,
    secretNamespaces: seq<string>,
    actions: seq<Action>)

  predicate HasForward(a: seq<Action>, id: string) {
    exists i :: 0 <= i < |a| && a[i].Forward? && a[i].id == id
  }

  /** Forward identities and local ports do not repeat. */
  predicate ForwardsDistinct(a: seq<Action>) {
    forall i, j | 0 <= i < j < |a| && a[i].Forward? && a[j].Forward? ::
      a[i].id != a[j].id && a[i].localPort != a[j].localPort
  }

  predicate LinksDistinct(a: seq<Action>) {
    forall i, j | 0 <= i < j < |a| && a[i].TlsProbe? && a[j].TlsProbe? :: a[i].link != a[j].link
  }

  /** The linked identities are exactly the declared ones. */
  predicate LinksMatch(a: seq<Action>) {
    && (forall x | x in a && x.Forward? :: TlsProbe(x.id) in a)
    && (forall x | x in a && x.TlsProbe? :: HasForward(a, x.link))
  }

  /** The action right behind a linked forward is its probe. */
  predicate ProbesFollow(a: seq<Action>) {
    forall i | 0 <= i < |a| && a[i].Forward? && TlsProbe(a[i].id) in a ::
      i + 1 < |a| && a[i + 1] == TlsProbe(a[i].id)
  }

  predicate PairsTrail(a: seq<Action>) {
    forall i, j | 0 <= i < j < |a| && a[i].Forward? :: a[j].IsPaired()
  }

  predicate NamespacesAllowed(m: Manifest) {
    && (forall n | n in m.secretNamespaces :: n in m.allowedNamespaces)
    && (forall x | x in m.actions && !x.TlsProbe? :: x.Namespace() in m.allowedNamespaces)
  }

  /** `validate_declared_scope`: the model validator of a manifest. */
  predicate DeclaredScope(m: Manifest) {
    && Distinct(m.allowedNamespaces)
    && Distinct(m.allowedFiles)
    && NamespacesAllowed(m)
    && PairedScope(m.actions)
  }

  /** The part of the validator that speaks about forwards and probes. */
  predicate PairedScope(a: seq<Action>) {
    ForwardsDistinct(a) && LinksDistinct(a) && LinksMatch(a) && ProbesFollow(a) && PairsTrail(a)
  }

  /** An action together with its position: the n of the source's "action-n" identifiers. */
  datatype Planned = Planned(index: nat, action: Action)

  datatype Pair = Pair(forwardIndex: nat, forward: Action, probeIndex: nat, probe: Action)

  /** A list of alternating forwards and probes, each probe linked to the forward before it. */
  predicate Alternating(s: seq<Planned>)
    decreases |s|
  {
    s == [] || (&& |s| >= 2
                && s[0].action.Forward?
                && s[1].action == TlsProbe(s[0].action.id)
                && Alternating(s[2..]))
  }

  /** The same list, read as pairs. */
  function AsPairs(s: seq<Planned>): (r: seq<Pair>)
    requires Alternating(s)
    decreases |s|
    ensures 2 * |r| == |s|
    ensures forall k :: 0 <= k < |r| ==>
                          && r[k] == Pair(s[2 * k].index, s[2 * k].action, s[2 * k + 1].index, s[2 * k + 1].action)
                          && r[k].forward.Forward?
                          && r[k].probe == TlsProbe(r[k].forward.id)
  {
    if s == [] then []
    else
      var rest := AsPairs(s[2..]);
      [Pair(s[0].index, s[0].action, s[1].index, s[1].action)] + rest
  }

  function Number(actions: seq<Action>): (r: seq<Planned>)
    ensures |r| == |actions|
  {
    seq(|actions|, i requires 0 <= i < |actions| => Planned(i + 1, actions[i]))
  }

  /** The leading part of a manifest: everything before the first forward or probe. */
  function Leading(actions: seq<Action>): (k: nat)
    ensures k <= |actions|
    ensures forall i :: 0 <= i < k ==> !actions[i].IsPaired()
    ensures k < |actions| ==> actions[k].IsPaired()
  {
    if actions == [] || actions[0].IsPaired() then 0 else 1 + Leading(actions[1..])
  }

  /** In a valid manifest the part from the first forward or probe on is alternating pairs. */
  lemma TrailingPairs(a: seq<Action>)
    requires PairedScope(a)
    ensures Alternating(Number(a)[Leading(a)..])
  {
    var k := Leading(a);
    if k < |a| && a[k].TlsProbe? {
      ProbeBehindForward(a, k);
    }
    AlternatingFrom(a, k);
  }

  /** A probe stands right behind the forward it links. */
  lemma ProbeBehindForward(a: seq<Action>, j: nat)
    requires PairedScope(a)
    requires j < |a| && a[j].TlsProbe?
    ensures j > 0 && a[j - 1].Forward? && a[j - 1].id == a[j].link
  {
    assert a[j] in a;
    var i :| 0 <= i < |a| && a[i].Forward? && a[i].id == a[j].link;
    assert a[j] == TlsProbe(a[i].id);
    assert a[i + 1] == a[j];
    assert i + 1 == j;
  }

  lemma {:induction false} AlternatingFrom(a: seq<Action>, k: nat)
    requires PairedScope(a)
    requires k < |a| ==> a[k].Forward?
    requires k <= |a|
    ensures Alternating(Number(a)[k..])
    decreases |a| - k
  {
    if k < |a| {
      assert a[k] in a;
      assert a[k + 1] == TlsProbe(a[k].id);
      if k + 2 < |a| {
        assert a[k + 2].IsPaired();
        if a[k + 2].TlsProbe? {
          ProbeBehindForward(a, k + 2);
        }
      }
      AlternatingFrom(a, k + 2);
      assert Number(a)[k..][2..] == Number(a)[k + 2..];
    }
  }

  // ---------------------------------------------------------------------------------------------
  // The runner's action list

  type ActionDigests = map<nat, nat>

  datatype ActionsResult = Actions(actions: seq<Planned>) | Rejected

  /** The first `n` positions of a manifest, filtered by an approval. */
  function Kept(actions: seq<Action>, approved: set<nat>, n: nat): (r: seq<Planned>)
    requires n <= |actions|
  {
    if n == 0 then []
    else
      var r := Kept(actions, approved, n - 1);
      if n in approved then r + [Planned(n, actions[n - 1])] else r
  }

  /** The kept list is a sublist of the numbered manifest: the approved positions, in order. */
  lemma {:induction false} KeptMembers(actions: seq<Action>, approved: set<nat>, n: nat)
    requires n <= |actions|
    ensures Increasing(Kept(actions, approved, n))
    ensures forall p :: p in Kept(actions, approved, n) <==> p in Number(actions)[..n] && p.index in approved
  {
    if n > 0 {
      KeptMembers(actions, approved, n - 1);
      var s := Number(actions);
      assert s[..n] == s[..n - 1] + [s[n - 1]];
      var r := Kept(actions, approved, n - 1);
      forall i | 0 <= i < |r|
        ensures r[i].index < n
      {
        assert r[i] in r;
      }
    }
  }

  predicate Increasing(s: seq<Planned>) {
    forall i, j | 0 <= i < j < |s| :: s[i].index < s[j].index
  }

  predicate DigestsAgree(actions: seq<Action>, approved: ActionDigests, digest: Action -> nat, n: nat)
    requires n <= |actions|
  {
    forall p | p in Number(actions)[..n] && p.index in approved :: approved[p.index] == digest(p.action)
  }

  predicate PairsApproved(actions: seq<Action>, approved: set<nat>, n: nat)
    requires n <= |actions|
  {
    forall p | p in Number(actions)[..n] && p.action.IsPaired() :: p.index in approved
  }

  /** `_approved_actions`: keep approved positions, refuse an approval that drops a forward or a
      probe or disagrees with an action's digest, and refuse an empty list. */
  method ApprovedActions(actions: seq<Action>, approved: ActionDigests, digest: Action -> nat)
    returns (r: ActionsResult)
    ensures r.Actions? ==> r.actions == Kept(actions, approved.Keys, |actions|)
    ensures r.Actions? <==>
              && DigestsAgree(actions, approved, digest, |actions|)
              && PairsApproved(actions, approved.Keys, |actions|)
              && Kept(actions, approved.Keys, |actions|) != []
  {
    var kept: seq<Planned> := [];
    var i := 0;
    while i < |actions|
      invariant 0 <= i <= |actions|
      invariant kept == Kept(actions, approved.Keys, i)
      invariant DigestsAgree(actions, approved, digest, i)
      invariant PairsApproved(actions, approved.Keys, i)
    {
      ghost var s := Number(actions);
      assert s[..i + 1] == s[..i] + [s[i]];
      if i + 1 in approved {
        if approved[i + 1] != digest(actions[i]) {
          assert s[i] in s[..|s|];
          return Rejected;
        }
        kept := kept + [Planned(i + 1, actions[i])];
      } else if actions[i].IsPaired() {
        assert s[i] in s[..|s|];
        return Rejected;
      }
      i := i + 1;
    }
    return if kept == [] then Rejected else Actions(kept);
  }

  datatype PairsResult = Pairs(pairs: seq<Pair>) | Unlinked

  /** `_port_forward_pairs`: pick every forward and demand its linked probe right behind it. */
  method PortForwardPairs(actions: seq<Planned>) returns (r: PairsResult)
    ensures r.Pairs? <==> LinkedUpTo(actions, |actions|)
    ensures r.Pairs? ==> r.pairs == PairsUpTo(actions, |actions|)
  {
    var pairs: seq<Pair> := [];
    var i := 0;
    while i < |actions|
      invariant 0 <= i <= |actions|
      invariant LinkedUpTo(actions, i)
      invariant pairs == PairsUpTo(actions, i)
    {
      if actions[i].action.Forward? {
        if !LinkedAt(actions, i) {
          return Unlinked;
        }
        pairs := pairs + [Pair(actions[i].index, actions[i].action, actions[i + 1].index, actions[i + 1].action)];
      }
      i := i + 1;
    }
    return Pairs(pairs);
  }

  predicate LinkedAt(actions: seq<Planned>, i: nat)
    requires i < |actions| && actions[i].action.Forward?
  {
    i + 1 < |actions| && actions[i + 1].action == TlsProbe(actions[i].action.id)
  }

  predicate LinkedUpTo(actions: seq<Planned>, n: nat)
    requires n <= |actions|
  {
    forall j | 0 <= j < n && actions[j].action.Forward? :: LinkedAt(actions, j)
  }

  function PairsUpTo(actions: seq<Planned>, n: nat): (r: seq<Pair>)
    requires n <= |actions| && LinkedUpTo(actions, n)
  {
    if n == 0 then []
    else
      var r := PairsUpTo(actions, n - 1);
      var p := actions[n - 1];
      if p.action.Forward? then
        assert LinkedAt(actions, n - 1);
        r + [Pair(p.index, p.action, actions[n].index, actions[n].action)]
      else r
  }

  // ---------------------------------------------------------------------------------------------
  // The shape theorem

  predicate AllDryRun(s: seq<Planned>) { forall p | p in s :: p.action.DryRun? }

  predicate AllHelm(s: seq<Planned>) { forall p | p in s :: p.action.Helm? }

  function DryRuns(s: seq<Planned>): (r: seq<Planned>)
    ensures AllDryRun(r) && |r| <= |s|
    ensures forall p :: p in r ==> p in s
  {
    if s == [] then [] else
      var r := DryRuns(s[..|s| - 1]);
      if s[|s| - 1].action.DryRun? then r + [s[|s| - 1]] else r
  }

  function Helms(s: seq<Planned>): (r: seq<Planned>)
    ensures AllHelm(r) && |r| <= |s|
    ensures forall p :: p in r ==> p in s
  {
    if s == [] then [] else
      var r := Helms(s[..|s| - 1]);
      if s[|s| - 1].action.Helm? then r + [s[|s| - 1]] else r
  }

  /** Lines 278-282: no dry-run stands behind the first |dryRuns| positions. */
  predicate DryRunsLead(s: seq<Planned>) {
    forall i | |DryRuns(s)| <= i < |s| :: !s[i].action.DryRun?
  }

  lemma FilterLast(s: seq<Planned>, p: Planned)
    ensures DryRuns(s + [p]) == DryRuns(s) + if p.action.DryRun? then [p] else []
    ensures Helms(s + [p]) == Helms(s) + if p.action.Helm? then [p] else []
  {
    assert (s + [p])[..|s|] == s;
  }

  lemma AppendAssociates<T>(a: seq<T>, b: seq<T>, c: seq<T>)
    ensures (a + b) + c == a + (b + c)
  {
  }

  lemma {:induction false} FilterAppend(s: seq<Planned>, t: seq<Planned>)
    ensures DryRuns(s + t) == DryRuns(s) + DryRuns(t)
    ensures Helms(s + t) == Helms(s) + Helms(t)
    decreases |t|
  {
    hide AllDryRun, AllHelm;
    if t == [] {
      assert s + t == s;
    } else {
      var t', p := t[..|t| - 1], t[|t| - 1];
      FilterAppend(s, t');
      hide DryRuns, Helms;
      assert t == t' + [p];
      AppendAssociates(s, t', [p]);
      FilterLast(s + t', p);
      FilterLast(t', p);
      AppendAssociates(DryRuns(s), DryRuns(t'), if p.action.DryRun? then [p] else []);
      AppendAssociates(Helms(s), Helms(t'), if p.action.Helm? then [p] else []);
    }
  }

  lemma {:induction false} FilterNone(s: seq<Planned>)
    requires forall p | p in s :: p.action.IsPaired()
    ensures DryRuns(s) == [] && Helms(s) == []
  {
    if s != [] {
      FilterNone(s[..|s| - 1]);
    }
  }

  lemma {:induction false} FilterSplit(s: seq<Planned>)
    requires forall p | p in s :: !p.action.IsPaired()
    ensures |DryRuns(s)| + |Helms(s)| == |s|
    ensures (forall i :: |DryRuns(s)| <= i < |s| ==> !s[i].action.DryRun?) ==> s == DryRuns(s) + Helms(s)
  {
    if s != [] {
      var s', p := s[..|s| - 1], s[|s| - 1];
      assert s == s' + [p];
      FilterSplit(s');
      if forall i :: |DryRuns(s)| <= i < |s| ==> !s[i].action.DryRun? {
        if p.action.DryRun? {
          assert |DryRuns(s)| == |s|;
          assert |DryRuns(s')| == |s'|;
          assert s' == DryRuns(s') + Helms(s');
          assert Helms(s') == [];
        } else {
          assert forall i :: |DryRuns(s')| <= i < |s'| ==> s'[i] == s[i];
          assert s == DryRuns(s') + (Helms(s') + [p]);
        }
      }
    }
  }

  lemma {:induction false} KeptSplit(actions: seq<Action>, approved: set<nat>, k: nat, n: nat)
    requires k <= n <= |actions|
    requires forall p | p in Number(actions)[k..n] :: p.index in approved
    ensures Kept(actions, approved, n) == Kept(actions, approved, k) + Number(actions)[k..n]
    decreases n
  {
    if k < n {
      assert Number(actions)[n - 1] in Number(actions)[k..n];
      KeptSplit(actions, approved, k, n - 1);
      assert Number(actions)[k..n] == Number(actions)[k..n - 1] + [Planned(n, actions[n - 1])];
    }
  }

  lemma {:induction false} PairsOfAppend(head: seq<Planned>, tail: seq<Planned>, n: nat)
    requires Alternating(tail)
    requires forall p | p in head :: !p.action.IsPaired()
    requires n <= |tail| && n % 2 == 0
    ensures var s := head + tail;
            && LinkedUpTo(s, |head| + n)
            && PairsUpTo(s, |head| + n) == AsPairs(tail)[..n / 2]
    decreases n
  {
    var s := head + tail;
    if n == 0 {
      NoPairs(head, tail, |head|);
    } else {
      PairsOfAppend(head, tail, n - 2);
      var pairs := AsPairs(tail);
      var k := n / 2 - 1;
      assert 2 * k == n - 2;
      assert pairs[k] == Pair(tail[2 * k].index, tail[2 * k].action, tail[2 * k + 1].index, tail[2 * k + 1].action);
      assert s[|head| + n - 2] == tail[n - 2] && s[|head| + n - 1] == tail[n - 1];
      assert LinkedAt(s, |head| + n - 2);
      assert !s[|head| + n - 1].action.Forward?;
      assert PairsUpTo(s, |head| + n - 1) == pairs[..k] + [pairs[k]];
      assert pairs[..k + 1] == pairs[..k] + [pairs[k]];
    }
  }

  lemma {:induction false} NoPairs(head: seq<Planned>, tail: seq<Planned>, n: nat)
    requires forall p | p in head :: !p.action.IsPaired()
    requires n <= |head|
    ensures LinkedUpTo(head + tail, n) && PairsUpTo(head + tail, n) == []
  {
    if n > 0 {
      NoPairs(head, tail, n - 1);
      assert (head + tail)[n - 1] == head[n - 1] && head[n - 1] in head;
    }
  }

  lemma {:induction false} AlternatingMembers(s: seq<Planned>)
    requires Alternating(s)
    ensures forall p | p in s :: p.action.IsPaired()
    decreases |s|
  {
    if s != [] {
      AlternatingMembers(s[2..]);
      assert s == [s[0], s[1]] + s[2..];
    }
  }

  /** For a valid manifest and an approval the runner accepts, the action list is exactly the
      dry-runs, then the Helm actions, then the alternating pairs; pairing never fails on it and
      uses every forward and every probe of the manifest exactly once, in order. */
  lemma ApprovedShape(a: seq<Action>, approved: set<nat>)
    requires PairedScope(a)
    requires PairsApproved(a, approved, |a|)
    requires DryRunsLead(Kept(a, approved, |a|))
    ensures var s := Kept(a, approved, |a|);
            var tail := Number(a)[Leading(a)..];
            && Alternating(tail)
            && s == DryRuns(s) + Helms(s) + tail
            && LinkedUpTo(s, |s|)
            && PairsUpTo(s, |s|) == AsPairs(tail)
  {
    var s := Kept(a, approved, |a|);
    var head, tail := Kept(a, approved, Leading(a)), Number(a)[Leading(a)..];
    TrailingPairs(a);
    AlternatingMembers(tail);
    KeptHeadTail(a, approved);
    LeadingMembers(a, approved);
    HeadShape(head, tail);
    PairsOfWhole(head, tail);
  }

  lemma PairsOfWhole(head: seq<Planned>, tail: seq<Planned>)
    requires Alternating(tail)
    requires forall p | p in head :: !p.action.IsPaired()
    ensures var s := head + tail; LinkedUpTo(s, |s|) && PairsUpTo(s, |s|) == AsPairs(tail)
  {
    assert 2 * |AsPairs(tail)| == |tail|;
    PairsOfAppend(head, tail, |tail|);
    assert AsPairs(tail)[..|tail| / 2] == AsPairs(tail);
  }

  lemma KeptHeadTail(a: seq<Action>, approved: set<nat>)
    requires PairsApproved(a, approved, |a|)
    requires forall p | p in Number(a)[Leading(a)..] :: p.action.IsPaired()
    ensures Kept(a, approved, |a|) == Kept(a, approved, Leading(a)) + Number(a)[Leading(a)..]
  {
    var s, k := Number(a), Leading(a);
    assert s[k..|a|] == s[k..] && s[..|a|] == s;
    assert s == s[..k] + s[k..];
    KeptSplit(a, approved, k, |a|);
  }

  lemma LeadingMembers(a: seq<Action>, approved: set<nat>)
    ensures forall p | p in Kept(a, approved, Leading(a)) :: !p.action.IsPaired()
  {
    KeptMembers(a, approved, Leading(a));
  }

  lemma HeadShape(head: seq<Planned>, tail: seq<Planned>)
    requires forall p | p in head :: !p.action.IsPaired()
    requires forall p | p in tail :: p.action.IsPaired()
    requires DryRunsLead(head + tail)
    ensures head == DryRuns(head + tail) + Helms(head + tail)
  {
    FilterAppend(head, tail);
    FilterNone(tail);
    var s := head + tail;
    forall i | |DryRuns(head)| <= i < |head|
      ensures !head[i].action.DryRun?
    {
      assert s[i] == head[i];
    }
    FilterSplit(head);
  }
}
