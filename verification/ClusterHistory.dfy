/** What every sequence of journal writes keeps, whoever makes them. */
module ClusterHistory {
  import opened Common
  import opened ClusterManifest
  import opened ClusterLifecycle

  /** One write, seen from the outside: what it may change. */
  lemma WriteEffect(before: Record, after: Record)
    requires Written(before, after)
    ensures ValidRecord(after)
    ensures after.generation == before.generation + 1
    ensures after.identity == before.identity && after.actions == before.actions && after.rollback == before.rollback
    ensures after.maxAge == before.maxAge && after.createdAt == before.createdAt
    ensures after.status == before.status || after.status in Transitions(before.status)
    ensures before.snapshot.Some? && !before.status.StaticValidated? ==> after.snapshot == before.snapshot
    ensures before.approval.Some? && !before.status.SnapshotCaptured? ==> after.approval == before.approval
  {
    hide ValidRecord, ApprovalMatches, SnapshotMatches, ActiveApproval, Find, HasOwnership;
    var op :| Commit(before, op) == Ok(after);
    CommitValid(before, op);
  }

  lemma CommitValid(r: Record, op: Op)
    requires Commit(r, op).Ok?
    ensures ValidRecord(Commit(r, op).value)
  {
    var u := Apply(r, op).value;
    assert ValidRecord(u) by {
      hide ValidRecord, ApprovalMatches, SnapshotMatches, Transitions, ActiveApproval, Find, HasOwnership, Bind;
    }
    hide Apply;
  }

  lemma OnlyIntentStarts(s: Status)
    ensures PortForwardStarted in Transitions(s) <==> s.PortForwardIntent?
  {
  }

  /** How far along the one-way part of the lifecycle a status is. */
  function Rank(s: Status): nat {
    match s
    case Discovered => 0
    case StaticValidated => 1
    case SnapshotCaptured => 2
    case Approved => 3
    case ServerDryRunPassed => 4
    case MutationStarted => 5
    case _ => 6
  }

  lemma RankNeverFalls(before: Status, after: Status)
    requires after in Transitions(before)
    ensures Rank(before) <= Rank(after)
    ensures Rank(before) < 6 ==> Rank(before) < Rank(after)
  {
  }

  lemma {:induction false} HistoryRank(h: seq<Record>, i: nat, j: nat)
    requires IsHistory(h) && i <= j < |h|
    ensures Rank(h[i].status) <= Rank(h[j].status)
    ensures ValidRecord(h[j])
    decreases j - i
  {
    hide Written, ValidRecord;
    if i < j {
      HistoryRank(h, i, j - 1);
      WriteEffect(h[j - 1], h[j]);
      if h[j].status != h[j - 1].status {
        RankNeverFalls(h[j - 1].status, h[j].status);
      }
    } else {
      HistoryBasics(h, i);
    }
  }

  /** The i-th version carries generation i + 1 and the immutable identity of the row. */
  lemma {:induction false} HistoryBasics(h: seq<Record>, i: nat)
    requires IsHistory(h) && i < |h|
    ensures ValidRecord(h[i]) && h[i].generation == i + 1
    ensures h[i].identity == h[0].identity && h[i].actions == h[0].actions
    ensures h[i].maxAge == h[0].maxAge && h[i].createdAt == h[0].createdAt
  {
    hide Written, ValidRecord;
    if i > 0 {
      HistoryBasics(h, i - 1);
      WriteEffect(h[i - 1], h[i]);
    }
  }

  lemma HistoryExtend(h: seq<Record>, op: Op)
    requires IsHistory(h)
    requires Commit(h[|h| - 1], op).Ok?
    ensures IsHistory(h + [Commit(h[|h| - 1], op).value])
  {
    var h' := h + [Commit(h[|h| - 1], op).value];
    assert Written(h'[|h| - 1], h'[|h|]);
    forall i | 0 < i < |h'|
      ensures Written(h'[i - 1], h'[i])
    {
      if i < |h| {
        assert h'[i - 1] == h[i - 1] && h'[i] == h[i];
      }
    }
  }

  // ---------------------------------------------------------------------------------------------
  // Entering MUTATION_STARTED

  /** The write that opens the mutation phase. */
  predicate OpensMutation(before: Record, after: Record) {
    !before.status.MutationStarted? && after.status.MutationStarted?
  }

  /** A row enters MUTATION_STARTED at most once, and only from SERVER_DRY_RUN_PASSED. */
  lemma MutationOpensOnce(h: seq<Record>, i: nat, j: nat)
    requires IsHistory(h) && 0 < i < |h| && 0 < j < |h|
    requires OpensMutation(h[i - 1], h[i]) && OpensMutation(h[j - 1], h[j])
    ensures i == j
    ensures h[i - 1].status.ServerDryRunPassed?
  {
    hide Written, ValidRecord;
    WriteEffect(h[i - 1], h[i]);
    WriteEffect(h[j - 1], h[j]);
    if i < j {
      HistoryRank(h, i, j - 1);
    } else if j < i {
      HistoryRank(h, j, i - 1);
    }
  }

  /** The write that attaches a snapshot. */
  predicate AttachesSnapshot(before: Record, after: Record) {
    before.status.StaticValidated? && after.status.SnapshotCaptured?
  }

  lemma SnapshotWrite(r: Record, s: Snapshot, now: int)
    requires Commit(r, WithSnapshot(s, now)).Ok?
    ensures AttachesSnapshot(r, Commit(r, WithSnapshot(s, now)).value)
  {
    hide ValidRecord, SnapshotMatches;
  }

  /** A row gets its snapshot at most once. */
  lemma SnapshotAttachesOnce(h: seq<Record>, i: nat, j: nat)
    requires IsHistory(h) && 0 < i < |h| && 0 < j < |h|
    requires AttachesSnapshot(h[i - 1], h[i]) && AttachesSnapshot(h[j - 1], h[j])
    ensures i == j
  {
    hide Written, ValidRecord;
    if i < j {
      HistoryRank(h, i, j - 1);
    } else if j < i {
      HistoryRank(h, j, i - 1);
    }
  }

  // ---------------------------------------------------------------------------------------------
  // Port-forward ownership over time

  predicate Has(s: seq<Ownership>, id: string) {
    Find(s, id) < |s|
  }

  function At(s: seq<Ownership>, id: string): Ownership
    requires Has(s, id)
  {
    s[Find(s, id)]
  }

  lemma {:induction false} FindUpdate(s: seq<Ownership>, k: nat, o: Ownership, id: string)
    requires k < |s| && o.id == s[k].id
    ensures Find(s[k := o], id) == Find(s, id)
    decreases |s|
  {
    if s[0].id != id && k > 0 {
      FindUpdate(s[1..], k - 1, o, id);
      assert s[k := o][1..] == s[1..][k - 1 := o];
    } else if s[0].id != id {
      assert s[k := o][1..] == s[1..];
    }
  }

  lemma {:induction false} FindAppend(s: seq<Ownership>, o: Ownership, id: string)
    ensures Has(s, id) ==> Find(s + [o], id) == Find(s, id)
    ensures !Has(s, id) ==> Find(s + [o], id) == if o.id == id then |s| else |s| + 1
    decreases |s|
  {
    if s != [] && s[0].id != id {
      FindAppend(s[1..], o, id);
      assert (s + [o])[1..] == s[1..] + [o];
    }
  }

  /** What a write may do to one forward: nothing, or one step of its ownership. */
  predicate OwnershipStep(before: Record, after: Record, id: string)
    requires Has(before.forwards, id) && Has(after.forwards, id)
  {
    var o, u := At(before.forwards, id), At(after.forwards, id);
    && u.id == o.id && u.argv == o.argv && u.intentAt == o.intentAt
    && (|| u == o
        || (o.state.IntentPersisted? && u.state.Started? && after.status.PortForwardStarted?
            && before.status.PortForwardIntent?)
        || (o.state.Started? && u.state in {Stopped, CleanupAmbiguous} && u.process == o.process))
  }

  /** The write that declares the intent to start forward `id`. */
  predicate Declares(before: Record, after: Record, id: string) {
    !Has(before.forwards, id) && Has(after.forwards, id)
  }

  /** The forwards after a write that was accepted. */
  function ForwardsAfter(s: seq<Ownership>, op: Op): seq<Ownership> {
    match op
    case ForwardIntent(o, _) => s + [o]
    case ForwardStarted(id, pid, at, now) =>
      Replaced(s, id, (o: Ownership) => o.(state := Started, process := Some(Process(pid, at, now))))
    case ForwardStopped(id, now) => Replaced(s, id, (o: Ownership) => o.(state := Stopped, stoppedAt := Some(now)))
    case ForwardAmbiguous(id, _) => Replaced(s, id, (o: Ownership) => o.(state := CleanupAmbiguous))
    case _ => s
  }

  function Replaced(s: seq<Ownership>, id: string, f: Ownership -> Ownership): seq<Ownership> {
    if Has(s, id) then s[Find(s, id) := f(At(s, id))] else s
  }

  predicate ForwardGuard(r: Record, op: Op) {
    match op
    case ForwardIntent(o, _) => o.state.IntentPersisted? && !HasOwnership(r.forwards, o.id)
    case ForwardStarted(id, _, _, _) =>
      r.status.PortForwardIntent? && Has(r.forwards, id) && At(r.forwards, id).state.IntentPersisted?
    case ForwardStopped(id, _) => Has(r.forwards, id) && At(r.forwards, id).state.Started?
    case ForwardAmbiguous(id, _) => Has(r.forwards, id) && At(r.forwards, id).state.Started?
    case _ => true
  }

  lemma AcceptedForwards(r: Record, op: Op)
    requires Commit(r, op).Ok?
    ensures Commit(r, op).value.forwards == ForwardsAfter(r.forwards, op)
    ensures ForwardGuard(r, op)
    ensures op.ForwardIntent? ==> Commit(r, op).value.status.PortForwardIntent?
    ensures op.ForwardStarted? ==> Commit(r, op).value.status.PortForwardStarted?
  {
    OnlyIntentStarts(r.status);
    hide ValidRecord, ApprovalMatches, SnapshotMatches, Transitions, ActiveApproval, Find, HasOwnership, Bind;
  }

  lemma WriteForward(before: Record, after: Record, id: string)
    requires Written(before, after)
    ensures Has(before.forwards, id) ==> Has(after.forwards, id) && OwnershipStep(before, after, id)
    ensures Declares(before, after, id) ==>
              after.status.PortForwardIntent? && At(after.forwards, id).state.IntentPersisted?
  {
    hide Commit, Find, HasOwnership;
    var op :| Commit(before, op) == Ok(after);
    AcceptedForwards(before, op);
    var s, k := before.forwards, 0;
    match op
    case ForwardIntent(o, _) => FindAppend(s, o, id);
    case ForwardStarted(f, _, _, _) => k := Find(s, f); FindUpdate(s, k, after.forwards[k], id);
    case ForwardStopped(f, _) => k := Find(s, f); FindUpdate(s, k, after.forwards[k], id);
    case ForwardAmbiguous(f, _) => k := Find(s, f); FindUpdate(s, k, after.forwards[k], id);
    case _ =>
  }

  lemma {:induction false} ForwardStays(h: seq<Record>, i: nat, j: nat, id: string)
    requires IsHistory(h) && i <= j < |h|
    requires Has(h[i].forwards, id)
    ensures Has(h[j].forwards, id)
    decreases j - i
  {
    hide Written, ValidRecord, Find;
    if i < j {
      ForwardStays(h, i, j - 1, id);
      WriteForward(h[j - 1], h[j], id);
    }
  }

  /** A forward is declared at most once in the life of a row. */
  lemma IntentOnce(h: seq<Record>, i: nat, j: nat, id: string)
    requires IsHistory(h) && 0 < i < |h| && 0 < j < |h|
    requires Declares(h[i - 1], h[i], id) && Declares(h[j - 1], h[j], id)
    ensures i == j
  {
    hide Written, ValidRecord, Find;
    if i < j {
      ForwardStays(h, i, j - 1, id);
    } else if j < i {
      ForwardStays(h, j, i - 1, id);
    }
  }

  lemma AcceptedTls(r: Record, op: Op)
    requires Commit(r, op).Ok?
    ensures if op.WithTls? then r.status.TlsDc8Probing? else Commit(r, op).value.tls == r.tls
  {
    hide ValidRecord, ApprovalMatches, SnapshotMatches, Transitions, ActiveApproval, Find, HasOwnership, Bind;
  }

  lemma EarlyWrite(before: Record, after: Record)
    requires Written(before, after)
    requires before.forwards == [] && before.tls == []
    requires Rank(before.status) < 6 && Rank(after.status) < 6
    ensures after.forwards == [] && after.tls == []
  {
    hide Commit, HasOwnership;
    var op :| Commit(before, op) == Ok(after);
    AcceptedForwards(before, op);
    AcceptedTls(before, op);
  }

  /** No forward and no probe evidence exists before the first forward phase. */
  lemma {:induction false} EarlyRecordsHoldNoForward(h: seq<Record>, i: nat)
    requires IsHistory(h) && i < |h|
    requires Rank(h[i].status) < 6
    ensures h[i].forwards == [] && h[i].tls == []
  {
    hide Written, ValidRecord;
    if i > 0 {
      HistoryRank(h, i - 1, i);
      EarlyRecordsHoldNoForward(h, i - 1);
      EarlyWrite(h[i - 1], h[i]);
    }
  }

  // ---------------------------------------------------------------------------------------------
  // Ambiguity is a trap

  /** Ownership that no operation can resolve in this status. */
  predicate Stuck(r: Record, id: string) {
    && Has(r.forwards, id)
    && var o := At(r.forwards, id);
       || o.state.CleanupAmbiguous?
       || (o.state.IntentPersisted? && r.status in {ReconciliationRequired, RollbackStarted})
  }

  lemma StuckStays(before: Record, after: Record, id: string)
    requires Written(before, after) && Stuck(before, id)
    ensures Stuck(after, id)
    ensures !ForwardFree(after.status)
  {
    hide Written, ApprovalMatches, ValidBindings, Find, DistinctActions, DistinctEvidence, DistinctProbes;
    WriteEffect(before, after);
    WriteForward(before, after, id);
    assert At(after.forwards, id) in after.forwards;
  }

  /** Once a forward is ambiguous, or is a bare intent in reconciliation, no sequence of lifecycle
      operations ever reaches SUCCEEDED, FAILED or ROLLED_BACK. */
  lemma {:induction false} AmbiguityIsATrap(h: seq<Record>, i: nat, j: nat, id: string)
    requires IsHistory(h) && i < j < |h|
    requires Stuck(h[i], id)
    ensures Stuck(h[j], id) && !ForwardFree(h[j].status)
    decreases j - i
  {
    hide Written, ValidRecord, Stuck;
    if i < j - 1 {
      AmbiguityIsATrap(h, i, j - 1, id);
    }
    StuckStays(h[j - 1], h[j], id);
  }

  /** A run of writes from one record to another. */
  ghost predicate Path(p: seq<Record>) {
    p != [] && forall i | 0 < i < |p| :: Written(p[i - 1], p[i])
  }

  predicate Resolvable(r: Record) {
    forall o | o in r.forwards :: o.state in {Started, Stopped}
  }

  /** From reconciliation the row can still be closed as FAILED exactly when every forward is
      STARTED or STOPPED. */
  lemma ReconciliationCloses(r: Record)
    requires ValidRecord(r) && r.status.ReconciliationRequired?
    ensures Resolvable(r) <==> exists p: seq<Record> :: Path(p) && p[0] == r && p[|p| - 1].status.Failed?
  {
    if Resolvable(r) {
      var p := CloseAll(r);
    }
    forall p: seq<Record> | Path(p) && p[0] == r && p[|p| - 1].status.Failed?
      ensures Resolvable(r)
    {
      forall o | o in r.forwards
        ensures o.state in {Started, Stopped}
      {
        if o.state !in {Started, Stopped} {
          OwnerFound(r.forwards, o);
          assert Stuck(r, o.id);
          StuckAlong(p, o.id, |p| - 1);
          assert false;
        }
      }
    }
  }

  lemma {:induction false} OwnerFound(s: seq<Ownership>, o: Ownership)
    requires DistinctForwards(s) && o in s
    ensures Has(s, o.id) && At(s, o.id) == o
    decreases |s|
  {
    if s[0].id != o.id {
      assert s == [s[0]] + s[1..];
      OwnerFound(s[1..], o);
    } else {
      var k :| 0 <= k < |s| && s[k] == o;
    }
  }

  lemma {:induction false} StuckAlong(p: seq<Record>, id: string, n: nat)
    requires Path(p) && n < |p| && Stuck(p[0], id)
    ensures Stuck(p[n], id) && (n > 0 ==> !ForwardFree(p[n].status))
  {
    hide Written, ValidRecord, Stuck;
    if n > 0 {
      StuckAlong(p, id, n - 1);
      StuckStays(p[n - 1], p[n], id);
    }
  }

  function OpenCount(s: seq<Ownership>): nat {
    if s == [] then 0 else (if s[0].state.Stopped? then 0 else 1) + OpenCount(s[1..])
  }

  lemma {:induction false} NoneOpen(s: seq<Ownership>)
    requires OpenCount(s) == 0
    ensures AllStopped(s)
  {
    if s != [] {
      NoneOpen(s[1..]);
      assert s == [s[0]] + s[1..];
    }
  }

  /** Some forward is open when the count says so. */
  lemma {:induction false} OpenIndex(s: seq<Ownership>) returns (k: nat)
    requires OpenCount(s) > 0
    ensures k < |s| && !s[k].state.Stopped?
    ensures forall o: Ownership :: o.state.Stopped? ==> OpenCount(s[k := o]) == OpenCount(s) - 1
  {
    if !s[0].state.Stopped? {
      k := 0;
      forall o: Ownership | o.state.Stopped?
        ensures OpenCount(s[0 := o]) == OpenCount(s) - 1
      {
        assert s[0 := o][1..] == s[1..];
      }
    } else {
      var i := OpenIndex(s[1..]);
      k := i + 1;
      forall o: Ownership | o.state.Stopped?
        ensures OpenCount(s[k := o]) == OpenCount(s) - 1
      {
        assert s[k := o][1..] == s[1..][i := o];
      }
    }
  }

  /** Stopping the open forwards one by one, then failing. */
  lemma {:induction false} CloseAll(r: Record) returns (p: seq<Record>)
    requires ValidRecord(r) && r.status.ReconciliationRequired? && Resolvable(r)
    ensures Path(p) && p[0] == r && p[|p| - 1].status.Failed?
    decreases OpenCount(r.forwards)
  {
    hide Written, Commit, ApprovalMatches, ValidBindings;
    if OpenCount(r.forwards) == 0 {
      NoneOpen(r.forwards);
      var last := FailAccepted(r);
      p := [r, last];
    } else {
      var k := OpenIndex(r.forwards);
      var o := r.forwards[k];
      assert o in r.forwards;
      OwnerFound(r.forwards, o);
      var now := if r.updatedAt >= o.process.value.startedAt then r.updatedAt else o.process.value.startedAt;
      var op := ForwardStopped(o.id, now);
      StopAccepted(r, k, now);
      var next := Commit(r, op).value;
      WrittenBy(r, op);
      var rest := CloseAll(next);
      p := [r] + rest;
      PathCons(r, rest);
    }
  }

  lemma WrittenBy(r: Record, op: Op)
    requires Commit(r, op).Ok?
    ensures Written(r, Commit(r, op).value) && ValidRecord(Commit(r, op).value)
  {
    CommitValid(r, op);
    hide Commit, ValidRecord;
  }

  lemma FailAccepted(r: Record) returns (last: Record)
    requires ValidRecord(r) && r.status.ReconciliationRequired? && AllStopped(r.forwards)
    ensures Written(r, last) && last.status.Failed?
  {
    last := Commit(r, ToStatus(Failed, r.updatedAt)).value;
  }

  lemma PathCons(r: Record, rest: seq<Record>)
    requires Path(rest) && Written(r, rest[0])
    ensures Path([r] + rest)
  {
    hide Written;
    var p := [r] + rest;
    forall i | 0 < i < |p|
      ensures Written(p[i - 1], p[i])
    {
      assert p[i] == rest[i - 1];
      if i > 1 {
        assert p[i - 1] == rest[i - 2];
      }
    }
  }

  lemma StopAccepted(r: Record, k: nat, now: int)
    requires ValidRecord(r) && !ForwardFree(r.status)
    requires k < |r.forwards| && r.forwards[k].state.Started? && Find(r.forwards, r.forwards[k].id) == k
    requires r.forwards[k].process.Some? && now >= r.createdAt && now >= r.forwards[k].process.value.startedAt
    ensures var c := Commit(r, ForwardStopped(r.forwards[k].id, now));
            && c.Ok?
            && c.value == r.(forwards := r.forwards[k := r.forwards[k].(state := Stopped, stoppedAt := Some(now))],
                             updatedAt := now, generation := r.generation + 1)
  {
    var o := r.forwards[k].(state := Stopped, stoppedAt := Some(now));
    assert r.forwards[k] in r.forwards;
    assert ValidOwnership(o);
    UpdateValid(r.forwards, k, o);
  }

  lemma UpdateValid(s: seq<Ownership>, k: nat, o: Ownership)
    requires ValidForwards(s) && k < |s| && o.id == s[k].id && ValidOwnership(o)
    ensures ValidForwards(s[k := o])
  {
    var t := s[k := o];
    forall x | x in t
      ensures ValidOwnership(x)
    {
      var i :| 0 <= i < |t| && t[i] == x;
      if i != k {
        assert s[i] in s;
      }
    }
  }

  // ---------------------------------------------------------------------------------------------
  // Freshness and the approved sublist

  /** What a row promises about its approval from the moment it is attached. */
  predicate Bound(r: Record) {
    && (r.snapshot.Some? ==> r.snapshot.value.expiresAt <= r.snapshot.value.capturedAt + r.maxAge)
    && (r.approval.Some? ==> r.snapshot.Some? && r.approval.value.expiresAt <= r.snapshot.value.expiresAt)
  }

  lemma StaticIsBare(r: Record)
    requires ValidRecord(r) && r.status.StaticValidated?
    ensures r.snapshot.None?
  {
  }

  lemma AttachBound(r: Record, op: Op)
    requires Commit(r, op).Ok? && Bound(r)
    requires op.WithSnapshot? || op.WithApproval?
    requires r.status.StaticValidated? ==> r.snapshot.None?
    ensures Bound(Commit(r, op).value)
  {
    hide ValidRecord, ApprovalMatches, SnapshotMatches, Find, HasOwnership;
  }

  lemma OtherWritesKeepBindings(r: Record, op: Op)
    requires Commit(r, op).Ok?
    requires !op.WithSnapshot? && !op.WithApproval?
    ensures var u := Commit(r, op).value;
            u.snapshot == r.snapshot && u.approval == r.approval && u.maxAge == r.maxAge
  {
    hide ValidRecord, ApprovalMatches, SnapshotMatches, Transitions, ActiveApproval, Find, HasOwnership;
  }

  lemma WriteBound(before: Record, after: Record)
    requires Written(before, after) && Bound(before)
    requires before.status.StaticValidated? ==> before.snapshot.None?
    ensures Bound(after)
  {
    hide Commit;
    var op :| Commit(before, op) == Ok(after);
    if op.WithSnapshot? || op.WithApproval? {
      AttachBound(before, op);
    } else {
      OtherWritesKeepBindings(before, op);
    }
  }

  lemma {:induction false} HistoryBound(h: seq<Record>, i: nat)
    requires IsHistory(h) && i < |h|
    ensures Bound(h[i])
  {
    hide Written, ValidRecord;
    if i > 0 {
      HistoryBound(h, i - 1);
      HistoryBasics(h, i - 1);
      if h[i - 1].status.StaticValidated? {
        StaticIsBare(h[i - 1]);
      }
      WriteBound(h[i - 1], h[i]);
    }
  }

  /** Every execution state entered by a transition is entered less than the target's maximum
      snapshot age after the snapshot was captured. */
  lemma EnteredFresh(h: seq<Record>, i: nat, target: Status, now: int)
    requires IsHistory(h) && i < |h|
    requires IsExecution(target)
    requires Transition(h[i], target, now).Ok?
    ensures h[i].snapshot.Some?
    ensures now < h[i].snapshot.value.capturedAt + h[0].maxAge
  {
    HistoryBound(h, i);
    HistoryBasics(h, i);
  }

  /** An expired approval shuts rollback out as well: in any status from which the table allows
      ROLLBACK_STARTED, the transition is accepted exactly when the approval is still active. */
  lemma RollbackNeedsActiveApproval(r: Record, now: int)
    requires ValidRecord(r) && now >= r.createdAt
    requires RollbackStarted in Transitions(r.status)
    ensures Transition(r, RollbackStarted, now).Ok? <==> ActiveApproval(r, now)
  {
  }

  const SAMPLE_SNAPSHOT: Snapshot := Snapshot(SAMPLE.identity, SAMPLE.actions, [], 0, None, 7, 0, 10)

  const SAMPLE_APPROVAL: Approval :=
    Approval(OwnerSnapshot, "run", "step", "operation", "revision", Some(7), None, SAMPLE.actions, 0, 0, 5)

  const SAMPLE: Record :=
    Record(Identity("run", "step", "operation", "revision", "target", 0, 0, 0), [ActionDigest(1, 0)],
           0, 3600, Discovered, 1, None, None, [], [], [], 0, 0)

  /** The versions of a row up to its mutation boundary. */
  function SampleAt(i: nat): Record {
    if i == 0 then SAMPLE
    else if i == 1 then SAMPLE.(status := StaticValidated, generation := 2)
    else if i == 2 then SAMPLE.(status := SnapshotCaptured, generation := 3, snapshot := Some(SAMPLE_SNAPSHOT))
    else
      var r := SAMPLE.(snapshot := Some(SAMPLE_SNAPSHOT), approval := Some(SAMPLE_APPROVAL));
      if i == 3 then r.(status := Approved, generation := 4)
      else if i == 4 then r.(status := ServerDryRunPassed, generation := 5, updatedAt := 1)
      else r.(status := MutationStarted, generation := 6, updatedAt := 2)
  }

  function SampleOp(i: nat): Op {
    if i == 0 then ToStatus(StaticValidated, 0)
    else if i == 1 then WithSnapshot(SAMPLE_SNAPSHOT, 0)
    else if i == 2 then WithApproval(SAMPLE_APPROVAL, 0)
    else if i == 3 then ToStatus(ServerDryRunPassed, 1)
    else ToStatus(MutationStarted, 2)
  }

  lemma SampleStarts()
    ensures IsHistory([SampleAt(0)])
  {
  }

  lemma SampleStep(i: nat)
    requires i < 5
    ensures Commit(SampleAt(i), SampleOp(i)) == Ok(SampleAt(i + 1))
  {
  }

  /** A row whose approval expired in the middle of its upgrades: rollback is refused, reconciliation is
      not. */
  lemma ExpiredApproval() returns (h: seq<Record>, now: int)
    ensures IsHistory(h) && h[|h| - 1].status.MutationStarted?
    ensures Transition(h[|h| - 1], RollbackStarted, now) == Err(Stale)
    ensures Transition(h[|h| - 1], ReconciliationRequired, now).Ok?
  {
    hide Commit, SampleOp;
    now := 5;
    var i := 0;
    h := [SampleAt(0)];
    SampleStarts();
    while i < 5
      invariant 0 <= i <= 5
      invariant IsHistory(h) && h[|h| - 1] == SampleAt(i)
    {
      SampleStep(i);
      HistoryExtend(h, SampleOp(i));
      h := h + [SampleAt(i + 1)];
      i := i + 1;
    }
    SampleEnds(now);
  }

  lemma SampleEnds(now: int)
    requires now == 5
    ensures Transition(SampleAt(5), RollbackStarted, now) == Err(Stale)
    ensures Transition(SampleAt(5), ReconciliationRequired, now).Ok?
  {
  }

  /** The allowed actions are the static ones at strictly increasing positions. */
  lemma ApprovedSublist(r: Record)
    requires ValidRecord(r) && r.approval.Some?
    ensures var allowed := r.approval.value.allowed;
            && (forall d | d in allowed :: d in r.actions && r.actions[Position(r.actions, d.action)] == d)
            && (forall i, j | 0 <= i < j < |allowed| ::
                  Position(r.actions, allowed[i].action) < Position(r.actions, allowed[j].action))
  {
    hide Position, ValidSnapshot, ValidForwards, DistinctEvidence, DistinctProbes;
    var allowed := r.approval.value.allowed;
    forall d | d in allowed
      ensures d in r.actions && Position(r.actions, d.action) < |r.actions|
      ensures r.actions[Position(r.actions, d.action)] == d
    {
      var k :| 0 <= k < |r.actions| && r.actions[k] == d;
      assert Position(r.actions, d.action) <= k;
    }
    forall i, j | 0 <= i < j < |allowed|
      ensures Position(r.actions, allowed[i].action) < Position(r.actions, allowed[j].action)
    {
      assert allowed[i] in allowed && allowed[j] in allowed;
      assert allowed[i].action != allowed[j].action;
    }
  }
}
