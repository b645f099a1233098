/** The exact new version that an accepted write stores, and when the runner's writes are accepted. */
module ClusterProgress {
  import opened Common
  import opened ClusterManifest
  import opened ClusterLifecycle
  import opened ClusterHistory

  /** The next version, for a write whose checks pass. */
  function After(r: Record, op: Op): Record {
    var next := r.(updatedAt := op.now, generation := r.generation + 1, forwards := ForwardsAfter(r.forwards, op));
    match op
    case ToStatus(target, _) => next.(status := target)
    case WithSnapshot(s, _) => next.(status := SnapshotCaptured, snapshot := Some(s))
    case WithApproval(a, _) => next.(status := Approved, approval := Some(Bind(r, a)), evidence := [])
    case WithEvidence(e, _) => next.(evidence := r.evidence + [e])
    case ForwardIntent(_, _) => next.(status := PortForwardIntent)
    case ForwardStarted(_, _, _, _) => next.(status := PortForwardStarted)
    case WithTls(t, _) => next.(tls := r.tls + [t])
    case _ => next
  }

  /** An accepted write stores exactly `After`. */
  lemma CommitStores(r: Record, op: Op)
    requires Commit(r, op).Ok?
    ensures Commit(r, op).value == After(r, op)
  {
    if op.WithSnapshot? || op.WithApproval? {
      hide ValidRecord, ApprovalMatches, SnapshotMatches, Transitions, ActiveApproval, Find, HasOwnership, Bind;
    } else {
      AcceptedForwards(r, op);
      CommitStoresRest(r, op);
    }
  }

  lemma CommitStoresRest(r: Record, op: Op)
    requires Commit(r, op).Ok?
    requires !op.WithSnapshot? && !op.WithApproval?
    ensures Commit(r, op).value == After(r, op).(forwards := Commit(r, op).value.forwards)
  {
    hide ValidRecord, ApprovalMatches, SnapshotMatches, Transitions, ActiveApproval, Find, HasOwnership, Bind,
      ForwardsAfter;
  }

  /** `u` is `r` in another status. */
  predicate Moved(r: Record, u: Record, target: Status) {
    && u == r.(status := target, updatedAt := u.updatedAt, generation := u.generation)
  }

  /** `u` is `r` with one more evidence entry. */
  predicate Journaled(r: Record, u: Record, e: Evidence) {
    && u == r.(evidence := r.evidence + [e], updatedAt := u.updatedAt, generation := u.generation)
  }

  lemma AfterMove(r: Record, target: Status, now: int)
    ensures Moved(r, After(r, ToStatus(target, now)), target) && After(r, ToStatus(target, now)).updatedAt == now
  {
  }

  lemma AfterEvidence(r: Record, e: Evidence, now: int)
    ensures Journaled(r, After(r, WithEvidence(e, now)), e)
  {
  }

  // ---------------------------------------------------------------------------------------------
  // Acceptance

  /** What every later version shares with an approved record. */
  predicate Ready(r: Record, now: int) {
    ValidRecord(r) && ActiveApproval(r, now) && r.createdAt <= now
  }

  lemma TransitionAccepted(r: Record, target: Status, now: int)
    requires Ready(r, now)
    requires target in Transitions(r.status) && (IsExecution(target) || target in {Failed, ReconciliationRequired})
    requires ForwardFree(target) ==> AllStopped(r.forwards)
    ensures Commit(r, ToStatus(target, now)).Ok?
  {
    hide ValidForwards, DistinctEvidence, DistinctProbes, DistinctActions, ValidApproval, ValidSnapshot, Position;
  }

  lemma EvidenceAccepted(r: Record, e: Evidence, now: int)
    requires Ready(r, now)
    requires !(r.status in {Succeeded, RolledBack})
    requires |r.evidence| < 200
    requires forall x | x in r.evidence :: x.id != e.id
    ensures Commit(r, WithEvidence(e, now)).Ok?
  {
    assert DistinctEvidence(r.evidence + [e]) by {
      forall i, j | 0 <= i < j < |r.evidence + [e]|
        ensures (r.evidence + [e])[i].id != (r.evidence + [e])[j].id
      {
        if j == |r.evidence| {
          assert r.evidence[i] in r.evidence;
        }
      }
    }
    hide ValidForwards, DistinctEvidence, DistinctProbes, DistinctActions, ApprovalMatches, SnapshotMatches,
      ValidApproval, ValidSnapshot, Transitions;
  }

  lemma AppendForwardValid(s: seq<Ownership>, o: Ownership)
    requires ValidForwards(s) && |s| < 20 && !Has(s, o.id) && ValidOwnership(o)
    ensures ValidForwards(s + [o]) && !HasOwnership(s, o.id)
  {
    forall x | x in s
      ensures x.id != o.id
    {
      OwnerFound(s, x);
    }
    var t := s + [o];
    forall i, j | 0 <= i < j < |t|
      ensures t[i].id != t[j].id
    {
      if j == |s| {
        assert s[i] in s;
      }
    }
  }

  lemma IntentAccepted(r: Record, o: Ownership, now: int)
    requires Ready(r, now)
    requires PortForwardIntent in Transitions(r.status)
    requires o.state.IntentPersisted? && o.intentAt == now && o.process.None? && o.stoppedAt.None?
    requires |r.forwards| < 20 && !Has(r.forwards, o.id)
    ensures Commit(r, ForwardIntent(o, now)).Ok?
  {
    AppendForwardValid(r.forwards, o);
    hide ValidForwards, DistinctEvidence, DistinctProbes, DistinctActions, ApprovalMatches, SnapshotMatches,
      ValidApproval, ValidSnapshot, Transitions, HasOwnership, Has;
  }

  lemma StartAccepted(r: Record, k: nat, pid: nat, createdAt: int, now: int)
    requires Ready(r, now)
    requires r.status.PortForwardIntent? && pid >= 1
    requires k < |r.forwards| && Find(r.forwards, r.forwards[k].id) == k
    requires r.forwards[k].state.IntentPersisted? && now >= r.forwards[k].intentAt
    ensures Commit(r, ForwardStarted(r.forwards[k].id, pid, createdAt, now)).Ok?
  {
    var o := r.forwards[k].(state := Started, process := Some(Process(pid, createdAt, now)));
    assert r.forwards[k] in r.forwards;
    UpdateValid(r.forwards, k, o);
    OnlyIntentStarts(r.status);
    hide ValidForwards, DistinctEvidence, DistinctProbes, DistinctActions, ApprovalMatches, SnapshotMatches,
      ValidApproval, ValidSnapshot, Transitions;
  }

  lemma AmbiguousAccepted(r: Record, k: nat, now: int)
    requires Ready(r, now) && !ForwardFree(r.status)
    requires k < |r.forwards| && Find(r.forwards, r.forwards[k].id) == k
    requires r.forwards[k].state.Started?
    ensures Commit(r, ForwardAmbiguous(r.forwards[k].id, now)).Ok?
  {
    var o := r.forwards[k].(state := CleanupAmbiguous);
    assert r.forwards[k] in r.forwards;
    UpdateValid(r.forwards, k, o);
    hide ValidForwards, DistinctEvidence, DistinctProbes, DistinctActions, ApprovalMatches, SnapshotMatches,
      ValidApproval, ValidSnapshot, Transitions;
  }

  lemma TlsAccepted(r: Record, e: TlsEvidence, now: int)
    requires Ready(r, now) && r.status.TlsDc8Probing?
    requires |r.tls| < 20 && (forall x | x in r.tls :: x.probe != e.probe)
    requires Has(r.forwards, e.forward) && At(r.forwards, e.forward).state.Started?
    ensures Commit(r, WithTls(e, now)).Ok?
  {
    assert DistinctProbes(r.tls + [e]) by {
      forall i, j | 0 <= i < j < |r.tls + [e]|
        ensures (r.tls + [e])[i].probe != (r.tls + [e])[j].probe
      {
        if j == |r.tls| {
          assert r.tls[i] in r.tls;
        }
      }
    }
    hide ValidForwards, DistinctEvidence, DistinctProbes, DistinctActions, ApprovalMatches, SnapshotMatches,
      ValidApproval, ValidSnapshot, Transitions;
  }

  /** Changing the forward that was declared last. */
  lemma ReplaceLast(s: seq<Ownership>, o: Ownership, f: Ownership -> Ownership)
    requires !Has(s, o.id)
    ensures Has(s + [o], o.id) && Find(s + [o], o.id) == |s| && At(s + [o], o.id) == o
    ensures Replaced(s + [o], o.id, f) == s + [f(o)]
  {
    FindAppend(s, o, o.id);
  }
}
