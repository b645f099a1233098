/** The lifecycle journal of src/dispatcher/cluster_operation_lifecycle.py.

    A record is an immutable value; every operation returns a new record or an error.  Digests are
    opaque tokens.  Where the source stores a payload next to its digest, the payload carries its
    own token here, so "payload and digest agree" holds by construction.  Times are whole numbers.
 */
module ClusterLifecycle {
  import opened Common
  import opened ClusterManifest

  type Token = nat

  datatype LifecycleError =
    | IllegalTransition
    | NeedsAttach
    | Stale
    | Mismatch
    | Duplicate
    | Terminal
    | WrongForwardState
    | Invalid

  datatype Result<+T> = Ok(value: T) | Err(error: LifecycleError)

  datatype Status =
    | Discovered
    | StaticValidated
    | SnapshotCaptured
    | Approved
    | ServerDryRunPassed
    | PortForwardIntent
    | PortForwardStarted
    | TlsDc8Probing
    | MutationStarted
    | Mutated
    | Probing
    | Succeeded
    | RollbackStarted
    | RolledBack
    | Failed
    | ReconciliationRequired

  /** CLUSTER_OPERATION_TRANSITIONS. */
  function Transitions(s: Status): set<Status> {
    match s
    case Discovered => {StaticValidated, Failed}
    case StaticValidated => {SnapshotCaptured, Failed}
    case SnapshotCaptured => {Approved, Failed}
    case Approved => {ServerDryRunPassed, PortForwardIntent, Failed}
    case ServerDryRunPassed => {MutationStarted, PortForwardIntent, Failed}
    case PortForwardIntent => {PortForwardStarted, ReconciliationRequired}
    case PortForwardStarted => {TlsDc8Probing, RollbackStarted, Failed, ReconciliationRequired}
    case TlsDc8Probing => {PortForwardIntent, Succeeded, RollbackStarted, Failed, ReconciliationRequired}
    case MutationStarted => {Mutated, RollbackStarted, Failed, ReconciliationRequired}
    case Mutated => {Probing, RollbackStarted, Failed, ReconciliationRequired}
    case Probing => {PortForwardIntent, Succeeded, RollbackStarted, Failed, ReconciliationRequired}
    case Succeeded => {}
    case RollbackStarted => {RolledBack, Failed, ReconciliationRequired}
    case RolledBack => {}
    case Failed => {}
    case ReconciliationRequired => {RollbackStarted, Failed}
  }

  /** _APPROVAL_REQUIRED_STATES. */
  predicate RequiresApproval(s: Status) {
    s.Approved? || IsExecution(s)
  }

  /** _FUTURE_EXECUTION_STATES. */
  predicate IsExecution(s: Status) {
    s in {ServerDryRunPassed, PortForwardIntent, PortForwardStarted, TlsDc8Probing, MutationStarted, Mutated,
          Probing, Succeeded, RollbackStarted, RolledBack}
  }

  predicate ForwardFree(s: Status) { s in {Succeeded, Failed, RolledBack} }

  /** The fields that no update may change. */
  datatype Identity = Identity(
    run: string, step: string, operation: string, revision: string,
    target: string, plan: Token, config: Token, manifest: Token)

  datatype ActionDigest = ActionDigest(action: nat, sha256: Token)

  datatype ReleaseSnapshot = NewRelease(release: Release) | ExistingRelease(release: Release, revision: nat)

  datatype Snapshot = Snapshot(
    identity: Identity, actions: seq<ActionDigest>, rollbacks: seq<ReleaseSnapshot>, toolchain: Token,
    envelope: Option<Token>, token: Token, capturedAt: int, expiresAt: int)

  datatype ApprovalSource = OwnerSnapshot | PreauthorizedEnvelope

  datatype Approval = Approval(
    source: ApprovalSource, run: string, step: string, operation: string, revision: string,
    snapshot: Option<Token>, envelope: Option<Token>, allowed: seq<ActionDigest>, rollback: Token,
    issuedAt: int, expiresAt: int)

  /** The evidence identities of the runner, one per fixed command, and any others. */
  datatype CommandId =
    | ActionCommand(action: nat)
    | ProbeCommand(action: nat, probe: nat)
    | RollbackCommand(action: nat)
    | ForeignCommand(name: string)

  datatype CommandKind = ServerDryRun | Mutation | ReadinessProbe | Rollback

  datatype Evidence = Evidence(id: CommandId, action: nat, kind: CommandKind, succeeded: bool, returncode: int)

  datatype ForwardState = IntentPersisted | Started | Stopped | CleanupAmbiguous

  datatype Process = Process(pid: nat, createdAt: int, startedAt: int)

  datatype Ownership = Ownership(
    id: string, argv: Token, state: ForwardState, intentAt: int, process: Option<Process>, stoppedAt: Option<int>)

  datatype TlsOutcome =
    | ClientCertificateRequired
    | UnauthenticatedListenerRejected
    | UnauthenticatedHandshakeSucceeded
    | UnexpectedListenerBehavior
    | ProbeTimeout
    | ProbeAmbiguous

  datatype TlsEvidence = TlsEvidence(probe: nat, forward: string, outcome: TlsOutcome)

  datatype Record = Record(
    identity: Identity, actions: seq<ActionDigest>, rollback: Token, maxAge: nat,
    status: Status, generation: nat,
    snapshot: Option<Snapshot>, approval: Option<Approval>,
    evidence: seq<Evidence>, forwards: seq<Ownership>, tls: seq<TlsEvidence>,
    createdAt: int, updatedAt: int)

  // ---------------------------------------------------------------------------------------------
  // Validators

  /** validate_owned_service_process, without the field types. */
  predicate ValidOwnership(o: Ownership) {
    && (match o.state
        case IntentPersisted => o.process.None? && o.stoppedAt.None?
        case Started => o.process.Some? && o.stoppedAt.None?
        case Stopped => o.process.Some? && o.stoppedAt.Some?
        case CleanupAmbiguous => o.process.Some? && o.stoppedAt.None?)
    && (o.process.Some? ==> o.process.value.startedAt >= o.intentAt && o.process.value.pid >= 1)
    && (o.process.Some? && o.stoppedAt.Some? ==> o.stoppedAt.value >= o.process.value.startedAt)
  }

  predicate DistinctActions(s: seq<ActionDigest>) {
    forall i, j | 0 <= i < j < |s| :: s[i].action != s[j].action
  }

  predicate DistinctReleases(s: seq<ReleaseSnapshot>) {
    forall i, j | 0 <= i < j < |s| :: s[i].release != s[j].release
  }

  predicate DistinctEvidence(s: seq<Evidence>) {
    forall i, j | 0 <= i < j < |s| :: s[i].id != s[j].id
  }

  predicate DistinctForwards(s: seq<Ownership>) {
    forall i, j | 0 <= i < j < |s| :: s[i].id != s[j].id
  }

  predicate DistinctProbes(s: seq<TlsEvidence>) {
    forall i, j | 0 <= i < j < |s| :: s[i].probe != s[j].probe
  }

  predicate ValidForwards(s: seq<Ownership>) {
    DistinctForwards(s) && |s| <= 20 && forall o | o in s :: ValidOwnership(o)
  }

  predicate AllStopped(s: seq<Ownership>) {
    forall o | o in s :: o.state.Stopped?
  }

  predicate ValidSnapshot(s: Snapshot) {
    DistinctActions(s.actions) && DistinctReleases(s.rollbacks) && s.expiresAt > s.capturedAt
  }

  predicate ValidApproval(a: Approval) {
    && DistinctActions(a.allowed)
    && 1 <= |a.allowed| <= 20
    && (match a.source
        case OwnerSnapshot => a.snapshot.Some? && a.envelope.None?
        case PreauthorizedEnvelope => a.envelope.Some?)
    && a.expiresAt > a.issuedAt
  }

  /** _validate_snapshot_identity. */
  predicate SnapshotMatches(r: Record, s: Snapshot) {
    s.identity == r.identity && s.actions == r.actions
  }

  /** The position of an action in the static list. */
  function Position(actions: seq<ActionDigest>, action: nat): (k: nat)
    ensures k <= |actions|
    ensures k < |actions| ==> actions[k].action == action
    ensures forall i :: 0 <= i < k ==> actions[i].action != action
  {
    if actions == [] || actions[0].action == action then 0 else 1 + Position(actions[1..], action)
  }

  /** _validate_approval_identity: every allowed action is the static one with the same digest, the
      positions are sorted, and an envelope allows exactly the static list. */
  predicate ApprovalMatches(r: Record, a: Approval) {
    && r.snapshot.Some?
    && a.run == r.identity.run && a.step == r.identity.step
    && a.operation == r.identity.operation && a.revision == r.identity.revision
    && a.snapshot == Some(r.snapshot.value.token)
    && a.rollback == r.rollback
    && (forall d | d in a.allowed :: d in r.actions)
    && (forall i, j | 0 <= i < j < |a.allowed| ::
          Position(r.actions, a.allowed[i].action) <= Position(r.actions, a.allowed[j].action))
    && (a.source.PreauthorizedEnvelope? ==> a.allowed == r.actions && r.snapshot.value.envelope == a.envelope)
  }

  /** validate_record_bindings together with the field limits. */
  predicate ValidRecord(r: Record) {
    && DistinctActions(r.actions) && 1 <= |r.actions| <= 20
    && 1 <= r.maxAge <= 86400
    && r.generation >= 1
    && DistinctEvidence(r.evidence) && |r.evidence| <= 200
    && ValidForwards(r.forwards)
    && DistinctProbes(r.tls) && |r.tls| <= 20
    && r.updatedAt >= r.createdAt
    && ValidBindings(r)
    && (ForwardFree(r.status) ==> AllStopped(r.forwards))
  }

  predicate ValidBindings(r: Record) {
    && (r.snapshot.Some? ==> ValidSnapshot(r.snapshot.value) && SnapshotMatches(r, r.snapshot.value))
    && (r.approval.Some? ==> ValidApproval(r.approval.value) && ApprovalMatches(r, r.approval.value))
    && (r.status in {Discovered, StaticValidated} ==> r.snapshot.None?)
    && (r.status.SnapshotCaptured? ==> r.approval.None?)
    && (RequiresApproval(r.status) ==> r.approval.Some?)
  }

  // ---------------------------------------------------------------------------------------------
  // Operations

  /** _validated_replace. */
  function Validated(r: Record): Result<Record> {
    if ValidRecord(r) then Ok(r) else Err(Invalid)
  }

  /** new_cluster_operation_lifecycle_record. */
  function NewRecord(identity: Identity, actions: seq<ActionDigest>, rollback: Token, maxAge: nat, now: int)
    : Result<Record>
  {
    Validated(Record(identity, actions, rollback, maxAge, Discovered, 1, None, None, [], [], [], now, now))
  }

  predicate ActiveSnapshot(r: Record, now: int) {
    r.snapshot.Some? && r.snapshot.value.expiresAt > now
  }

  predicate ActiveApproval(r: Record, now: int) {
    ActiveSnapshot(r, now) && r.approval.Some? && r.approval.value.expiresAt > now
  }

  /** transition_cluster_operation. */
  function Transition(r: Record, target: Status, now: int): Result<Record> {
    if target in {SnapshotCaptured, Approved} then Err(NeedsAttach)
    else if target !in Transitions(r.status) then Err(IllegalTransition)
    else if IsExecution(target) && !ActiveApproval(r, now) then Err(Stale)
    else Validated(r.(status := target, updatedAt := now))
  }

  /** attach_cluster_operation_snapshot. */
  function AttachSnapshot(r: Record, s: Snapshot, now: int): Result<Record> {
    if SnapshotCaptured !in Transitions(r.status) then Err(IllegalTransition)
    else if !SnapshotMatches(r, s) then Err(Mismatch)
    else if s.capturedAt > now || s.expiresAt <= now then Err(Stale)
    else if s.expiresAt - s.capturedAt > r.maxAge then Err(Stale)
    else Validated(r.(status := SnapshotCaptured, snapshot := Some(s), updatedAt := now))
  }

  /** An envelope approval takes over the snapshot it is attached to. */
  function Bind(r: Record, a: Approval): Approval {
    if a.source.PreauthorizedEnvelope? && a.snapshot.None? && r.snapshot.Some? then
      var s := r.snapshot.value;
      a.(snapshot := Some(s.token), expiresAt := if a.expiresAt <= s.expiresAt then a.expiresAt else s.expiresAt)
    else a
  }

  /** attach_cluster_operation_approval. */
  function AttachApproval(r: Record, given: Approval, now: int): Result<Record> {
    var a := Bind(r, given);
    if Approved !in Transitions(r.status) then Err(IllegalTransition)
    else if !ActiveSnapshot(r, now) then Err(Stale)
    else if !ApprovalMatches(r, a) then Err(Mismatch)
    else if a.issuedAt > now then Err(Stale)
    else if a.source.OwnerSnapshot? && a.issuedAt < r.snapshot.value.capturedAt then Err(Stale)
    else if a.expiresAt <= now || a.expiresAt > r.snapshot.value.expiresAt then Err(Stale)
    else Validated(r.(status := Approved, approval := Some(a), evidence := [], updatedAt := now))
  }

  /** append_cluster_operation_command_evidence. */
  function AppendEvidence(r: Record, e: Evidence, now: int): Result<Record> {
    if r.status in {Succeeded, RolledBack} then Err(Terminal)
    else if exists x :: x in r.evidence && x.id == e.id then Err(Duplicate)
    else Validated(r.(evidence := r.evidence + [e], updatedAt := now))
  }

  /** begin_cluster_operation_port_forward. */
  function BeginForward(r: Record, o: Ownership, now: int): Result<Record> {
    if !o.state.IntentPersisted? then Err(WrongForwardState)
    else if o.intentAt != now then Err(Mismatch)
    else if PortForwardIntent !in Transitions(r.status) then Err(IllegalTransition)
    else if HasOwnership(r.forwards, o.id) then Err(Duplicate)
    else Validated(r.(status := PortForwardIntent, forwards := r.forwards + [o], updatedAt := now))
  }

  predicate HasOwnership(s: seq<Ownership>, id: string) {
    exists o :: o in s && o.id == id
  }

  /** The place of a forward in the list; the list's length when it is absent. */
  function Find(s: seq<Ownership>, id: string): (k: nat)
    ensures k <= |s|
    ensures k < |s| ==> s[k].id == id
    ensures forall i :: 0 <= i < k ==> s[i].id != id
  {
    if s == [] || s[0].id == id then 0 else 1 + Find(s[1..], id)
  }

  /** mark_cluster_operation_port_forward_started. */
  function MarkStarted(r: Record, id: string, pid: nat, createdAt: int, now: int): Result<Record> {
    var k := Find(r.forwards, id);
    if PortForwardStarted !in Transitions(r.status) then Err(IllegalTransition)
    else if k == |r.forwards| then Err(Mismatch)
    else if !r.forwards[k].state.IntentPersisted? then Err(WrongForwardState)
    else
      var o := r.forwards[k].(state := Started, process := Some(Process(pid, createdAt, now)));
      Validated(r.(status := PortForwardStarted, forwards := r.forwards[k := o], updatedAt := now))
  }

  /** mark_cluster_operation_port_forward_stopped. */
  function MarkStopped(r: Record, id: string, now: int): Result<Record> {
    var k := Find(r.forwards, id);
    if k == |r.forwards| then Err(Mismatch)
    else if !r.forwards[k].state.Started? then Err(WrongForwardState)
    else
      var o := r.forwards[k].(state := Stopped, stoppedAt := Some(now));
      Validated(r.(forwards := r.forwards[k := o], updatedAt := now))
  }

  /** mark_cluster_operation_port_forward_cleanup_ambiguous. */
  function MarkAmbiguous(r: Record, id: string, now: int): Result<Record> {
    var k := Find(r.forwards, id);
    if k == |r.forwards| then Err(Mismatch)
    else if !r.forwards[k].state.Started? then Err(WrongForwardState)
    else
      var o := r.forwards[k].(state := CleanupAmbiguous);
      Validated(r.(forwards := r.forwards[k := o], updatedAt := now))
  }

  /** append_cluster_operation_tls_dc8_probe_evidence. */
  function AppendTls(r: Record, e: TlsEvidence, now: int): Result<Record> {
    var k := Find(r.forwards, e.forward);
    if !r.status.TlsDc8Probing? then Err(IllegalTransition)
    else if exists x :: x in r.tls && x.probe == e.probe then Err(Duplicate)
    else if k == |r.forwards| then Err(Mismatch)
    else if !r.forwards[k].state.Started? then Err(WrongForwardState)
    else Validated(r.(tls := r.tls + [e], updatedAt := now))
  }

  // ---------------------------------------------------------------------------------------------
  // Journal writes

  datatype Op =
    | ToStatus(target: Status, now: int)
    | WithSnapshot(snapshot: Snapshot, now: int)
    | WithApproval(approval: Approval, now: int)
    | WithEvidence(evidence: Evidence, now: int)
    | ForwardIntent(ownership: Ownership, now: int)
    | ForwardStarted(id: string, pid: nat, createdAt: int, now: int)
    | ForwardStopped(id: string, now: int)
    | ForwardAmbiguous(id: string, now: int)
    | WithTls(tls: TlsEvidence, now: int)

  function Apply(r: Record, op: Op): Result<Record> {
    match op
    case ToStatus(target, now) => Transition(r, target, now)
    case WithSnapshot(s, now) => AttachSnapshot(r, s, now)
    case WithApproval(a, now) => AttachApproval(r, a, now)
    case WithEvidence(e, now) => AppendEvidence(r, e, now)
    case ForwardIntent(o, now) => BeginForward(r, o, now)
    case ForwardStarted(id, pid, at, now) => MarkStarted(r, id, pid, at, now)
    case ForwardStopped(id, now) => MarkStopped(r, id, now)
    case ForwardAmbiguous(id, now) => MarkAmbiguous(r, id, now)
    case WithTls(e, now) => AppendTls(r, e, now)
  }

  /** `_update_cluster_operation` of the state store: apply, then bump the generation. */
  function Commit(r: Record, op: Op): Result<Record> {
    match Apply(r, op)
    case Ok(u) => Ok(u.(generation := r.generation + 1))
    case Err(e) => Err(e)
  }

  /** One durable write from `before` to `after`. */
  ghost predicate Written(before: Record, after: Record) {
    exists op :: Commit(before, op) == Ok(after)
  }

  /** All durable versions of one journal row, oldest first. */
  ghost predicate IsHistory(h: seq<Record>) {
    && h != []
    && NewRecord(h[0].identity, h[0].actions, h[0].rollback, h[0].maxAge, h[0].createdAt) == Ok(h[0])
    && forall i | 0 < i < |h| :: Written(h[i - 1], h[i])
  }
}
