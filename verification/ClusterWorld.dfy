/** Everything outside the runner: the journal row with its other writers, the command runner, the
    process and probe adapters, the clock and the cluster itself.

    Every answer is taken from a script that nothing constrains, one entry per request, so a
    contract proved over `World` holds for every behaviour of the environment.  Before each journal
    access any number of writes by other actors is applied, and the runner's own write may be
    accepted, refused, or made durable without the caller learning of it (the store still secures
    its files after the commit, and that step can raise).
 */
module ClusterWorld {
  import opened Common
  import opened ClusterManifest
  import opened ClusterLifecycle
  import opened ClusterHistory
  import opened ClusterProgress
  import opened ClusterTrace

  datatype Fate = Applied | Refused | Unacknowledged

  /** The content of a release: none, or the content that revision `n` deployed. */
  type Content = Option<nat>

  datatype Answer = Answer(
    time: int, timeLeft: bool, foreign: seq<Op>, fate: Fate, inspected: bool,
    command: CommandOutcome, content: Content,
    spawn: SpawnOutcome, ready: Readiness, close: CloseOutcome, probe: ProbeOutcome,
    captured: Option<Snapshot>, granted: Option<Approval>)

  /** What a command reports: a return code in range, or nothing that can be used. */
  function Heard(a: Answer): CommandOutcome {
    if a.command.Completed? && -255 <= a.command.returncode <= 255 then a.command else NoResult
  }

  /** What a fixed command does to the cluster. */
  datatype Effect = NoEffect | Upgrade(release: Release) | Restore(snapshot: ReleaseSnapshot)

  /** `helm rollback` to the snapshot revision, or `helm uninstall` for a new release. */
  function Restored(s: ReleaseSnapshot): Content {
    match s
    case NewRelease(_) => None
    case ExistingRelease(_, n) => Some(n)
  }

  /** A clock that never runs backwards. */
  function Later(clock: int, time: int): int { if time > clock then time else clock }

  /** Writes by other actors; those the lifecycle refuses leave the row alone. */
  function Advance(h: seq<Record>, ops: seq<Op>): (r: seq<Record>)
    requires h != []
    ensures h <= r
    decreases |ops|
  {
    if ops == [] then h
    else match Commit(h[|h| - 1], ops[0])
      case Ok(next) => Advance(h + [next], ops[1..])
      case Err(_) => Advance(h, ops[1..])
  }

  lemma {:induction false} AdvanceHistory(h: seq<Record>, ops: seq<Op>)
    requires IsHistory(h)
    ensures IsHistory(Advance(h, ops))
    decreases |ops|
  {
    hide IsHistory, Commit;
    assert h != [] by {
      HistoryNonempty(h);
    }
    if ops != [] {
      match Commit(h[|h| - 1], ops[0])
      case Ok(next) =>
        HistoryExtend(h, ops[0]);
        AdvanceHistory(h + [next], ops[1..]);
      case Err(_) =>
        AdvanceHistory(h, ops[1..]);
    }
  }

  lemma HistoryNonempty(h: seq<Record>)
    requires IsHistory(h)
    ensures h != []
  {
  }

  class World {
    const script: nat -> Answer
    var cursor: nat
    var clock: int
    var history: seq<Record>
    var trace: Trace
    var releases: map<Release, Content>
    /** How many journal accesses did not succeed. */
    var faults: nat

    ghost predicate Valid()
      reads this`history, this`trace
    {
      IsHistory(history) && Anchored(trace, history) && Ordered(trace)
    }

    /** `r` is a version of the row that became durable. */
    ghost predicate Known(r: Record)
      reads this`history
    {
      1 <= r.generation <= |history| && history[r.generation - 1] == r
    }

    /** No other writer, and no refused or unacknowledged write. */
    ghost predicate Still()
      reads this`cursor
    {
      StillFrom(cursor)
    }

    ghost predicate StillFrom(c: nat) {
      forall n | n >= c :: script(n).foreign == [] && script(n).fate.Applied?
    }

    /** Besides, a clock that stays before `expiry`. */
    ghost predicate Calm(expiry: int)
      reads this`cursor, this`clock
    {
      Still() && clock < expiry && forall n | n >= cursor :: script(n).time < expiry
    }

    /** Requests are answered in order, and the clock does not run backwards. */
    predicate Onward(c: nat, time: int)
      reads this`cursor, this`clock
    {
      cursor >= c && clock >= time
    }

    constructor (script: nat -> Answer, clock: int, history: seq<Record>, releases: map<Release, Content>)
      requires IsHistory(history)
      ensures Valid() && this.history == history && trace == [] && this.releases == releases
      ensures this.script == script && this.clock == clock && cursor == 0 && faults == 0
    {
      this.script := script;
      this.clock := clock;
      this.history := history;
      this.releases := releases;
      this.trace := [];
      this.cursor := 0;
      this.faults := 0;
    }

    method Now() returns (now: int)
      modifies this`cursor, this`clock
      ensures now == clock == Later(old(clock), script(old(cursor)).time) && clock >= old(clock)
      ensures cursor == old(cursor) + 1
      ensures old(Still()) ==> Still()
      ensures forall x | old(Calm(x)) :: Calm(x)
    {
      clock := Later(clock, script(cursor).time);
      now := clock;
      cursor := cursor + 1;
    }

    /** Reads the row. */
    method Load() returns (r: Option<Record>)
      requires Valid()
      modifies this`cursor, this`history, this`faults
      ensures Valid() && old(history) <= history && cursor == old(cursor) + 1
      ensures faults == old(faults) + if r.Some? then 0 else 1
      ensures r.Some? ==> Known(r.value) && r.value.generation == |history|
      ensures old(Still()) ==> Still() && r.Some? && history == old(history)
      ensures forall x | old(Calm(x)) :: Calm(x)
    {
      var a := script(cursor);
      cursor := cursor + 1;
      var h := Advance(history, a.foreign);
      AdvanceHistory(history, a.foreign);
      AnchoredGrows(trace, history, h);
      history := h;
      LastKnown(history);
      if a.fate.Refused? {
        faults := faults + 1;
        return None;
      }
      r := Some(history[|history| - 1]);
    }

    /** A generation-checked write: `_update_cluster_operation`. */
    method Update(record: Record, op: Op) returns (r: Option<Record>)
      requires Valid() && Known(record)
      modifies this`cursor, this`history, this`trace, this`faults
      ensures Valid() && old(history) <= history && cursor == old(cursor) + 1
      ensures faults == old(faults) + if r.Some? then 0 else 1
      ensures Commit(record, op).Err? ==> r.None?
      ensures r.Some? ==>
                && history == old(history) + [r.value] && r.value.generation == |history|
                && r.value == After(record, op)
                && ValidRecord(r.value) && Known(r.value) && ForwardGuard(record, op)
                && trace == old(trace) + [Wrote(record, op, r.value, true)]
      ensures r.None? ==>
                || trace == old(trace)
                || (|history| > record.generation
                    && trace == old(trace) + [Wrote(record, op, After(record, op), false)])
      ensures old(Still()) ==>
                && Still() && (record.generation == |old(history)| && Commit(record, op).Ok? ==> r.Some?)
                && (r.None? ==> history == old(history))
      ensures forall x | old(Calm(x)) :: Calm(x)
    {
      hide Commit, IsHistory, Anchored, Ordered, ValidRecord, After, ForwardGuard;
      var a := script(cursor);
      cursor := cursor + 1;
      var h := Advance(history, a.foreign);
      AdvanceHistory(history, a.foreign);
      AnchoredGrows(trace, history, h);
      history := h;
      if a.fate.Refused? || record.generation != |history| {
        faults := faults + 1;
        return None;
      }
      assert record == history[|history| - 1];
      match Commit(record, op)
      case Err(_) =>
        faults := faults + 1;
        return None;
      case Ok(next) =>
        StoreWrite(history, trace, op, a.fate.Applied?);
        history := history + [next];
        trace := trace + [Wrote(record, op, next, a.fate.Applied?)];
        if !a.fate.Applied? {
          faults := faults + 1;
          return None;
        }
        r := Some(next);
    }

    /** One fixed command.  An upgrade may leave its own release in any state, whatever it reports; a
        rollback that reports success restores the snapshot, and otherwise may leave anything. */
    method Run(command: Command, effect: Effect) returns (outcome: CommandOutcome)
      requires Valid()
      modifies this`cursor, this`trace, this`releases
      ensures Valid() && cursor == old(cursor) + 1
      ensures outcome == Heard(script(old(cursor))) && trace == old(trace) + [Ran(command, outcome)]
      ensures outcome.Completed? ==> -255 <= outcome.returncode <= 255
      ensures effect.NoEffect? ==> releases == old(releases)
      ensures effect.Upgrade? ==> Touches(old(releases), releases, effect.release)
      ensures effect.Restore? ==> Touches(old(releases), releases, effect.snapshot.release)
      ensures effect.Restore? && outcome == Completed(0) ==>
                effect.snapshot.release in releases && releases[effect.snapshot.release] == Restored(effect.snapshot)
      ensures forall x | old(Calm(x)) :: Calm(x)
    {
      var a := script(cursor);
      cursor := cursor + 1;
      outcome := Heard(a);
      Observed(Ran(command, outcome));
      trace := trace + [Ran(command, outcome)];
      match effect
      case NoEffect =>
      case Upgrade(release) =>
        releases := releases[release := a.content];
      case Restore(snapshot) =>
        releases := releases[snapshot.release := if outcome == Completed(0) then Restored(snapshot) else a.content];
    }

    method Spawn(id: string) returns (outcome: SpawnOutcome)
      requires Valid()
      modifies this`cursor, this`trace
      ensures Valid() && cursor == old(cursor) + 1
      ensures outcome == script(old(cursor)).spawn && trace == old(trace) + [Spawned(id, outcome)]
      ensures forall x | old(Calm(x)) :: Calm(x)
    {
      outcome := script(cursor).spawn;
      cursor := cursor + 1;
      Observed(Spawned(id, outcome));
      trace := trace + [Spawned(id, outcome)];
    }

    /** A bounded readiness wait; without time left the adapter is not asked. */
    method WaitReady(id: string) returns (outcome: Readiness)
      requires Valid()
      modifies this`cursor, this`trace
      ensures Valid() && cursor == old(cursor) + 1
      ensures outcome == if script(old(cursor)).timeLeft then script(old(cursor)).ready else ReadyTimeout
      ensures trace == old(trace) + [Awaited(id, outcome)]
      ensures forall x | old(Calm(x)) :: Calm(x)
    {
      outcome := if script(cursor).timeLeft then script(cursor).ready else ReadyTimeout;
      cursor := cursor + 1;
      Observed(Awaited(id, outcome));
      trace := trace + [Awaited(id, outcome)];
    }

    method Close(ownership: Ownership) returns (outcome: CloseOutcome)
      requires Valid()
      modifies this`cursor, this`trace
      ensures Valid() && cursor == old(cursor) + 1
      ensures outcome == script(old(cursor)).close && trace == old(trace) + [CloseTried(ownership, outcome)]
      ensures forall x | old(Calm(x)) :: Calm(x)
    {
      outcome := script(cursor).close;
      cursor := cursor + 1;
      Observed(CloseTried(ownership, outcome));
      trace := trace + [CloseTried(ownership, outcome)];
    }

    /** A bounded probe; without time left the adapter is not asked. */
    method Probe(id: string) returns (outcome: ProbeOutcome)
      requires Valid()
      modifies this`cursor, this`trace
      ensures Valid() && cursor == old(cursor) + 1
      ensures outcome == if script(old(cursor)).timeLeft then script(old(cursor)).probe else Probed(ProbeTimeout)
      ensures trace == old(trace) + [ProbeMade(id, outcome)]
      ensures forall x | old(Calm(x)) :: Calm(x)
    {
      outcome := if script(cursor).timeLeft then script(cursor).probe else Probed(ProbeTimeout);
      cursor := cursor + 1;
      Observed(ProbeMade(id, outcome));
      trace := trace + [ProbeMade(id, outcome)];
    }

    /** An event that is no write keeps the journal and the trace in step. */
    lemma Observed(e: Event)
      requires Valid() && !e.Wrote?
      ensures Anchored(trace + [e], history) && Ordered(trace + [e])
    {
      AnchoredAppend(trace, e, history);
      OrderedAppend(trace, e, history);
    }

    /** The snapshot capture, which runs read-only commands of its own. */
    method Capture() returns (snapshot: Option<Snapshot>)
      modifies this`cursor
      ensures snapshot == script(old(cursor)).captured && cursor == old(cursor) + 1
      ensures old(Still()) ==> Still()
      ensures forall x | old(Calm(x)) :: Calm(x)
    {
      snapshot := script(cursor).captured;
      cursor := cursor + 1;
    }

    /** The approval drawn from the pre-authorized envelope. */
    method Grant() returns (approval: Option<Approval>)
      modifies this`cursor
      ensures approval == script(old(cursor)).granted && cursor == old(cursor) + 1
      ensures old(Still()) ==> Still()
      ensures forall x | old(Calm(x)) :: Calm(x)
    {
      approval := script(cursor).granted;
      cursor := cursor + 1;
    }

    /** The file system and configuration checks of `_validate_launch` and `_verify_toolchain`. */
    method Inspect() returns (ok: bool)
      modifies this`cursor
      ensures ok == script(old(cursor)).inspected && cursor == old(cursor) + 1
      ensures old(Still()) ==> Still()
      ensures forall x | old(Calm(x)) :: Calm(x)
    {
      ok := script(cursor).inspected;
      cursor := cursor + 1;
    }
  }

  /** At most the given release differs. */
  predicate Touches(before: map<Release, Content>, after: map<Release, Content>, release: Release) {
    && after.Keys == before.Keys + {release}
    && forall x | x in before && x != release :: after[x] == before[x]
  }

  lemma LastKnown(h: seq<Record>)
    requires IsHistory(h)
    ensures h != [] && h[|h| - 1].generation == |h|
  {
    HistoryBasics(h, |h| - 1);
  }

  /** Appending an accepted write keeps the journal and the trace in step. */
  lemma StoreWrite(h: seq<Record>, t: Trace, op: Op, acknowledged: bool)
    requires IsHistory(h) && Anchored(t, h) && Ordered(t)
    requires Commit(h[|h| - 1], op).Ok?
    ensures var before, after := h[|h| - 1], Commit(h[|h| - 1], op).value;
            && IsHistory(h + [after])
            && ValidRecord(after)
            && after == After(before, op)
            && ForwardGuard(before, op)
            && after.generation == |h| + 1
            && Anchored(t + [Wrote(before, op, after, acknowledged)], h + [after])
            && Ordered(t + [Wrote(before, op, after, acknowledged)])
  {
    hide IsHistory, Commit, ValidRecord;
    assert h != [] && h[|h| - 1].generation == |h| by { LastKnown(h); }
    var before, after := h[|h| - 1], Commit(h[|h| - 1], op).value;
    HistoryExtend(h, op);
    CommitStores(before, op);
    AcceptedForwards(before, op);
    CommitValid(before, op);
    AnchoredGrows(t, h, h + [after]);
    AnchoredAppend(t, Wrote(before, op, after, acknowledged), h + [after]);
    OrderedAppend(t, Wrote(before, op, after, acknowledged), h);
  }
}
