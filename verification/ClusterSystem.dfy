/** Any number of executions of one operation over one journal row: competing runners, crashes and
    restarts, and every other writer of the row.

    An execution is its trace so far.  A crash is an execution that takes no further step, a restart
    is a new one.  A step of an execution is any event that `May` allows.  The second half connects
    this to the executions of `ClusterOperationRunner` and its coordinator: whatever worlds they ran
    in, as long as these share one journal, what they did together is a run of the system.
 */
module ClusterSystem {
  import opened Common
  import opened ClusterLifecycle
  import opened ClusterHistory
  import opened ClusterProgress
  import opened ClusterTrace
  import opened ClusterWorld

  datatype System = System(history: seq<Record>, agents: seq<Trace>)

  datatype Step =
    | Joins
    /** A write of the row by anyone else. */
    | Outside(op: Op)
    | Acts(agent: nat, event: Event)

  ghost predicate Initial(s: System) {
    IsHistory(s.history) && |s.history| == 1 && s.agents == []
  }

  /** A write goes through only on top of the newest version: the generation check of the store. */
  predicate Stores(history: seq<Record>, before: Record, op: Op, after: Record, history': seq<Record>) {
    && history != [] && before == history[|history| - 1]
    && Commit(before, op) == Ok(after)
    && history' == history + [after]
  }

  ghost predicate Next(s: System, step: Step, s': System) {
    match step
    case Joins => s' == s.(agents := s.agents + [[]])
    case Outside(op) =>
      && s'.agents == s.agents && s'.history != []
      && s.history != [] && Stores(s.history, s.history[|s.history| - 1], op, s'.history[|s'.history| - 1], s'.history)
    case Acts(i, e) =>
      && i < |s.agents| && May(s.agents[i], e)
      && s'.agents == s.agents[i := s.agents[i] + [e]]
      && (if e.Wrote? then Stores(s.history, e.before, e.op, e.after, s'.history) else s'.history == s.history)
  }

  ghost predicate Run(states: seq<System>, steps: seq<Step>) {
    && |states| == |steps| + 1
    && Initial(states[0])
    && forall i | 0 <= i < |steps| :: Next(states[i], steps[i], states[i + 1])
  }

  // ---------------------------------------------------------------------------------------------
  // What every reachable state keeps

  predicate WritesAt(agents: seq<Trace>, i: nat, a: nat, generation: nat) {
    && i < |agents| && a < |agents[i]| && agents[i][a].Wrote?
    && agents[i][a].before.generation == generation
  }

  /** No version of the row was written by two events. */
  ghost predicate Exclusive(agents: seq<Trace>) {
    forall i: nat, a: nat, j: nat, b: nat, g: nat | WritesAt(agents, i, a, g) && WritesAt(agents, j, b, g) ::
      i == j && a == b
  }

  ghost predicate Joint(s: System) {
    && IsHistory(s.history)
    && (forall i | 0 <= i < |s.agents| :: Disciplined(s.agents[i]) && Anchored(s.agents[i], s.history))
    && Exclusive(s.agents)
  }

  lemma Begins(s: System)
    requires Initial(s)
    ensures Joint(s)
  {
  }

  /** Everything written before has an older generation. */
  lemma OlderWrites(s: System, i: nat, a: nat, g: nat)
    requires Joint(s) && WritesAt(s.agents, i, a, g)
    ensures g < |s.history|
  {
    hide IsHistory, Disciplined, Commit, Exclusive;
    assert s.agents[i][a] in s.agents[i];
  }

  lemma StoreExtends(h: seq<Record>, before: Record, op: Op, after: Record, h': seq<Record>)
    requires IsHistory(h) && Stores(h, before, op, after, h')
    ensures IsHistory(h') && h <= h' && before.generation == |h| && after.generation == |h| + 1
  {
    HistoryExtend(h, op);
    HistoryBasics(h, |h| - 1);
    HistoryBasics(h', |h|);
    hide Commit, IsHistory;
  }

  lemma WriteKeeps(s: System, before: Record, op: Op, after: Record, s': System)
    requires Joint(s) && Stores(s.history, before, op, after, s'.history)
    ensures IsHistory(s'.history) && s.history <= s'.history
    ensures before.generation == |s.history| && after.generation == |s.history| + 1
    ensures forall i | 0 <= i < |s.agents| :: Disciplined(s.agents[i]) && Anchored(s.agents[i], s'.history)
  {
    hide IsHistory, Disciplined, Commit, Exclusive, Anchored;
    StoreExtends(s.history, before, op, after, s'.history);
    forall i | 0 <= i < |s.agents|
      ensures Anchored(s.agents[i], s'.history)
    {
      AnchoredGrows(s.agents[i], s.history, s'.history);
    }
  }

  lemma ActKeepsExclusive(s: System, i: nat, e: Event)
    requires Joint(s) && i < |s.agents|
    requires e.Wrote? ==> e.before.generation == |s.history|
    ensures Exclusive(s.agents[i := s.agents[i] + [e]])
  {
    hide IsHistory, Disciplined, Anchored;
    var agents' := s.agents[i := s.agents[i] + [e]];
    forall j: nat, a: nat, k: nat, b: nat, g: nat | WritesAt(agents', j, a, g) && WritesAt(agents', k, b, g)
      ensures j == k && a == b
    {
      OldOrNew(s, i, e, j, a, g);
      OldOrNew(s, i, e, k, b, g);
    }
  }

  lemma OldOrNew(s: System, i: nat, e: Event, j: nat, a: nat, g: nat)
    requires Joint(s) && i < |s.agents|
    requires e.Wrote? ==> e.before.generation == |s.history|
    requires WritesAt(s.agents[i := s.agents[i] + [e]], j, a, g)
    ensures if g == |s.history| then j == i && a == |s.agents[i]| else WritesAt(s.agents, j, a, g)
  {
    hide IsHistory, Disciplined, Anchored, Exclusive;
    if WritesAt(s.agents, j, a, g) {
      OlderWrites(s, j, a, g);
    }
  }

  lemma Keeps(s: System, step: Step, s': System)
    requires Joint(s) && Next(s, step, s')
    ensures Joint(s')
  {
    hide IsHistory, Commit, Disciplined, Anchored, May;
    match step {
      case Joins =>
        NewAgent(s);
      case Outside(op) =>
        WriteKeeps(s, s.history[|s.history| - 1], op, s'.history[|s'.history| - 1], s');
      case Acts(i, e) =>
        ActKeeps(s, i, e, s');
    }
  }

  lemma NewAgent(s: System)
    requires Joint(s)
    ensures Joint(s.(agents := s.agents + [[]]))
  {
    hide IsHistory;
    var agents' := s.agents + [[]];
    forall i: nat, a: nat, j: nat, b: nat, g: nat | WritesAt(agents', i, a, g) && WritesAt(agents', j, b, g)
      ensures i == j && a == b
    {
      assert WritesAt(s.agents, i, a, g) && WritesAt(s.agents, j, b, g);
    }
  }

  lemma ActKeeps(s: System, i: nat, e: Event, s': System)
    requires Joint(s) && Next(s, Acts(i, e), s')
    ensures Joint(s')
  {
    hide IsHistory, Commit, Disciplined, Exclusive, Anchored, May, Stores, AnchoredWrite;
    AppendEvent(s.agents[i], e);
    assert May(s.agents[i], e);
    if e.Wrote? {
      WriteKeeps(s, e.before, e.op, e.after, s');
      NewWriteAnchored(s.history, e, s'.history);
    }
    AnchoredAppend(s.agents[i], e, s'.history);
    ActKeepsExclusive(s, i, e);
  }

  lemma NewWriteAnchored(h: seq<Record>, e: Event, h': seq<Record>)
    requires e.Wrote? && Stores(h, e.before, e.op, e.after, h') && e.before.generation == |h|
    requires e.after.generation == |h| + 1
    ensures AnchoredWrite(e, h')
  {
    hide Commit;
  }

  lemma {:induction false} Reachable(states: seq<System>, steps: seq<Step>, n: nat)
    requires Run(states, steps) && n < |states|
    ensures Joint(states[n])
  {
    hide Joint, Next;
    if n == 0 {
      Begins(states[0]);
    } else {
      Reachable(states, steps, n - 1);
      assert Next(states[n - 1], steps[n - 1], states[n]);
      Keeps(states[n - 1], steps[n - 1], states[n]);
    }
  }

  // ---------------------------------------------------------------------------------------------
  // At most once

  /** Execution `i` issued command `id` as its `a`-th event. */
  predicate IssuesAt(agents: seq<Trace>, i: nat, a: nat, id: CommandId) {
    && i < |agents| && a < |agents[i]| && agents[i][a].Ran?
    && agents[i][a].command.id == id && !agents[i][a].command.kind.ServerDryRun?
  }

  predicate SpawnsAt(agents: seq<Trace>, i: nat, a: nat, id: string) {
    i < |agents| && a < |agents[i]| && agents[i][a].Spawned? && agents[i][a].id == id
  }

  /** The mutation boundary was durable before the command was issued. */
  lemma OpenedBefore(s: System, i: nat, a: nat, id: CommandId) returns (b: nat)
    requires Joint(s) && IssuesAt(s.agents, i, a, id)
    ensures b < a && IsOpening(s.agents[i][b]) && AnchoredWrite(s.agents[i][b], s.history)
  {
    hide IsHistory, Commit, Disciplined, Exclusive, AnchoredWrite;
    b := GuardedCommand(s.agents[i], a);
    assert s.agents[i][b] in s.agents[i];
  }

  /** Two opening writes of one row are the same event of the same execution. */
  lemma OneOpener(s: System, i: nat, a: nat, j: nat, b: nat)
    requires Joint(s) && i < |s.agents| && j < |s.agents| && a < |s.agents[i]| && b < |s.agents[j]|
    requires IsOpening(s.agents[i][a]) && IsOpening(s.agents[j][b])
    requires AnchoredWrite(s.agents[i][a], s.history) && AnchoredWrite(s.agents[j][b], s.history)
    ensures i == j && a == b
  {
    hide IsHistory, Commit, Disciplined;
    var e, f := s.agents[i][a], s.agents[j][b];
    MutationOpensOnce(s.history, e.before.generation, f.before.generation);
    assert WritesAt(s.agents, i, a, e.before.generation);
    assert WritesAt(s.agents, j, b, f.before.generation);
  }

  /** In a joint state every mutation, readiness probe and rollback was issued at most once. */
  lemma IssuedOnce(s: System, i: nat, a: nat, j: nat, b: nat, id: CommandId)
    requires Joint(s) && IssuesAt(s.agents, i, a, id) && IssuesAt(s.agents, j, b, id)
    ensures i == j && a == b
  {
    hide Joint, IsOpening, AnchoredWrite, Disciplined;
    var a0 := OpenedBefore(s, i, a, id);
    var b0 := OpenedBefore(s, j, b, id);
    OneOpener(s, i, a0, j, b0);
    AgentDisciplined(s, i);
    if a <= b {
      CommandOnce(s.agents[i], a, b);
    } else {
      CommandOnce(s.agents[i], b, a);
    }
  }

  lemma AgentDisciplined(s: System, i: nat)
    requires Joint(s) && i < |s.agents|
    ensures Disciplined(s.agents[i])
  {
  }

  lemma IssuedByOneExecution(s: System, i: nat, a: nat, id: CommandId)
    requires Joint(s) && IssuesAt(s.agents, i, a, id)
    ensures exists b :: 0 <= b < a && IsOpening(s.agents[i][b]) && AnchoredWrite(s.agents[i][b], s.history)
    ensures forall j: nat, c: nat, other: CommandId :: IssuesAt(s.agents, j, c, other) ==> j == i
  {
    hide Joint, IsOpening, AnchoredWrite, IssuesAt;
    var b := OpenedBefore(s, i, a, id);
    forall j: nat, c: nat, other: CommandId | IssuesAt(s.agents, j, c, other)
      ensures j == i
    {
      var b' := OpenedBefore(s, j, c, other);
      InRange(s.agents, j, c, other);
      InRange(s.agents, i, a, id);
      OneOpener(s, i, b, j, b');
    }
  }

  lemma InRange(agents: seq<Trace>, i: nat, a: nat, id: CommandId)
    requires IssuesAt(agents, i, a, id)
    ensures i < |agents| && a < |agents[i]|
  {
  }

  /** An acknowledged intent is the one write that declares its forward. */
  lemma IntentDeclares(s: System, i: nat, a: nat, id: string)
    requires Joint(s) && i < |s.agents| && a < |s.agents[i]| && IsIntent(s.agents[i][a], id)
    ensures AnchoredWrite(s.agents[i][a], s.history)
    ensures Declares(s.agents[i][a].before, s.agents[i][a].after, id)
  {
    hide IsHistory, Disciplined, Exclusive, Commit, Find;
    var e := s.agents[i][a];
    assert e in s.agents[i];
    AcceptedForwards(e.before, e.op);
    FindAppend(e.before.forwards, e.op.ownership, id);
    HasMeansOwned(e.before.forwards, id);
  }

  lemma HasMeansOwned(s: seq<Ownership>, id: string)
    ensures Has(s, id) ==> HasOwnership(s, id)
  {
    if Has(s, id) {
      assert At(s, id) in s;
    }
  }

  lemma SpawnedOnce(s: System, i: nat, a: nat, j: nat, b: nat, id: string)
    requires Joint(s) && SpawnsAt(s.agents, i, a, id) && SpawnsAt(s.agents, j, b, id)
    ensures i == j && a == b
    ensures a > 0 && IsIntent(s.agents[i][a - 1], id) && AnchoredWrite(s.agents[i][a - 1], s.history)
  {
    hide IsHistory, Disciplined, Exclusive, Commit, AnchoredWrite, IsIntent, Declares, Anchored;
    GuardedSpawn(s.agents[i], a);
    GuardedSpawn(s.agents[j], b);
    IntentDeclares(s, i, a - 1, id);
    IntentDeclares(s, j, b - 1, id);
    SameIntent(s, i, a - 1, j, b - 1, id);
  }

  lemma SameIntent(s: System, i: nat, a: nat, j: nat, b: nat, id: string)
    requires Joint(s) && i < |s.agents| && j < |s.agents| && a < |s.agents[i]| && b < |s.agents[j]|
    requires IsIntent(s.agents[i][a], id) && IsIntent(s.agents[j][b], id)
    requires AnchoredWrite(s.agents[i][a], s.history) && AnchoredWrite(s.agents[j][b], s.history)
    requires Declares(s.agents[i][a].before, s.agents[i][a].after, id)
    requires Declares(s.agents[j][b].before, s.agents[j][b].after, id)
    ensures i == j && a == b
  {
    hide IsHistory, Commit, Disciplined, Declares;
    var e, f := s.agents[i][a], s.agents[j][b];
    IntentOnce(s.history, e.before.generation, f.before.generation, id);
    assert WritesAt(s.agents, i, a, e.before.generation);
    assert WritesAt(s.agents, j, b, f.before.generation);
  }

  /** A command or spawn of any kind. */
  predicate EffectAt(agents: seq<Trace>, i: nat, a: nat) {
    i < |agents| && a < |agents[i]| && (agents[i][a].Ran? || agents[i][a].Spawned?)
  }

  lemma SameAttachment(s: System, i: nat, a: nat, j: nat, b: nat)
    requires Joint(s) && i < |s.agents| && j < |s.agents| && a < |s.agents[i]| && b < |s.agents[j]|
    requires IsAttach(s.agents[i][a]) && IsAttach(s.agents[j][b])
    ensures i == j
  {
    hide IsHistory, Commit, Disciplined;
    var e, f := s.agents[i][a], s.agents[j][b];
    assert e in s.agents[i] && f in s.agents[j];
    SnapshotWrite(e.before, e.op.snapshot, e.op.now);
    SnapshotWrite(f.before, f.op.snapshot, f.op.now);
    SnapshotAttachesOnce(s.history, e.before.generation, f.before.generation);
    assert WritesAt(s.agents, i, a, e.before.generation);
    assert WritesAt(s.agents, j, b, f.before.generation);
  }

  lemma AttachmentBefore(s: System, i: nat, a: nat) returns (k: nat)
    requires EffectAt(s.agents, i, a) && Coordinated(s.agents[i])
    ensures k < a && IsAttach(s.agents[i][k])
  {
    var e :| e in s.agents[i][..a] && IsAttach(e);
    k :| 0 <= k < a && s.agents[i][..a][k] == e;
  }

  lemma OneAttached(s: System, i: nat, a: nat, j: nat, b: nat)
    requires Joint(s) && EffectAt(s.agents, i, a) && EffectAt(s.agents, j, b)
    requires Coordinated(s.agents[i]) && Coordinated(s.agents[j])
    ensures i == j
    ensures (s.agents[i][a].Ran? && s.agents[j][b].Ran? &&
             s.agents[i][a].command.id == s.agents[j][b].command.id) ==> a == b
  {
    hide Joint, Coordinated, IsAttach, Disciplined;
    var k := AttachmentBefore(s, i, a);
    var l := AttachmentBefore(s, j, b);
    SameAttachment(s, i, k, j, l);
    AgentDisciplined(s, i);
    if s.agents[i][a].Ran? && s.agents[j][b].Ran? && s.agents[i][a].command.id == s.agents[j][b].command.id {
      if a <= b {
        CommandOnce(s.agents[i], a, b);
      } else {
        CommandOnce(s.agents[i], b, a);
      }
    }
  }

  // ---------------------------------------------------------------------------------------------
  // From executions to runs of the system

  /** One journal, who wrote each of its versions, and what the executions did.  An author beyond the
      executions is another writer. */
  ghost predicate Together(h: seq<Record>, authors: seq<nat>, traces: seq<Trace>) {
    && IsHistory(h) && |authors| == |h|
    && forall i | 0 <= i < |traces| :: Joined(h, authors, i, traces[i])
  }

  ghost predicate Joined(h: seq<Record>, authors: seq<nat>, i: nat, t: Trace)
    requires |authors| == |h|
  {
    && Disciplined(t) && Anchored(t, h) && Ordered(t)
    && forall e | e in t && e.Wrote? :: 0 <= e.before.generation < |authors| && authors[e.before.generation] == i
  }

  function Total(traces: seq<Trace>): nat {
    if traces == [] then 0 else |traces[0]| + Total(traces[1..])
  }

  lemma {:induction false} TotalInit(traces: seq<Trace>, i: nat)
    requires i < |traces| && traces[i] != []
    ensures Total(traces[i := Init(traces[i])]) == Total(traces) - 1
  {
    if i > 0 {
      TotalInit(traces[1..], i - 1);
      assert traces[i := Init(traces[i])][1..] == traces[1..][i - 1 := Init(traces[i])];
    } else {
      assert traces[0 := Init(traces[0])][1..] == traces[1..];
    }
  }

  lemma {:induction false} TotalLast(traces: seq<Trace>)
    requires traces != [] && traces[|traces| - 1] == []
    ensures Total(traces[..|traces| - 1]) == Total(traces)
  {
    if |traces| > 1 {
      TotalLast(traces[1..]);
      assert traces[..|traces| - 1][1..] == traces[1..][..|traces| - 2];
    } else {
      assert traces[..0] == [] && traces[1..] == [];
    }
  }

  /** Appends one step to a run. */
  lemma OneMore(states: seq<System>, steps: seq<Step>, step: Step, s: System)
    requires Run(states, steps) && Next(states[|states| - 1], step, s)
    ensures Run(states + [s], steps + [step])
  {
    hide Next, Initial;
    var states', steps' := states + [s], steps + [step];
    forall i | 0 <= i < |steps'|
      ensures Next(states'[i], steps'[i], states'[i + 1])
    {
      if i < |steps| {
        assert states'[i] == states[i] && states'[i + 1] == states[i + 1];
      }
    }
  }

  /** The last event of an execution taken back, when it is not a write. */
  lemma EffectBack(h: seq<Record>, authors: seq<nat>, traces: seq<Trace>, i: nat)
    requires Together(h, authors, traces) && i < |traces| && traces[i] != [] && !Last(traces[i]).Wrote?
    ensures Together(h, authors, traces[i := Init(traces[i])])
    ensures Next(System(h, traces[i := Init(traces[i])]), Acts(i, Last(traces[i])), System(h, traces))
  {
    hide IsHistory, May;
    var t, e := Init(traces[i]), Last(traces[i]);
    assert traces[i] == t + [e];
    assert traces[i := t][i := t + [e]] == traces;
  }

  /** The newest version taken back together with the event that wrote it. */
  lemma WriteBack(h: seq<Record>, authors: seq<nat>, traces: seq<Trace>, i: nat)
    requires Together(h, authors, traces) && i < |traces| && traces[i] != []
    requires Last(traces[i]).Wrote? && Last(traces[i]).after.generation == |h|
    ensures |h| > 1 && Together(h[..|h| - 1], authors[..|h| - 1], traces[i := Init(traces[i])])
    ensures Next(System(h[..|h| - 1], traces[i := Init(traces[i])]), Acts(i, Last(traces[i])), System(h, traces))
  {
    hide IsHistory, May, Disciplined, Commit, Joined;
    assert Joined(h, authors, i, traces[i]);
    InitJoined(h, authors, i, traces[i]);
    var t, e, traces' := Init(traces[i]), Last(traces[i]), traces[i := Init(traces[i])];
    var h', authors' := h[..|h| - 1], authors[..|h| - 1];
    HistoryShrinks(h);
    assert h == h' + [e.after];
    forall j | 0 <= j < |traces'|
      ensures Joined(h', authors', j, traces'[j])
    {
      assert Joined(h, authors, j, traces[j]);
      if j != i {
        OtherJoined(h, authors, j, traces[j]);
      }
    }
    assert traces'[i := t + [e]] == traces;
  }

  /** The execution that wrote the newest version, without this write. */
  lemma InitJoined(h: seq<Record>, authors: seq<nat>, i: nat, t: Trace)
    requires |authors| == |h| && Joined(h, authors, i, t) && t != []
    requires Last(t).Wrote? && Last(t).after.generation == |h|
    ensures |h| > 1 && Joined(h[..|h| - 1], authors[..|h| - 1], i, Init(t))
    ensures May(Init(t), Last(t)) && authors[|h| - 1] == i && t == Init(t) + [Last(t)]
    ensures Last(t).before == h[|h| - 2] && Last(t).after == h[|h| - 1]
    ensures Commit(Last(t).before, Last(t).op) == Ok(Last(t).after)
  {
    hide May, Commit;
    assert Last(t) in t && AnchoredWrite(Last(t), h);
    forall e | e in Init(t) && e.Wrote?
      ensures e in t && e.before.generation < |h| - 1 && AnchoredWrite(e, h[..|h| - 1])
    {
      assert AnchoredWrite(e, h);
      var a :| 0 <= a < |Init(t)| && Init(t)[a] == e;
      assert t[a] == e;
    }
  }

  /** Any other execution does not notice. */
  lemma OtherJoined(h: seq<Record>, authors: seq<nat>, j: nat, t: Trace)
    requires |authors| == |h| > 1 && Joined(h, authors, j, t) && authors[|h| - 1] != j
    ensures Joined(h[..|h| - 1], authors[..|h| - 1], j, t)
  {
    hide Disciplined, Commit;
    forall e | e in t && e.Wrote?
      ensures e.before.generation < |h| - 1 && AnchoredWrite(e, h[..|h| - 1])
    {
      assert AnchoredWrite(e, h) && authors[e.before.generation] == j;
    }
  }

  lemma HistoryShrinks(h: seq<Record>)
    requires IsHistory(h) && |h| > 1
    ensures IsHistory(h[..|h| - 1]) && Written(h[|h| - 2], h[|h| - 1])
  {
    hide Written;
    var h' := h[..|h| - 1];
    forall i | 0 < i < |h'|
      ensures Written(h'[i - 1], h'[i])
    {
      assert h'[i - 1] == h[i - 1] && h'[i] == h[i];
    }
  }

  /** The newest version taken back, when nobody here wrote it. */
  lemma OutsideBack(h: seq<Record>, authors: seq<nat>, traces: seq<Trace>) returns (op: Op)
    requires Together(h, authors, traces) && |h| > 1
    requires forall i | 0 <= i < |traces| && traces[i] != [] ::
               Last(traces[i]).Wrote? && Last(traces[i]).after.generation < |h|
    ensures Together(h[..|h| - 1], authors[..|h| - 1], traces)
    ensures Next(System(h[..|h| - 1], traces), Outside(op), System(h, traces))
  {
    hide IsHistory, Disciplined, Commit, Joined;
    HistoryShrinks(h);
    op :| Commit(h[|h| - 2], op) == Ok(h[|h| - 1]);
    assert h == h[..|h| - 1] + [h[|h| - 1]];
    forall j | 0 <= j < |traces|
      ensures Joined(h[..|h| - 1], authors[..|h| - 1], j, traces[j])
    {
      assert Joined(h, authors, j, traces[j]);
      OlderJoined(h, authors, j, traces[j]);
    }
  }

  lemma OlderJoined(h: seq<Record>, authors: seq<nat>, j: nat, t: Trace)
    requires |authors| == |h| > 1 && Joined(h, authors, j, t)
    requires t != [] ==> Last(t).Wrote? && Last(t).after.generation < |h|
    ensures Joined(h[..|h| - 1], authors[..|h| - 1], j, t)
  {
    hide Disciplined, Commit;
    forall e | e in t && e.Wrote?
      ensures e.before.generation < |h| - 1 && AnchoredWrite(e, h[..|h| - 1])
    {
      assert AnchoredWrite(e, h);
      var a :| 0 <= a < |t| && t[a] == e;
      assert AnchoredWrite(Last(t), h);
      assert a < |t| - 1 ==> t[a].after.generation <= Last(t).before.generation;
    }
  }

  /** No execution has begun. */
  lemma JoinBack(h: seq<Record>, authors: seq<nat>, traces: seq<Trace>)
    requires Together(h, authors, traces) && traces != [] && traces[|traces| - 1] == []
    ensures Together(h, authors, traces[..|traces| - 1])
    ensures Next(System(h, traces[..|traces| - 1]), Joins, System(h, traces))
  {
    hide IsHistory, Joined;
    var traces' := traces[..|traces| - 1];
    assert traces == traces' + [[]];
    forall i | 0 <= i < |traces'|
      ensures Joined(h, authors, i, traces'[i])
    {
      assert Joined(h, authors, i, traces[i]);
    }
  }

  /** With one version only, nobody has written. */
  lemma NothingWritten(h: seq<Record>, authors: seq<nat>, traces: seq<Trace>, i: nat)
    requires Together(h, authors, traces) && |h| == 1 && i < |traces| && traces[i] != []
    ensures !Last(traces[i]).Wrote?
  {
    hide IsHistory, Disciplined, Commit;
    assert Joined(h, authors, i, traces[i]);
    assert Last(traces[i]) in traces[i];
  }

  /** What executions over one journal did together is a run of the system: their events can be put in
      one order in which each of them is a step. */
  lemma {:induction false} ExecutionsAreARun(h: seq<Record>, authors: seq<nat>, traces: seq<Trace>)
    returns (states: seq<System>, steps: seq<Step>)
    requires Together(h, authors, traces)
    ensures Run(states, steps) && states[|states| - 1] == System(h, traces)
    decreases Total(traces) + |h| + |traces|
  {
    hide IsHistory, Joined, Next, Together;
    assert |authors| == |h| && h != [] by { TogetherMeans(h, authors, traces); }
    var step;
    if i: nat :| i < |traces| && traces[i] != [] && !Last(traces[i]).Wrote? {
      EffectBack(h, authors, traces, i);
      TotalInit(traces, i);
      states, steps := ExecutionsAreARun(h, authors, traces[i := Init(traces[i])]);
      step := Acts(i, Last(traces[i]));
    } else if i: nat :| i < |traces| && traces[i] != [] && Last(traces[i]).Wrote? &&
                        Last(traces[i]).after.generation == |h| {
      WriteBack(h, authors, traces, i);
      TotalInit(traces, i);
      states, steps := ExecutionsAreARun(h[..|h| - 1], authors[..|h| - 1], traces[i := Init(traces[i])]);
      step := Acts(i, Last(traces[i]));
    } else if |h| > 1 {
      NewestIsOlder(h, authors, traces);
      var op := OutsideBack(h, authors, traces);
      states, steps := ExecutionsAreARun(h[..|h| - 1], authors[..|h| - 1], traces);
      step := Outside(op);
    } else if traces != [] {
      if traces[|traces| - 1] != [] {
        NothingWritten(h, authors, traces, |traces| - 1);
      }
      JoinBack(h, authors, traces);
      TotalLast(traces);
      states, steps := ExecutionsAreARun(h, authors, traces[..|traces| - 1]);
      step := Joins;
    } else {
      states, steps := [System(h, [])], [];
      FirstState(h, authors, traces);
      return;
    }
    OneMore(states, steps, step, System(h, traces));
    states, steps := states + [System(h, traces)], steps + [step];
  }

  lemma TogetherMeans(h: seq<Record>, authors: seq<nat>, traces: seq<Trace>)
    requires Together(h, authors, traces)
    ensures |authors| == |h| && h != [] && IsHistory(h)
  {
  }

  lemma FirstState(h: seq<Record>, authors: seq<nat>, traces: seq<Trace>)
    requires Together(h, authors, traces) && |h| == 1
    ensures Run([System(h, [])], [])
  {
  }

  /** A last write is a write of some version of the journal. */
  lemma NewestIsOlder(h: seq<Record>, authors: seq<nat>, traces: seq<Trace>)
    requires Together(h, authors, traces)
    requires forall i | 0 <= i < |traces| && traces[i] != [] ::
               Last(traces[i]).Wrote? && Last(traces[i]).after.generation != |h|
    ensures forall i | 0 <= i < |traces| && traces[i] != [] ::
              Last(traces[i]).Wrote? && Last(traces[i]).after.generation < |h|
  {
    hide IsHistory, Disciplined, Commit;
    forall i | 0 <= i < |traces| && traces[i] != []
      ensures Last(traces[i]).after.generation < |h|
    {
      assert Joined(h, authors, i, traces[i]) && Last(traces[i]) in traces[i];
      assert AnchoredWrite(Last(traces[i]), h);
    }
  }

  // ---------------------------------------------------------------------------------------------
  // The executions of the runner and the coordinator

  /** What an execution did until it ended or crashed: `trace` begins what the runner or the coordinator
      did in the world `w`, which saw the journal `h` up to its own last write. */
  ghost predicate Executed(w: World, trace: Trace, h: seq<Record>, authors: seq<nat>, i: nat)
    reads w
  {
    && w.Valid() && Disciplined(w.trace) && trace <= w.trace
    && forall e | e in trace && e.Wrote? ::
         && 1 <= e.after.generation <= |h| && e.after.generation <= |w.history|
         && w.history[..e.after.generation] <= h
         && 0 <= e.before.generation < |authors| && authors[e.before.generation] == i
  }

  /** Any number of executions over one journal, in worlds that have nothing else in common. */
  ghost predicate Executions(worlds: seq<World>, traces: seq<Trace>, h: seq<Record>, authors: seq<nat>)
    reads set w | w in worlds
  {
    && IsHistory(h) && |authors| == |h| && |traces| == |worlds|
    && forall i | 0 <= i < |worlds| :: Executed(worlds[i], traces[i], h, authors, i)
  }

  /** Whatever the runner or the coordinator left behind, cut at any point, is such an execution. */
  lemma AnyExecution(w: World, trace: Trace) returns (authors: seq<nat>)
    requires w.Valid() && Disciplined(w.trace) && trace <= w.trace
    ensures Executions([w], [trace], w.history, authors)
  {
    hide IsHistory, Commit, Disciplined;
    authors := seq(|w.history|, i => 0);
    forall e | e in trace && e.Wrote?
      ensures AnchoredWrite(e, w.history)
    {
      var a :| 0 <= a < |trace| && trace[a] == e;
      assert w.trace[a] == e;
    }
  }

  lemma ExecutedJoins(w: World, trace: Trace, h: seq<Record>, authors: seq<nat>, i: nat)
    requires Executed(w, trace, h, authors, i) && |authors| == |h|
    ensures Joined(h, authors, i, trace)
  {
    hide IsHistory, Commit, Disciplined;
    DisciplinedPrefix(w.trace, |trace|);
    assert w.trace[..|trace|] == trace;
    forall a | 0 <= a < |trace|
      ensures trace[a] == w.trace[a] && trace[a] in w.trace
    {
    }
    forall e | e in trace && e.Wrote?
      ensures AnchoredWrite(e, h)
    {
      assert AnchoredWrite(e, w.history);
      var g := e.after.generation;
      assert h[g - 1] == w.history[..g][g - 1] && h[g - 2] == w.history[..g][g - 2];
    }
  }

  /** The executions end in a joint state of the system. */
  lemma ExecutionsReachable(worlds: seq<World>, traces: seq<Trace>, h: seq<Record>, authors: seq<nat>)
    requires Executions(worlds, traces, h, authors)
    ensures Together(h, authors, traces)
    ensures Joint(System(h, traces))
  {
    hide IsHistory, Joined, Run, Joint, Executed;
    forall i | 0 <= i < |traces|
      ensures Joined(h, authors, i, traces[i])
    {
      ExecutedJoins(worlds[i], traces[i], h, authors, i);
    }
    var states, steps := ExecutionsAreARun(h, authors, traces);
    RunLength(states, steps);
    Reachable(states, steps, |states| - 1);
  }

  lemma RunLength(states: seq<System>, steps: seq<Step>)
    requires Run(states, steps)
    ensures states != []
  {
  }

  /** Over all executions: every upgrade, readiness probe and rollback is issued at most once. */
  lemma CommandAtMostOnce(worlds: seq<World>, traces: seq<Trace>, h: seq<Record>, authors: seq<nat>,
                          i: nat, a: nat, j: nat, b: nat, id: CommandId)
    requires Executions(worlds, traces, h, authors)
    requires IssuesAt(traces, i, a, id) && IssuesAt(traces, j, b, id)
    ensures i == j && a == b
  {
    hide Joint, Executions, IssuesAt;
    ExecutionsReachable(worlds, traces, h, authors);
    IssuedOnce(System(h, traces), i, a, j, b, id);
  }

  /** No command that can change the cluster is issued before MUTATION_STARTED is durable, and only
      the execution that wrote it issues any. */
  lemma MutationNeedsDurableBoundary(worlds: seq<World>, traces: seq<Trace>, h: seq<Record>, authors: seq<nat>,
                                     i: nat, a: nat, id: CommandId)
    requires Executions(worlds, traces, h, authors) && IssuesAt(traces, i, a, id)
    ensures exists b :: 0 <= b < a && IsOpening(traces[i][b]) && AnchoredWrite(traces[i][b], h)
    ensures forall j: nat, c: nat, other: CommandId :: IssuesAt(traces, j, c, other) ==> j == i
  {
    hide Joint, Executions, IsOpening, AnchoredWrite;
    ExecutionsReachable(worlds, traces, h, authors);
    IssuedByOneExecution(System(h, traces), i, a, id);
  }

  /** Over all executions: every forward is spawned at most once, and right behind its durable intent. */
  lemma SpawnAtMostOnce(worlds: seq<World>, traces: seq<Trace>, h: seq<Record>, authors: seq<nat>,
                        i: nat, a: nat, j: nat, b: nat, id: string)
    requires Executions(worlds, traces, h, authors)
    requires SpawnsAt(traces, i, a, id) && SpawnsAt(traces, j, b, id)
    ensures i == j && a == b
    ensures a > 0 && IsIntent(traces[i][a - 1], id) && AnchoredWrite(traces[i][a - 1], h)
  {
    hide Joint, Executions, IsIntent, AnchoredWrite;
    ExecutionsReachable(worlds, traces, h, authors);
    SpawnedOnce(System(h, traces), i, a, j, b, id);
  }

  /** Coordinated executions: over all of them, only one ever issues or spawns anything, so the
      dry-runs, too, are issued at most once. */
  lemma OneCoordinatedExecution(worlds: seq<World>, traces: seq<Trace>, h: seq<Record>, authors: seq<nat>,
                                i: nat, a: nat, j: nat, b: nat)
    requires Executions(worlds, traces, h, authors)
    requires EffectAt(traces, i, a) && EffectAt(traces, j, b)
    requires Coordinated(worlds[i].trace) && Coordinated(worlds[j].trace)
    ensures i == j
    ensures (traces[i][a].Ran? && traces[j][b].Ran? && traces[i][a].command.id == traces[j][b].command.id) ==> a == b
  {
    hide Joint, Coordinated, IsHistory, World.Valid, Disciplined;
    ExecutionsReachable(worlds, traces, h, authors);
    assert Executed(worlds[i], traces[i], h, authors, i) && Executed(worlds[j], traces[j], h, authors, j);
    CoordinatedPrefix(traces[i], worlds[i].trace);
    CoordinatedPrefix(traces[j], worlds[j].trace);
    OneAttached(System(h, traces), i, a, j, b);
  }

  lemma CoordinatedPrefix(t: Trace, whole: Trace)
    requires Coordinated(whole) && t <= whole
    ensures Coordinated(t)
  {
    hide Attached;
    forall a | 0 <= a < |t| && (t[a].Ran? || t[a].Spawned?)
      ensures Attached(t[..a])
    {
      assert whole[a] == t[a] && whole[..a] == t[..a];
    }
  }

  // ---------------------------------------------------------------------------------------------
  // One open forward

  predicate OneOpen(s: seq<Ownership>) {
    forall i, j | 0 <= i < j < |s| :: s[i].state.Stopped? || s[j].state.Stopped?
  }

  lemma OpenStays(r: Record, op: Op)
    requires Commit(r, op).Ok? && OneOpen(r.forwards)
    requires op.ForwardIntent? ==> AllStopped(r.forwards)
    ensures OneOpen(Commit(r, op).value.forwards)
  {
    hide Commit;
    AcceptedForwards(r, op);
    var s, t := r.forwards, Commit(r, op).value.forwards;
    forall i, j | 0 <= i < j < |t|
      ensures t[i].state.Stopped? || t[j].state.Stopped?
    {
      if op.ForwardIntent? {
        assert s[i] in s;
      } else {
        assert s[i].state.Stopped? || s[j].state.Stopped?;
        UntouchedStops(s, op, if s[i].state.Stopped? then i else j);
      }
    }
  }

  /** A write other than an intent never reopens a stopped forward. */
  lemma UntouchedStops(s: seq<Ownership>, op: Op, i: nat)
    requires !op.ForwardIntent? && i < |s| && s[i].state.Stopped?
    requires match op
             case ForwardStarted(id, _, _, _) => Has(s, id) && At(s, id).state.IntentPersisted?
             case ForwardStopped(id, _) => Has(s, id) && At(s, id).state.Started?
             case ForwardAmbiguous(id, _) => Has(s, id) && At(s, id).state.Started?
             case _ => true
    ensures |ForwardsAfter(s, op)| == |s| && ForwardsAfter(s, op)[i] == s[i]
  {
    hide Find;
  }

  ghost predicate WrittenBy(traces: seq<Trace>, k: nat) {
    exists i: nat, a: nat :: WritesAt(traces, i, a, k)
  }

  ghost predicate WrittenPlainly(before: Record, after: Record) {
    exists op: Op :: !op.ForwardIntent? && Commit(before, op) == Ok(after)
  }

  /** Other writers declare no forwards: a version was written by an execution or without an intent. */
  ghost predicate OnlyExecutionsDeclare(h: seq<Record>, traces: seq<Trace>) {
    forall k | 0 < k < |h| :: WrittenBy(traces, k) || WrittenPlainly(h[k - 1], h[k])
  }

  /** In every version of the row at most one forward is not STOPPED. */
  lemma AtMostOneOpenForward(worlds: seq<World>, traces: seq<Trace>, h: seq<Record>, authors: seq<nat>, k: nat)
    requires Executions(worlds, traces, h, authors) && OnlyExecutionsDeclare(h, traces) && k < |h|
    ensures OneOpen(h[k].forwards)
  {
    hide Executions, OneOpen, Joint, IsHistory, OnlyExecutionsDeclare, Together;
    ExecutionsReachable(worlds, traces, h, authors);
    OneOpenIn(h, traces, k);
  }

  lemma {:induction false} OneOpenIn(h: seq<Record>, traces: seq<Trace>, k: nat)
    requires Joint(System(h, traces)) && OnlyExecutionsDeclare(h, traces) && k < |h|
    ensures OneOpen(h[k].forwards)
    decreases k
  {
    hide OneOpen, Joint, Commit, OnlyExecutionsDeclare, IsHistory, AllStopped;
    if k == 0 {
      JointHistory(System(h, traces));
      FirstVersion(h);
    } else {
      OneOpenIn(h, traces, k - 1);
      var op := GuardedWrite(h, traces, k);
      OpenStays(h[k - 1], op);
    }
  }

  lemma JointHistory(s: System)
    requires Joint(s)
    ensures IsHistory(s.history)
  {
  }

  lemma FirstVersion(h: seq<Record>)
    requires IsHistory(h)
    ensures OneOpen(h[0].forwards)
  {
  }

  /** The write behind a version, which declares a forward only while all others are stopped. */
  lemma GuardedWrite(h: seq<Record>, traces: seq<Trace>, k: nat) returns (op: Op)
    requires Joint(System(h, traces)) && OnlyExecutionsDeclare(h, traces) && 0 < k < |h|
    ensures Commit(h[k - 1], op) == Ok(h[k])
    ensures op.ForwardIntent? ==> AllStopped(h[k - 1].forwards)
  {
    hide IsHistory, Commit, Exclusive, Disciplined, AllStopped;
    if WrittenBy(traces, k) {
      var i: nat, a: nat :| WritesAt(traces, i, a, k);
      var t := traces[i];
      assert Disciplined(t) && Anchored(t, h);
      assert t[a] in t && AnchoredWrite(t[a], h);
      DisciplinedStep(t, a);
      op := t[a].op;
    } else {
      assert WrittenPlainly(h[k - 1], h[k]);
      op :| !op.ForwardIntent? && Commit(h[k - 1], op) == Ok(h[k]);
    }
  }
}
