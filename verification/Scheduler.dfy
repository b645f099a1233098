/** Batch admission of src/dispatcher/scheduler.py and what it keeps over a run's dispatches. */
module Scheduler {
  import opened Common
  import opened PlanModel
  import opened Workflow
  import opened WritableScopes

  /** The keys of `resource_keys`. */
  datatype Key = RepositoryKey(id: string) | ResourceKey(id: string)

  datatype Child = Child(step: string, role: string, newSession: bool)

  datatype RoleKind = Executor | Reviewer | Other | Unknown

  datatype Config = Config(
    parallel: bool, worktreeBarrier: bool, maxBatch: nat, maxActive: nat,
    capacities: map<string, nat>, kinds: map<string, RoleKind>, committing: set<string>)

  datatype Run = Run(plan: map<string, PlanStep>, steps: map<string, StepRecord>, dispatches: seq<Dispatch>,
                     groups: set<string>)

  predicate Worker(k: RoleKind) { k in {Executor, Reviewer} }

  function Kind(config: Config, role: string): RoleKind {
    if role in config.kinds then config.kinds[role] else Unknown
  }

  /** The configuration gives exactly the worker roles a capacity. */
  predicate ValidConfig(config: Config) {
    && (forall role | role in config.capacities :: role in config.kinds && Worker(config.kinds[role]))
    && (forall role | role in config.kinds && Worker(config.kinds[role]) :: role in config.capacities)
  }

  /** Every plan step has a record, and every dispatch, dependency and producer is a plan step. */
  predicate ValidRun(run: Run) {
    && run.steps.Keys == run.plan.Keys
    && (forall d | d in run.dispatches :: d.step in run.plan)
    && (forall s, x | s in run.plan && x in run.plan[s].dependsOn + run.plan[s].producers :: x in run.plan)
  }

  function Resources(step: PlanStep): set<Key> {
    set l | l in step.locks :: ResourceKey(l.resource)
  }

  function Keys(step: PlanStep): set<Key> {
    {RepositoryKey(step.repository)} + Resources(step)
  }

  // ---------------------------------------------------------------------------------------------
  // Counting

  function CountActive(ds: seq<Dispatch>): nat {
    if ds == [] then 0 else CountActive(ds[..|ds| - 1]) + if IsActive(ds[|ds| - 1].state) then 1 else 0
  }

  function CountRole(ds: seq<Dispatch>, role: string): nat {
    if ds == [] then 0
    else CountRole(ds[..|ds| - 1], role) + if IsActive(ds[|ds| - 1].state) && ds[|ds| - 1].role == role then 1 else 0
  }

  function CountChildren(children: seq<Child>, role: string): nat {
    if children == [] then 0
    else CountChildren(children[..|children| - 1], role) + if children[|children| - 1].role == role then 1 else 0
  }

  function ActiveKeys(run: Run, n: nat): set<Key>
    requires ValidRun(run) && n <= |run.dispatches|
  {
    if n == 0 then {}
    else
      var d := run.dispatches[n - 1];
      assert d in run.dispatches;
      ActiveKeys(run, n - 1) + if IsActive(d.state) then Keys(run.plan[d.step]) else {}
  }

  /** `_active_resource_keys`. */
  method ActiveResourceKeys(run: Run) returns (keys: set<Key>)
    requires ValidRun(run)
    ensures keys == ActiveKeys(run, |run.dispatches|)
  {
    keys := {};
    for i := 0 to |run.dispatches|
      invariant keys == ActiveKeys(run, i)
    {
      var d := run.dispatches[i];
      assert d in run.dispatches;
      if IsActive(d.state) {
        keys := keys + Keys(run.plan[d.step]);
      }
    }
  }

  function Lookup(counts: map<string, nat>, role: string): nat {
    if role in counts then counts[role] else 0
  }

  /** `_active_role_counts`. */
  method ActiveRoleCounts(ds: seq<Dispatch>) returns (counts: map<string, nat>, active: nat)
    ensures active == CountActive(ds)
    ensures forall role :: Lookup(counts, role) == CountRole(ds, role)
  {
    counts, active := map[], 0;
    for i := 0 to |ds|
      invariant active == CountActive(ds[..i])
      invariant forall role :: Lookup(counts, role) == CountRole(ds[..i], role)
    {
      assert ds[..i + 1][..i] == ds[..i];
      if IsActive(ds[i].state) {
        active := active + 1;
        counts := counts[ds[i].role := Lookup(counts, ds[i].role) + 1];
      }
    }
    assert ds[..|ds|] == ds;
  }

  // ---------------------------------------------------------------------------------------------
  // Order of a batch

  function OrdinalOf(run: Run, c: Child): nat {
    if c.step in run.plan then run.plan[c.step].ordinal else 0
  }

  predicate InOrder(run: Run, s: seq<Child>) {
    forall i, j | 0 <= i < j < |s| :: OrdinalOf(run, s[i]) <= OrdinalOf(run, s[j])
  }

  /** Inserts behind everything that is not larger, so equal ordinals keep their order. */
  function Insert(run: Run, s: seq<Child>, c: Child): (r: seq<Child>)
    ensures |r| == |s| + 1
  {
    if s == [] || OrdinalOf(run, s[|s| - 1]) <= OrdinalOf(run, c) then s + [c]
    else Insert(run, s[..|s| - 1], c) + [s[|s| - 1]]
  }

  /** `sorted(children, key=ordinal)`. */
  function Sorted(run: Run, children: seq<Child>): (r: seq<Child>)
    ensures |r| == |children|
  {
    if children == [] then []
    else Insert(run, Sorted(run, children[..|children| - 1]), children[|children| - 1])
  }

  lemma {:induction false} InsertMembers(run: Run, s: seq<Child>, c: Child)
    ensures multiset(Insert(run, s, c)) == multiset(s) + multiset{c}
  {
    if s != [] && OrdinalOf(run, s[|s| - 1]) > OrdinalOf(run, c) {
      assert s == s[..|s| - 1] + [s[|s| - 1]];
      InsertMembers(run, s[..|s| - 1], c);
    }
  }

  lemma InOrderLast(run: Run, s: seq<Child>, last: Child)
    requires InOrder(run, s) && forall x | x in s :: OrdinalOf(run, x) <= OrdinalOf(run, last)
    ensures InOrder(run, s + [last])
  {
    hide OrdinalOf;
    assert forall i | 0 <= i < |s| :: s[i] in s;
  }

  lemma InOrderFront(run: Run, s: seq<Child>)
    requires InOrder(run, s) && s != []
    ensures InOrder(run, s[..|s| - 1])
    ensures forall x | x in s[..|s| - 1] :: OrdinalOf(run, x) <= OrdinalOf(run, s[|s| - 1])
  {
    hide OrdinalOf;
  }

  lemma {:induction false} InsertKeepsOrder(run: Run, s: seq<Child>, c: Child)
    requires InOrder(run, s)
    ensures InOrder(run, Insert(run, s, c))
  {
    hide OrdinalOf;
    if s == [] {
    } else if OrdinalOf(run, s[|s| - 1]) <= OrdinalOf(run, c) {
      forall x | x in s
        ensures OrdinalOf(run, x) <= OrdinalOf(run, c)
      {
        var i :| 0 <= i < |s| && s[i] == x;
      }
      InOrderLast(run, s, c);
    } else {
      var front, last := s[..|s| - 1], s[|s| - 1];
      InOrderFront(run, s);
      InsertKeepsOrder(run, front, c);
      InsertMembers(run, front, c);
      var r := Insert(run, front, c);
      forall x | x in r
        ensures OrdinalOf(run, x) <= OrdinalOf(run, last)
      {
        assert x in multiset(r);
      }
      InOrderLast(run, r, last);
    }
  }

  /** The admitted children are the given ones, in plan order. */
  lemma {:induction false} SortedIsOrdered(run: Run, children: seq<Child>)
    ensures InOrder(run, Sorted(run, children)) && multiset(Sorted(run, children)) == multiset(children)
  {
    if children != [] {
      var front, last := children[..|children| - 1], children[|children| - 1];
      assert children == front + [last];
      SortedIsOrdered(run, front);
      InsertKeepsOrder(run, Sorted(run, front), last);
      InsertMembers(run, Sorted(run, front), last);
    }
  }

  // ---------------------------------------------------------------------------------------------
  // validate_batch

  predicate DistinctSteps(children: seq<Child>) {
    forall i, j | 0 <= i < j < |children| :: children[i].step != children[j].step
  }

  function SelectedKeys(run: Run, children: seq<Child>): set<Key> {
    if children == [] then {}
    else
      var last := children[|children| - 1];
      SelectedKeys(run, children[..|children| - 1]) + if last.step in run.plan then Keys(run.plan[last.step]) else {}
  }

  /** What a child needs by itself. */
  predicate ChildFits(config: Config, run: Run, c: Child) {
    && c.step in run.plan && c.step in run.steps
    && Worker(Kind(config, c.role))
    && run.steps[c.step].state == (if Kind(config, c.role).Executor? then Ready else ReviewRequired)
    && c.newSession
  }

  /** What the k-th child needs besides: a free place for its role, and keys that nobody holds. */
  predicate ChildFree(config: Config, run: Run, children: seq<Child>, k: nat)
    requires ValidConfig(config) && ValidRun(run) && k < |children|
  {
    var c := children[k];
    && ChildFits(config, run, c)
    && CountRole(run.dispatches, c.role) + CountChildren(children[..k + 1], c.role) <= config.capacities[c.role]
    && Keys(run.plan[c.step]) !! ActiveKeys(run, |run.dispatches|) + SelectedKeys(run, children[..k])
  }

  predicate BatchFits(config: Config, run: Run, children: seq<Child>)
    requires ValidConfig(config) && ValidRun(run)
  {
    && DistinctSteps(children)
    && CountActive(run.dispatches) + |children| <= config.maxActive
    && forall k | 0 <= k < |children| :: ChildFree(config, run, children, k)
  }

  datatype BatchError =
    | DuplicateSteps
    | TooManyActive
    | UnknownStep(step: string)
    | UnknownRole(role: string)
    | NotDispatchable(role: string)
    | NotReady(step: string)
    | NeedsNewSession(step: string)
    | OverCapacity(role: string)
    | Conflict(step: string)

  datatype Admission = Admitted(ordered: seq<Child>) | TooLarge | NotParallel | Refused(errors: seq<BatchError>)

  /** `validate_batch`: the whole batch is admitted, in plan order, exactly when every child is free. */
  method ValidateBatch(config: Config, run: Run, children: seq<Child>) returns (r: Admission)
    requires ValidConfig(config) && ValidRun(run)
    ensures r.Admitted? ==> r.ordered == Sorted(run, children)
    ensures r.Admitted? <==>
              |children| <= config.maxBatch && config.parallel && BatchFits(config, run, Sorted(run, children))
  {
    if |children| > config.maxBatch {
      return TooLarge;
    }
    if !config.parallel {
      return NotParallel;
    }
    var ordered := Sorted(run, children);
    var errors: seq<BatchError> := [];
    var counts, active := ActiveRoleCounts(run.dispatches);
    if !DistinctSteps(ordered) {
      errors := errors + [DuplicateSteps];
    }
    if active + |ordered| > config.maxActive {
      errors := errors + [TooManyActive];
    }
    errors := CheckChildren(config, run, ordered, counts, errors);
    r := if errors == [] then Admitted(ordered) else Refused(errors);
  }

  method CheckChildren(config: Config, run: Run, ordered: seq<Child>, counts0: map<string, nat>,
                       errors0: seq<BatchError>)
    returns (errors: seq<BatchError>)
    requires ValidConfig(config) && ValidRun(run)
    requires forall role :: Lookup(counts0, role) == CountRole(run.dispatches, role)
    ensures errors == [] <==> errors0 == [] && forall k | 0 <= k < |ordered| :: ChildFree(config, run, ordered, k)
  {
    var counts, selected := counts0, {};
    var held := ActiveResourceKeys(run);
    errors := errors0;
    var i := 0;
    while i < |ordered|
      invariant 0 <= i <= |ordered|
      invariant errors == [] <==> errors0 == [] && forall k | 0 <= k < i :: ChildFree(config, run, ordered, k)
      invariant errors == [] ==>
                  && selected == SelectedKeys(run, ordered[..i])
                  && forall role :: Lookup(counts, role) ==
                                    CountRole(run.dispatches, role) + CountChildren(ordered[..i], role)
    {
      assert ordered[..i + 1][..i] == ordered[..i];
      SameFreedom(config, run, ordered, i, Lookup(counts, ordered[i].role), held, selected);
      var more, counts', selected' := CheckChild(config, run, ordered[i], counts, held, selected);
      errors := errors + more;
      counts, selected := counts', selected';
      i := i + 1;
    }
  }

  /** A child against the counts and keys so far. */
  predicate Free(config: Config, run: Run, c: Child, taken: nat, keys: set<Key>)
    requires ValidConfig(config) && ValidRun(run)
  {
    ChildFits(config, run, c) && taken + 1 <= config.capacities[c.role] && Keys(run.plan[c.step]) !! keys
  }

  lemma SameFreedom(config: Config, run: Run, ordered: seq<Child>, i: nat, taken: nat, held: set<Key>,
                    selected: set<Key>)
    requires ValidConfig(config) && ValidRun(run) && i < |ordered|
    ensures taken == CountRole(run.dispatches, ordered[i].role) + CountChildren(ordered[..i], ordered[i].role) &&
            held == ActiveKeys(run, |run.dispatches|) && selected == SelectedKeys(run, ordered[..i]) ==>
              (Free(config, run, ordered[i], taken, held + selected) <==> ChildFree(config, run, ordered, i))
  {
    hide Keys, ActiveKeys, SelectedKeys, CountRole;
    assert ordered[..i + 1][..i] == ordered[..i];
  }

  /** One turn of the loop: the errors of this child, and the counts and keys with it. */
  method CheckChild(config: Config, run: Run, c: Child, counts0: map<string, nat>, held: set<Key>, selected0: set<Key>)
    returns (errors: seq<BatchError>, counts: map<string, nat>, selected: set<Key>)
    requires ValidConfig(config) && ValidRun(run)
    ensures errors == [] <==> Free(config, run, c, Lookup(counts0, c.role), held + selected0)
    ensures errors == [] ==>
              && counts == counts0[c.role := Lookup(counts0, c.role) + 1]
              && selected == selected0 + Keys(run.plan[c.step])
  {
    hide Keys;
    errors, counts, selected := [], counts0, selected0;
    if c.step !in run.plan {
      errors := [UnknownStep(c.step)];
      return;
    }
    var kind := Kind(config, c.role);
    if kind.Unknown? {
      errors := [UnknownRole(c.role)];
      return;
    }
    if !Worker(kind) {
      errors := [NotDispatchable(c.role)];
      return;
    }
    if run.steps[c.step].state != (if kind.Executor? then Ready else ReviewRequired) {
      errors := errors + [NotReady(c.step)];
    }
    if !c.newSession {
      errors := errors + [NeedsNewSession(c.step)];
    }
    counts := counts[c.role := Lookup(counts, c.role) + 1];
    if counts[c.role] > config.capacities[c.role] {
      errors := errors + [OverCapacity(c.role)];
    }
    var keys := Keys(run.plan[c.step]);
    if !(keys !! held + selected) {
      errors := errors + [Conflict(c.step)];
    }
    selected := selected + keys;
  }

  // ---------------------------------------------------------------------------------------------
  // Runs

  /** What holds between the dispatches of a run. */
  ghost predicate Bounded(config: Config, plan: map<string, PlanStep>, ds: seq<Dispatch>) {
    && (forall d | d in ds :: d.step in plan)
    && (forall i, j | 0 <= i < j < |ds| && IsActive(ds[i].state) && IsActive(ds[j].state) ::
          Keys(plan[ds[i].step]) !! Keys(plan[ds[j].step]))
    && (forall role | role in config.capacities :: CountRole(ds, role) <= config.capacities[role])
    && CountActive(ds) <= config.maxActive
  }

  /** The dispatches that an admitted batch adds. */
  function Prepare(children: seq<Child>): seq<Dispatch> {
    seq(|children|, i requires 0 <= i < |children| => Dispatch(children[i].step, children[i].role, Prepared))
  }

  datatype Move = Batch(children: seq<Child>) | Transition(dispatch: nat, target: DispatchState)

  /** One change of the dispatches.  Step records change freely in between. */
  ghost predicate Changes(config: Config, plan: map<string, PlanStep>, ds: seq<Dispatch>, move: Move,
                          ds': seq<Dispatch>)
  {
    match move
    case Batch(children) =>
      ds' == ds + Prepare(children) && exists run :: MayAdmit(config, plan, ds, run, children)
    case Transition(i, target) =>
      i < |ds| && target in DispatchTransitions(ds[i].state) && ds' == ds[i := ds[i].(state := target)]
  }

  ghost predicate MayAdmit(config: Config, plan: map<string, PlanStep>, ds: seq<Dispatch>, run: Run,
                           children: seq<Child>)
  {
    ValidConfig(config) && ValidRun(run) && run.plan == plan && run.dispatches == ds && BatchFits(config, run, children)
  }

  ghost predicate Schedule(config: Config, plan: map<string, PlanStep>, states: seq<seq<Dispatch>>, moves: seq<Move>) {
    && |states| == |moves| + 1 && states[0] == []
    && forall i | 0 <= i < |moves| :: Changes(config, plan, states[i], moves[i], states[i + 1])
  }

  lemma {:induction false} CountUpdate(ds: seq<Dispatch>, i: nat, d: Dispatch, role: string)
    requires i < |ds| && d.role == ds[i].role && (IsActive(d.state) ==> IsActive(ds[i].state))
    ensures CountRole(ds[i := d], role) <= CountRole(ds, role)
    ensures CountActive(ds[i := d]) <= CountActive(ds)
    decreases |ds|
  {
    var ds' := ds[i := d];
    if i == |ds| - 1 {
      assert ds'[..|ds| - 1] == ds[..|ds| - 1];
    } else {
      CountUpdate(ds[..|ds| - 1], i, d, role);
      assert ds'[..|ds| - 1] == ds[..|ds| - 1][i := d];
    }
  }

  lemma TransitionKeeps(config: Config, plan: map<string, PlanStep>, ds: seq<Dispatch>, i: nat, target: DispatchState)
    requires Bounded(config, plan, ds)
    requires i < |ds| && target in DispatchTransitions(ds[i].state)
    ensures Bounded(config, plan, ds[i := ds[i].(state := target)])
  {
    hide Keys, DispatchTransitions;
    var d := ds[i].(state := target);
    var ds' := ds[i := d];
    InactiveIsFinal(ds[i].state);
    forall x | x in ds'
      ensures x.step in plan
    {
      var k :| 0 <= k < |ds'| && ds'[k] == x;
      assert ds[k] in ds;
    }
    forall role | role in config.capacities
      ensures CountRole(ds', role) <= config.capacities[role]
    {
      CountUpdate(ds, i, d, role);
    }
    CountUpdate(ds, i, d, "");
  }

  lemma {:induction false} CountPrepared(ds: seq<Dispatch>, children: seq<Child>, role: string)
    ensures CountRole(ds + Prepare(children), role) == CountRole(ds, role) + CountChildren(children, role)
    ensures CountActive(ds + Prepare(children)) == CountActive(ds) + |children|
    decreases |children|
  {
    var t := ds + Prepare(children);
    if children == [] {
      assert t == ds;
    } else {
      var front := children[..|children| - 1];
      CountPrepared(ds, front, role);
      PreparedLast(ds, children);
    }
  }

  lemma PreparedLast(ds: seq<Dispatch>, children: seq<Child>)
    requires children != []
    ensures var t := ds + Prepare(children);
            && t[..|t| - 1] == ds + Prepare(children[..|children| - 1])
            && t[|t| - 1].role == children[|children| - 1].role && t[|t| - 1].state == Prepared
  {
  }

  /** Every role of an admitted batch stays within its capacity. */
  lemma {:induction false} WithinCapacity(config: Config, run: Run, children: seq<Child>, n: nat, role: string)
    requires ValidConfig(config) && ValidRun(run) && role in config.capacities
    requires CountRole(run.dispatches, role) <= config.capacities[role]
    requires n <= |children| && forall k | 0 <= k < n :: ChildFree(config, run, children, k)
    ensures CountRole(run.dispatches, role) + CountChildren(children[..n], role) <= config.capacities[role]
  {
    hide ChildFits, Keys, ActiveKeys, SelectedKeys;
    if n > 0 {
      WithinCapacity(config, run, children, n - 1, role);
      assert ChildFree(config, run, children, n - 1);
      assert children[..n][..n - 1] == children[..n - 1];
    }
  }

  lemma {:induction false} HeldKeys(run: Run, n: nat, i: nat)
    requires ValidRun(run) && i < n <= |run.dispatches| && IsActive(run.dispatches[i].state)
    ensures run.dispatches[i].step in run.plan
    ensures Keys(run.plan[run.dispatches[i].step]) <= ActiveKeys(run, n)
  {
    hide Keys;
    if i < n - 1 {
      HeldKeys(run, n - 1, i);
    } else {
      assert run.dispatches[i] in run.dispatches;
    }
  }

  lemma {:induction false} ChosenKeys(run: Run, children: seq<Child>, n: nat, i: nat)
    requires i < n <= |children| && children[i].step in run.plan
    ensures Keys(run.plan[children[i].step]) <= SelectedKeys(run, children[..n])
  {
    hide Keys;
    assert children[..n][..n - 1] == children[..n - 1];
    if i < n - 1 {
      ChosenKeys(run, children, n - 1, i);
    }
  }

  lemma BatchDisjoint(config: Config, run: Run, children: seq<Child>, i: nat, j: nat)
    requires ValidConfig(config) && ValidRun(run) && BatchFits(config, run, children)
    requires Bounded(config, run.plan, run.dispatches)
    requires i < j < |run.dispatches| + |children|
    requires var t := run.dispatches + Prepare(children); IsActive(t[i].state) && IsActive(t[j].state)
    ensures var t := run.dispatches + Prepare(children);
            t[i].step in run.plan && t[j].step in run.plan && Keys(run.plan[t[i].step]) !! Keys(run.plan[t[j].step])
  {
    hide Keys, ActiveKeys, SelectedKeys, CountRole, CountActive, CountChildren;
    var n := |run.dispatches|;
    if j < n {
      assert run.dispatches[i] in run.dispatches && run.dispatches[j] in run.dispatches;
    } else {
      assert ChildFree(config, run, children, j - n);
      if i < n {
        HeldKeys(run, n, i);
      } else {
        assert ChildFree(config, run, children, i - n);
        ChosenKeys(run, children, j - n, i - n);
      }
    }
  }

  lemma BatchKeeps(config: Config, run: Run, children: seq<Child>)
    requires ValidConfig(config) && ValidRun(run) && BatchFits(config, run, children)
    requires Bounded(config, run.plan, run.dispatches)
    ensures Bounded(config, run.plan, run.dispatches + Prepare(children))
  {
    hide Keys, ActiveKeys, SelectedKeys, CountRole, CountActive, CountChildren;
    var ds, t := run.dispatches, run.dispatches + Prepare(children);
    forall d | d in t
      ensures d.step in run.plan
    {
      var k :| 0 <= k < |t| && t[k] == d;
      if k < |ds| {
        assert ds[k] in ds;
      } else {
        assert ChildFree(config, run, children, k - |ds|);
      }
    }
    forall i, j | 0 <= i < j < |t| && IsActive(t[i].state) && IsActive(t[j].state)
      ensures Keys(run.plan[t[i].step]) !! Keys(run.plan[t[j].step])
    {
      BatchDisjoint(config, run, children, i, j);
    }
    forall role | role in config.capacities
      ensures CountRole(t, role) <= config.capacities[role]
    {
      WithinCapacity(config, run, children, |children|, role);
      assert children[..|children|] == children;
      CountPrepared(ds, children, role);
    }
    CountPrepared(ds, children, "");
  }

  /** Over any interleaving of admitted batches and dispatch transitions, in every state: active
      dispatches hold pairwise disjoint keys, every role stays within its capacity, and the total
      stays within the limit. */
  lemma {:induction false} EveryScheduleIsBounded(config: Config, plan: map<string, PlanStep>,
                                                  states: seq<seq<Dispatch>>, moves: seq<Move>, n: nat)
    requires Schedule(config, plan, states, moves) && n < |states|
    ensures Bounded(config, plan, states[n])
  {
    if n > 0 {
      EveryScheduleIsBounded(config, plan, states, moves, n - 1);
      hide Bounded, BatchFits, ValidRun;
      assert Changes(config, plan, states[n - 1], moves[n - 1], states[n]);
      match moves[n - 1] {
        case Batch(children) =>
          var run :| MayAdmit(config, plan, states[n - 1], run, children);
          BatchKeeps(config, run, children);
        case Transition(i, target) =>
          TransitionKeeps(config, plan, states[n - 1], i, target);
      }
    } else {
      assert CountActive([]) == 0;
    }
  }

  /** Over any interleaving of admitted batches and transitions, a repository never has two active
      dispatches. */
  lemma OnePerRepository(config: Config, plan: map<string, PlanStep>, states: seq<seq<Dispatch>>, moves: seq<Move>,
                         n: nat, i: nat, j: nat)
    requires Schedule(config, plan, states, moves) && n < |states|
    requires i < j < |states[n]| && IsActive(states[n][i].state) && IsActive(states[n][j].state)
    ensures states[n][i].step in plan && states[n][j].step in plan
    ensures plan[states[n][i].step].repository != plan[states[n][j].step].repository
  {
    hide Schedule, BatchFits, ValidRun;
    EveryScheduleIsBounded(config, plan, states, moves, n);
    var ds := states[n];
    assert ds[i] in ds && ds[j] in ds;
    assert RepositoryKey(plan[ds[i].step].repository) in Keys(plan[ds[i].step]);
    assert RepositoryKey(plan[ds[j].step].repository) in Keys(plan[ds[j].step]);
  }

  /** Once inactive, a dispatch is never active again. */
  lemma {:induction false} NeverActiveAgain(config: Config, plan: map<string, PlanStep>,
                                            states: seq<seq<Dispatch>>, moves: seq<Move>, m: nat, n: nat, i: nat)
    requires Schedule(config, plan, states, moves) && m <= n < |states|
    requires i < |states[m]| && !IsActive(states[m][i].state)
    ensures i < |states[n]| && !IsActive(states[n][i].state)
    decreases n - m
  {
    if m < n {
      NeverActiveAgain(config, plan, states, moves, m, n - 1, i);
      assert Changes(config, plan, states[n - 1], moves[n - 1], states[n]);
      InactiveIsFinal(states[n - 1][i].state);
    }
  }

  /** A READY executor step is admitted whatever its dependencies are: admission relies on whoever
      marked the step READY. */
  lemma AdmissionIgnoresDependencies(config: Config, run: Run, children: seq<Child>, dependsOn: string -> seq<string>)
    requires ValidConfig(config) && ValidRun(run)
    requires forall s, x | s in run.plan && x in dependsOn(s) :: x in run.plan
    ensures var changed := run.(plan := map s | s in run.plan :: run.plan[s].(dependsOn := dependsOn(s)));
            && ValidRun(changed)
            && (BatchFits(config, changed, children) <==> BatchFits(config, run, children))
  {
    var changed := run.(plan := map s | s in run.plan :: run.plan[s].(dependsOn := dependsOn(s)));
    assert changed.plan.Keys == run.plan.Keys;
    SameKeys(run, changed, |run.dispatches|);
    forall k | 0 <= k < |children|
      ensures ChildFree(config, changed, children, k) <==> ChildFree(config, run, children, k)
    {
      SameSelected(run, changed, children[..k]);
    }
  }

  lemma {:induction false} SameKeys(run: Run, changed: Run, n: nat)
    requires ValidRun(run) && ValidRun(changed) && changed.dispatches == run.dispatches && n <= |run.dispatches|
    requires changed.plan.Keys == run.plan.Keys
    requires forall s | s in run.plan :: Keys(changed.plan[s]) == Keys(run.plan[s])
    ensures ActiveKeys(changed, n) == ActiveKeys(run, n)
  {
    hide Keys;
    if n > 0 {
      SameKeys(run, changed, n - 1);
      assert run.dispatches[n - 1] in run.dispatches;
    }
  }

  lemma {:induction false} SameSelected(run: Run, changed: Run, children: seq<Child>)
    requires changed.plan.Keys == run.plan.Keys
    requires forall s | s in run.plan :: Keys(changed.plan[s]) == Keys(run.plan[s])
    ensures SelectedKeys(changed, children) == SelectedKeys(run, children)
  {
    hide Keys;
    if children != [] {
      SameSelected(run, changed, children[..|children| - 1]);
    }
  }

  // ---------------------------------------------------------------------------------------------
  // validate_workspace_batch

  predicate DependenciesSettled(run: Run, step: PlanStep) {
    forall x | x in step.dependsOn + step.producers :: x in run.steps && Settled(run.steps[x].state)
  }

  /** No path of `paths` overlaps an earlier one or one of `taken`. */
  predicate Clear(taken: seq<Scope>, paths: seq<Scope>) {
    forall i, j | 0 <= i < j < |taken + paths| && j >= |taken| :: !Overlap((taken + paths)[j], (taken + paths)[i])
  }

  /** A child against what the ones before it took. */
  predicate WorkspaceFree(config: Config, run: Run, c: Child, places: nat, resources: set<Key>, paths: seq<Scope>)
    requires ValidConfig(config) && ValidRun(run)
  {
    && c.step in run.plan && c.step in run.steps
    && Kind(config, c.role).Executor?
    && run.steps[c.step].state.Ready? && run.steps[c.step].gateResolved
    && DependenciesSettled(run, run.plan[c.step])
    && c.newSession
    && places + 1 <= config.capacities[c.role]
    && Resources(run.plan[c.step]) !! resources
    && Clear(paths, run.plan[c.step].paths)
  }

  function TakenResources(run: Run, children: seq<Child>): set<Key> {
    if children == [] then {}
    else
      var last := children[|children| - 1];
      TakenResources(run, children[..|children| - 1]) +
      if last.step in run.plan then Resources(run.plan[last.step]) else {}
  }

  function TakenPaths(run: Run, children: seq<Child>): seq<Scope> {
    if children == [] then []
    else
      var last := children[|children| - 1];
      TakenPaths(run, children[..|children| - 1]) + if last.step in run.plan then run.plan[last.step].paths else []
  }

  predicate WorkspaceChildFree(config: Config, run: Run, children: seq<Child>, k: nat)
    requires ValidConfig(config) && ValidRun(run) && k < |children|
  {
    var c := children[k];
    WorkspaceFree(config, run, c, CountRole(run.dispatches, c.role) + CountChildren(children[..k], c.role),
                  TakenResources(run, children[..k]), TakenPaths(run, children[..k]))
  }

  predicate AllKnown(run: Run, children: seq<Child>) {
    forall c | c in children :: c.step in run.plan
  }

  /** One repository, committing, without an active group. */
  predicate OneRepository(config: Config, run: Run, children: seq<Child>)
    requires AllKnown(run, children)
  {
    && children != []
    && assert children[0] in children;
       var repository := run.plan[children[0].step].repository;
       && (forall c | c in children :: run.plan[c.step].repository == repository)
       && repository in config.committing && repository !in run.groups
  }

  predicate WorkspaceFits(config: Config, run: Run, children: seq<Child>)
    requires ValidConfig(config) && ValidRun(run)
  {
    && DistinctSteps(children) && AllKnown(run, children) && OneRepository(config, run, children)
    && CountActive(run.dispatches) + |children| <= config.maxActive
    && forall k | 0 <= k < |children| :: WorkspaceChildFree(config, run, children, k)
  }

  datatype WorkspaceError =
    | DuplicateChildren
    | UnknownChild(step: string)
    | RepositoryUnfit
    | WorkspaceTooManyActive
    | NotExecutor(step: string)
    | StepNotReady(step: string)
    | GateUnresolved(step: string)
    | DependencyOpen(step: string)
    | WorkspaceNeedsNewSession(step: string)
    | WorkspaceOverCapacity(role: string)
    | ResourceConflict(step: string)
    | PathOverlap(step: string)

  datatype WorkspaceAdmission =
    | WorkspaceAdmitted(ordered: seq<Child>)
    | WorkspaceRefused(errors: seq<WorkspaceError>)
    | WorkspaceUnavailable

  /** `validate_workspace_batch`. */
  method ValidateWorkspaceBatch(config: Config, run: Run, children: seq<Child>) returns (r: WorkspaceAdmission)
    requires ValidConfig(config) && ValidRun(run)
    ensures r.WorkspaceAdmitted? ==> r.ordered == Sorted(run, children)
    ensures r.WorkspaceAdmitted? <==>
              && config.parallel && config.worktreeBarrier && 2 <= |children| <= config.maxBatch
              && WorkspaceFits(config, run, Sorted(run, children))
  {
    hide WorkspaceChildFree, Sorted, CountRole, CountActive, DistinctSteps, OneRepository, Lookup;
    if !config.parallel || !config.worktreeBarrier || |children| < 2 || |children| > config.maxBatch {
      return WorkspaceUnavailable;
    }
    var ordered := Sorted(run, children);
    var errors: seq<WorkspaceError> := [];
    if !DistinctSteps(ordered) {
      errors := errors + [DuplicateChildren];
    }
    var counts, active := ActiveRoleCounts(run.dispatches);
    if !AllKnown(run, ordered) {
      errors := errors + [UnknownChild("")];
    } else if !OneRepository(config, run, ordered) {
      errors := errors + [RepositoryUnfit];
    }
    if active + |ordered| > config.maxActive {
      errors := errors + [WorkspaceTooManyActive];
    }
    if errors == [] {
      errors := CheckWorkspace(config, run, ordered, counts);
    }
    r := if errors == [] then WorkspaceAdmitted(ordered) else WorkspaceRefused(errors);
  }

  method CheckWorkspace(config: Config, run: Run, ordered: seq<Child>, counts0: map<string, nat>)
    returns (errors: seq<WorkspaceError>)
    requires ValidConfig(config) && ValidRun(run) && AllKnown(run, ordered)
    requires forall role :: Lookup(counts0, role) == CountRole(run.dispatches, role)
    ensures errors == [] <==> forall k | 0 <= k < |ordered| :: WorkspaceChildFree(config, run, ordered, k)
  {
    hide WorkspaceFree, CountRole, Resources, TakenResources, TakenPaths, CountChildren;
    NothingTaken(run, ordered);
    var counts: map<string, nat> := counts0;
    var resources: set<Key>, paths: seq<Scope> := {}, [];
    errors := [];
    var i := 0;
    while i < |ordered|
      invariant 0 <= i <= |ordered|
      invariant errors == [] <==> forall k | 0 <= k < i :: WorkspaceChildFree(config, run, ordered, k)
      invariant forall role ::
                  Lookup(counts, role) == CountRole(run.dispatches, role) + CountChildren(ordered[..i], role)
      invariant resources == TakenResources(run, ordered[..i])
      invariant paths == TakenPaths(run, ordered[..i])
    {
      TakenNext(run, ordered, i);
      assert ordered[i] in ordered;
      var c := ordered[i];
      var more := CheckWorkspaceChild(config, run, c, Lookup(counts, c.role), resources, paths);
      assert more == [] <==> WorkspaceChildFree(config, run, ordered, i);
      errors := errors + more;
      counts := counts[c.role := Lookup(counts, c.role) + 1];
      resources := resources + Resources(run.plan[c.step]);
      paths := paths + run.plan[c.step].paths;
      i := i + 1;
    }
  }

  lemma NothingTaken(run: Run, children: seq<Child>)
    ensures TakenResources(run, children[..0]) == {} && TakenPaths(run, children[..0]) == []
    ensures forall role :: CountChildren(children[..0], role) == 0
  {
  }

  lemma TakenNext(run: Run, children: seq<Child>, i: nat)
    requires i < |children| && children[i].step in run.plan
    ensures TakenResources(run, children[..i + 1]) ==
            TakenResources(run, children[..i]) + Resources(run.plan[children[i].step])
    ensures TakenPaths(run, children[..i + 1]) == TakenPaths(run, children[..i]) + run.plan[children[i].step].paths
    ensures forall role :: CountChildren(children[..i + 1], role) ==
                           CountChildren(children[..i], role) + if children[i].role == role then 1 else 0
  {
    hide Resources;
    assert children[..i + 1][..i] == children[..i];
  }

  /** The errors of one child. */
  method CheckWorkspaceChild(config: Config, run: Run, c: Child, places: nat, resources: set<Key>, paths: seq<Scope>)
    returns (errors: seq<WorkspaceError>)
    requires ValidConfig(config) && ValidRun(run) && c.step in run.plan
    ensures errors == [] <==> WorkspaceFree(config, run, c, places, resources, paths)
  {
    hide Resources, Clear, DependenciesSettled;
    errors := [];
    var step := run.plan[c.step];
    if !Kind(config, c.role).Executor? {
      errors := errors + [NotExecutor(c.step)];
    } else if places + 1 > config.capacities[c.role] {
      errors := errors + [WorkspaceOverCapacity(c.role)];
    }
    if !run.steps[c.step].state.Ready? {
      errors := errors + [StepNotReady(c.step)];
    }
    if !run.steps[c.step].gateResolved {
      errors := errors + [GateUnresolved(c.step)];
    }
    if !DependenciesSettled(run, step) {
      errors := errors + [DependencyOpen(c.step)];
    }
    if !c.newSession {
      errors := errors + [WorkspaceNeedsNewSession(c.step)];
    }
    if !(Resources(step) !! resources) {
      errors := errors + [ResourceConflict(c.step)];
    }
    var clear := PathsClear(paths, step.paths);
    if !clear {
      errors := errors + [PathOverlap(c.step)];
    }
  }

  /** Each path against all that are taken, in order. */
  method PathsClear(taken: seq<Scope>, paths: seq<Scope>) returns (clear: bool)
    ensures clear <==> Clear(taken, paths)
  {
    hide Overlap;
    var selected := taken;
    clear := true;
    var i := 0;
    while i < |paths|
      invariant 0 <= i <= |paths| && selected == taken + paths[..i]
      invariant clear <==> Clear(taken, paths[..i])
    {
      var apart := Apart(paths[i], selected);
      ClearNext(taken, paths, i);
      clear := clear && apart;
      selected := selected + [paths[i]];
      assert paths[..i + 1] == paths[..i] + [paths[i]];
      i := i + 1;
    }
    assert paths[..|paths|] == paths;
  }

  method Apart(path: Scope, selected: seq<Scope>) returns (apart: bool)
    ensures apart <==> forall k | 0 <= k < |selected| :: !Overlap(path, selected[k])
  {
    apart := true;
    for k := 0 to |selected|
      invariant apart <==> forall j | 0 <= j < k :: !Overlap(path, selected[j])
    {
      if Overlap(path, selected[k]) {
        apart := false;
      }
    }
  }

  lemma ClearNext(taken: seq<Scope>, paths: seq<Scope>, i: nat)
    requires i < |paths|
    ensures Clear(taken, paths[..i + 1]) <==>
            Clear(taken, paths[..i]) && forall k | 0 <= k < |taken| + i :: !Overlap(paths[i], (taken + paths[..i])[k])
  {
    hide Overlap;
    var before, after := taken + paths[..i], taken + paths[..i + 1];
    assert after == before + [paths[i]];
    if Clear(taken, paths[..i + 1]) {
      forall a, b | 0 <= a < b < |before| && b >= |taken|
        ensures !Overlap(before[b], before[a])
      {
        assert before[b] == after[b] && before[a] == after[a];
      }
      forall k | 0 <= k < |before|
        ensures !Overlap(paths[i], before[k])
      {
        assert after[|before|] == paths[i] && after[k] == before[k];
      }
    }
  }

  // ---------------------------------------------------------------------------------------------
  // What an admitted workspace batch means

  lemma {:induction false} TakenUpTo(run: Run, children: seq<Child>, i: nat, j: nat, p: Scope)
    requires i < j <= |children| && children[i].step in run.plan && p in run.plan[children[i].step].paths
    ensures p in TakenPaths(run, children[..j])
    decreases j
  {
    assert children[..j][..j - 1] == children[..j - 1];
    if i < j - 1 {
      TakenUpTo(run, children, i, j - 1, p);
    }
  }

  /** In an admitted workspace batch no repository path is authorized to two children. */
  lemma NoPathTwice(config: Config, run: Run, children: seq<Child>, i: nat, j: nat, p: Path)
    requires ValidConfig(config) && ValidRun(run) && WorkspaceFits(config, run, children)
    requires forall s, x | s in run.plan && x in run.plan[s].paths :: Canonical(x.path)
    requires i < j < |children| && Canonical(p)
    ensures children[i].step in run.plan && children[j].step in run.plan
    ensures !(AllowsAny(run.plan[children[i].step].paths, p) && AllowsAny(run.plan[children[j].step].paths, p))
  {
    hide Canonical, Allows, CountRole, TakenResources, TakenPaths, OneRepository;
    assert children[i] in children && children[j] in children;
    assert WorkspaceChildFree(config, run, children, j);
    var a, b := run.plan[children[i].step].paths, run.plan[children[j].step].paths;
    var taken := TakenPaths(run, children[..j]);
    forall x, y | x in a && y in b
      ensures !(Allows(x, p) && Allows(y, p))
    {
      TakenUpTo(run, children, i, j, x);
      var m :| 0 <= m < |taken| && taken[m] == x;
      var n :| 0 <= n < |b| && b[n] == y;
      assert (taken + b)[m] == x && (taken + b)[|taken| + n] == y;
      OverlapIsExact(y, x);
      Apartness(x, y, p);
    }
  }

  lemma Apartness(x: Scope, y: Scope, p: Path)
    requires !Share(y, x) && Canonical(p)
    ensures !(Allows(x, p) && Allows(y, p))
  {
    hide Canonical, Allows;
  }

  /** Unlike a plain batch, a workspace batch admits no step with an open dependency or producer. */
  lemma WorkspaceStepsAreReady(config: Config, run: Run, children: seq<Child>, k: nat)
    requires ValidConfig(config) && ValidRun(run) && WorkspaceFits(config, run, children) && k < |children|
    ensures children[k].step in run.plan && DependenciesSettled(run, run.plan[children[k].step])
  {
    hide DependenciesSettled, Clear;
    assert WorkspaceChildFree(config, run, children, k);
  }
}
