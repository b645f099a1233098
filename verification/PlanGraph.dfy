/** The dependency graph of a normalized plan, from src/dispatcher/plan.py: the depth-first cycle
    check, the ancestors of a step, and the write-lock check.
 */
module PlanGraph {
  import opened Common
  import opened PlanModel

  type Graph = map<Id, seq<Id>>

  /** Every dependency is a step. */
  predicate Closed(g: Graph) {
    forall x, d | x in g && d in g[x] :: d in g
  }

  predicate Edge(g: Graph, x: Id, y: Id) {
    x in g && y in g[x]
  }

  /** A walk along dependencies. */
  predicate Walk(g: Graph, p: seq<Id>) {
    p != [] && p[0] in g && forall i | 0 < i < |p| :: Edge(g, p[i - 1], p[i])
  }

  /** `x` depends on `y`, directly or through other steps. */
  ghost predicate Reaches(g: Graph, x: Id, y: Id) {
    exists p: seq<Id> :: Walk(g, p) && |p| >= 2 && p[0] == x && p[|p| - 1] == y
  }

  ghost predicate Cyclic(g: Graph) {
    exists x :: Reaches(g, x, x)
  }

  // ---------------------------------------------------------------------------------------------
  // The depth-first cycle check

  /** Every step of the list stands behind all its dependencies. */
  predicate Topological(g: Graph, order: seq<Id>) {
    forall i | 0 <= i < |order| :: order[i] in g && forall d | d in g[order[i]] :: d in order[..i]
  }

  /** From a topologically ordered step every walk leads strictly towards the front. */
  lemma {:induction false} WalksForward(g: Graph, order: seq<Id>, p: seq<Id>, i: nat)
    requires Topological(g, order) && i < |order|
    requires Walk(g, p) && |p| >= 2 && p[0] == order[i]
    ensures p[|p| - 1] in order[..i]
    decreases |p|
  {
    assert Edge(g, p[0], p[1]);
    var j :| 0 <= j < i && order[j] == p[1];
    if |p| > 2 {
      var q := p[1..];
      forall k | 0 < k < |q|
        ensures Edge(g, q[k - 1], q[k])
      {
        assert Edge(g, p[k], p[k + 1]);
      }
      WalksForward(g, order, q, j);
    }
  }

  lemma OrderedIsAcyclic(g: Graph, order: seq<Id>)
    requires Topological(g, order) && Distinct(order)
    requires forall x | x in g :: x in order
    ensures !Cyclic(g)
  {
    forall x | Reaches(g, x, x)
      ensures false
    {
      var p :| Walk(g, p) && |p| >= 2 && p[0] == x && p[|p| - 1] == x;
      assert x in g;
      var i :| 0 <= i < |order| && order[i] == x;
      DistinctFront(order, i);
      WalksForward(g, order, p, i);
    }
  }

  lemma DistinctFront(order: seq<Id>, i: nat)
    requires Distinct(order) && i < |order|
    ensures order[i] !in order[..i]
  {
  }

  /** The state of `_validate_no_cycles`. */
  class CycleCheck {
    const g: Graph
    var visiting: set<Id>
    var visited: set<Id>
    /** The visited steps in the order in which they were finished. */
    ghost var order: seq<Id>

    ghost predicate Valid()
      reads this
    {
      && Closed(g)
      && visiting <= g.Keys && visiting !! visited
      && Topological(g, order) && Distinct(order)
      && (forall x :: x in visited <==> x in order)
    }

    constructor (g: Graph)
      requires Closed(g)
      ensures Valid() && this.g == g && visiting == {}
    {
      this.g := g;
      visiting := {};
      visited := {};
      order := [];
    }

    lemma AllVisited()
      requires Valid() && forall x | x in g :: x in visited
      ensures !Cyclic(g)
    {
      OrderedIsAcyclic(g, order);
    }

    /** `visit`, called along the walk `stack` of the steps being visited. */
    method Visit(id: Id, ghost stack: seq<Id>) returns (cycle: bool)
      requires Valid() && id in g
      requires Walk(g, stack + [id]) && (forall x :: x in visiting <==> x in stack)
      modifies this
      ensures cycle ==> Cyclic(g)
      ensures !cycle ==>
                Valid() && visiting == old(visiting) && id in visited && old(visited) <= visited
      decreases g.Keys - visiting
    {
      if id in visiting {
        ClosesCycle(g, stack, id);
        return true;
      }
      if id in visited {
        return false;
      }
      visiting := visiting + {id};
      var i := 0;
      while i < |g[id]|
        invariant 0 <= i <= |g[id]|
        invariant Valid() && visiting == old(visiting) + {id}
        invariant old(visited) <= visited
        invariant forall d | d in g[id][..i] :: d in visited
      {
        WalkOn(g, stack, id, i);
        cycle := Visit(g[id][i], stack + [id]);
        if cycle {
          return true;
        }
        assert g[id][..i + 1] == g[id][..i] + [g[id][i]];
        i := i + 1;
      }
      visiting := visiting - {id};
      Finish(g, order, id);
      visited := visited + {id};
      order := order + [id];
      return false;
    }
  }

  lemma WalkOn(g: Graph, stack: seq<Id>, id: Id, i: nat)
    requires Closed(g) && Walk(g, stack + [id]) && id in g && i < |g[id]|
    ensures Walk(g, stack + [id] + [g[id][i]]) && g[id][i] in g
  {
    var p, q := stack + [id], stack + [id] + [g[id][i]];
    forall k | 0 < k < |q|
      ensures Edge(g, q[k - 1], q[k])
    {
      if k < |p| {
        assert Edge(g, p[k - 1], p[k]);
      }
    }
  }

  /** Meeting a step that is still being visited closes a cycle. */
  lemma ClosesCycle(g: Graph, stack: seq<Id>, id: Id)
    requires Walk(g, stack + [id]) && id in stack
    ensures Cyclic(g)
  {
    var k :| 0 <= k < |stack| && stack[k] == id;
    var p := stack + [id];
    var q := p[k..];
    assert q[0] in g by {
      assert Edge(g, p[k], p[k + 1]);
    }
    forall i | 0 < i < |q|
      ensures Edge(g, q[i - 1], q[i])
    {
      assert Edge(g, p[k + i - 1], p[k + i]);
    }
    assert Reaches(g, id, id);
  }

  lemma Finish(g: Graph, order: seq<Id>, id: Id)
    requires Topological(g, order) && Distinct(order) && id in g && id !in order
    requires forall d | d in g[id] :: d in order
    ensures Topological(g, order + [id]) && Distinct(order + [id])
  {
    var t := order + [id];
    forall i | 0 <= i < |t|
      ensures t[i] in g && forall d | d in g[t[i]] :: d in t[..i]
    {
      assert t[..i] == order[..i];
      if i == |order| {
        assert order[..i] == order;
      }
    }
  }

  /** `_validate_no_cycles`: it ends on every step map, and raises exactly when there is a cycle. */
  method HasCycle(g: Graph, ids: seq<Id>) returns (cycle: bool)
    requires Closed(g) && forall x :: x in g <==> x in ids
    ensures cycle <==> Cyclic(g)
  {
    hide CycleCheck.Valid, Cyclic, Closed, Walk;
    var check := new CycleCheck(g);
    var i := 0;
    while i < |ids|
      invariant 0 <= i <= |ids|
      invariant fresh(check) && check.g == g && check.Valid() && check.visiting == {}
      invariant forall k | 0 <= k < i :: ids[k] in check.visited
    {
      assert ids[i] in ids;
      LoneWalk(g, ids[i]);
      cycle := check.Visit(ids[i], []);
      if cycle {
        return true;
      }
      i := i + 1;
    }
    check.AllVisited();
    return false;
  }

  lemma LoneWalk(g: Graph, id: Id)
    requires id in g
    ensures Walk(g, [] + [id])
  {
  }

  // ---------------------------------------------------------------------------------------------
  // Ancestors

  /** Dependencies have lower ranks. */
  predicate Ranked(g: Graph, rank: map<Id, nat>) {
    && Closed(g) && rank.Keys == g.Keys
    && forall x, d | x in g && d in g[x] :: rank[d] < rank[x]
  }

  lemma ReachStep(g: Graph, x: Id, d: Id, y: Id)
    requires Edge(g, x, d) && (d == y || Reaches(g, d, y))
    ensures Reaches(g, x, y)
  {
    if d == y {
      assert Walk(g, [x, y]);
    } else {
      var p :| Walk(g, p) && |p| >= 2 && p[0] == d && p[|p| - 1] == y;
      var q := [x] + p;
      forall i | 0 < i < |q|
        ensures Edge(g, q[i - 1], q[i])
      {
        assert q[i] == p[i - 1];
        if i > 1 {
          assert Edge(g, p[i - 2], p[i - 1]);
        }
      }
      assert Walk(g, q);
    }
  }

  lemma ReachFirst(g: Graph, x: Id, y: Id)
    requires Closed(g) && Reaches(g, x, y)
    ensures x in g && exists d :: d in g[x] && (d == y || Reaches(g, d, y))
  {
    var p :| Walk(g, p) && |p| >= 2 && p[0] == x && p[|p| - 1] == y;
    assert Edge(g, p[0], p[1]);
    if |p| > 2 {
      var q := p[1..];
      forall i | 0 < i < |q|
        ensures Edge(g, q[i - 1], q[i])
      {
        assert Edge(g, p[i], p[i + 1]);
      }
      assert Walk(g, q);
      assert Reaches(g, p[1], y);
    }
  }

  /** `_ancestor_steps`: exactly the transitive closure. */
  method AncestorSteps(g: Graph, ghost rank: map<Id, nat>, id: Id) returns (ancestors: set<Id>)
    requires Ranked(g, rank) && id in g
    ensures forall y :: y in ancestors <==> Reaches(g, id, y)
    decreases rank[id]
  {
    ancestors := {};
    var i := 0;
    while i < |g[id]|
      invariant 0 <= i <= |g[id]|
      invariant forall y | y in ancestors :: Reaches(g, id, y)
      invariant forall d | d in g[id][..i] :: d in ancestors && forall y | Reaches(g, d, y) :: y in ancestors
    {
      var d := g[id][i];
      assert g[id][..i + 1] == g[id][..i] + [d];
      var further := AncestorSteps(g, rank, d);
      forall y | y in further + {d}
        ensures Reaches(g, id, y)
      {
        ReachStep(g, id, d, y);
      }
      ancestors := ancestors + {d} + further;
      i := i + 1;
    }
    assert g[id][..|g[id]|] == g[id];
    forall y | Reaches(g, id, y)
      ensures y in ancestors
    {
      ReachFirst(g, id, y);
    }
  }

  // ---------------------------------------------------------------------------------------------
  // Write locks

  function WritesOf(id: Id, locks: seq<Lock>, resource: string): seq<Id> {
    if locks == [] then []
    else
      var last := locks[|locks| - 1];
      WritesOf(id, locks[..|locks| - 1], resource) + if last.write && last.resource == resource then [id] else []
  }

  /** The steps that write a resource, in plan order. */
  function WritersOf(steps: seq<PlanStep>, resource: string): seq<Id> {
    if steps == [] then []
    else
      var last := steps[|steps| - 1];
      WritersOf(steps[..|steps| - 1], resource) + WritesOf(last.id, last.locks, resource)
  }

  predicate Listed(writers: map<string, seq<Id>>, resource: string, ids: seq<Id>) {
    (resource in writers <==> ids != []) && (resource in writers ==> writers[resource] == ids)
  }

  method CollectWriters(steps: seq<PlanStep>) returns (writers: map<string, seq<Id>>)
    ensures forall r :: Listed(writers, r, WritersOf(steps, r))
  {
    writers := map[];
    var i := 0;
    while i < |steps|
      invariant 0 <= i <= |steps|
      invariant forall r :: Listed(writers, r, WritersOf(steps[..i], r))
    {
      writers := AddWriters(writers, steps[..i], steps[i]);
      assert steps[..i + 1][..i] == steps[..i];
      i := i + 1;
    }
    assert steps[..|steps|] == steps;
  }

  method AddWriters(before: map<string, seq<Id>>, ghost steps: seq<PlanStep>, step: PlanStep)
    returns (writers: map<string, seq<Id>>)
    requires forall r :: Listed(before, r, WritersOf(steps, r))
    ensures forall r :: Listed(writers, r, WritersOf(steps, r) + WritesOf(step.id, step.locks, r))
  {
    hide WritersOf, Listed, WritesOf;
    forall r
      ensures Listed(before, r, WritersOf(steps, r) + WritesOf(step.id, step.locks[..0], r))
    {
      NoWrites(step.id, r);
      assert WritersOf(steps, r) + [] == WritersOf(steps, r);
    }
    writers := before;
    var k := 0;
    while k < |step.locks|
      invariant 0 <= k <= |step.locks|
      invariant forall r :: Listed(writers, r, WritersOf(steps, r) + WritesOf(step.id, step.locks[..k], r))
    {
      ghost var earlier := writers;
      if step.locks[k].write {
        var r := step.locks[k].resource;
        writers := writers[r := (if r in writers then writers[r] else []) + [step.id]];
      }
      forall r
        ensures Listed(writers, r, WritersOf(steps, r) + WritesOf(step.id, step.locks[..k + 1], r))
      {
        AddLock(earlier, writers, WritersOf(steps, r), step.id, step.locks, k, r);
      }
      k := k + 1;
    }
    assert step.locks[..|step.locks|] == step.locks;
  }

  lemma NoWrites(id: Id, r: string)
    ensures WritesOf(id, [], r) == []
  {
  }

  lemma AddLock(before: map<string, seq<Id>>, writers: map<string, seq<Id>>, base: seq<Id>, id: Id, locks: seq<Lock>,
                k: nat, r: string)
    requires k < |locks|
    requires var l := locks[k];
             writers == if l.write then
               before[l.resource := (if l.resource in before then before[l.resource] else []) + [id]] else before
    requires Listed(before, r, base + WritesOf(id, locks[..k], r))
    ensures Listed(writers, r, base + WritesOf(id, locks[..k + 1], r))
  {
    assert locks[..k + 1][..k] == locks[..k];
    assert base + (WritesOf(id, locks[..k], r) + [id]) == base + WritesOf(id, locks[..k], r) + [id];
  }

  ghost predicate Comparable(g: Graph, x: Id, y: Id) {
    Reaches(g, y, x) || Reaches(g, x, y)
  }

  ghost predicate Chain(g: Graph, ids: seq<Id>) {
    forall i, j | 0 <= i < j < |ids| :: Comparable(g, ids[i], ids[j])
  }

  /** For every resource the writers form a chain under ancestry. */
  ghost predicate AllChains(g: Graph, steps: seq<PlanStep>) {
    forall r :: Chain(g, WritersOf(steps, r))
  }

  function GraphOf(steps: seq<PlanStep>): Graph {
    if steps == [] then map[]
    else GraphOf(steps[..|steps| - 1])[steps[|steps| - 1].id := steps[|steps| - 1].dependsOn]
  }

  /** `_validate_unordered_write_locks`: passes exactly when the writers of every resource form a chain
      under ancestry. */
  method LocksOrdered(steps: seq<PlanStep>, g: Graph, ghost rank: map<Id, nat>) returns (ok: bool)
    requires Ranked(g, rank) && forall s | s in steps :: s.id in g
    ensures ok <==> AllChains(g, steps)
  {
    var ancestors := AllAncestors(steps, g, rank);
    var writers := CollectWriters(steps);
    var rest := writers.Keys;
    while rest != {}
      invariant rest <= writers.Keys
      invariant forall r | r in writers.Keys - rest :: Chain(g, writers[r])
      decreases |rest|
    {
      var r :| r in rest;
      WritersAreSteps(steps, r);
      assert Listed(writers, r, WritersOf(steps, r));
      var chained := IsChain(writers[r], g, ancestors);
      if !chained {
        assert !Chain(g, WritersOf(steps, r));
        return false;
      }
      rest := rest - {r};
    }
    forall r
      ensures Chain(g, WritersOf(steps, r))
    {
      assert Listed(writers, r, WritersOf(steps, r));
    }
    return true;
  }

  method AllAncestors(steps: seq<PlanStep>, g: Graph, ghost rank: map<Id, nat>) returns (ancestors: map<Id, set<Id>>)
    requires Ranked(g, rank) && forall s | s in steps :: s.id in g
    ensures forall s | s in steps :: s.id in ancestors
    ensures forall x, y | x in ancestors :: y in ancestors[x] <==> Reaches(g, x, y)
  {
    ancestors := map[];
    for i := 0 to |steps|
      invariant forall k | 0 <= k < i :: steps[k].id in ancestors
      invariant forall x, y | x in ancestors :: y in ancestors[x] <==> Reaches(g, x, y)
    {
      assert steps[i] in steps;
      var a := AncestorSteps(g, rank, steps[i].id);
      ancestors := ancestors[steps[i].id := a];
    }
  }

  method IsChain(ids: seq<Id>, g: Graph, ancestors: map<Id, set<Id>>) returns (ok: bool)
    requires forall x | x in ids :: x in ancestors
    requires forall x, y | x in ancestors :: y in ancestors[x] <==> Reaches(g, x, y)
    ensures ok <==> Chain(g, ids)
  {
    for i := 0 to |ids|
      invariant forall a, b | 0 <= a < i && a < b < |ids| :: Comparable(g, ids[a], ids[b])
    {
      for j := i + 1 to |ids|
        invariant forall b | i < b < j :: Comparable(g, ids[i], ids[b])
      {
        if ids[i] !in ancestors[ids[j]] && ids[j] !in ancestors[ids[i]] {
          assert !Comparable(g, ids[i], ids[j]);
          return false;
        }
      }
    }
    return true;
  }

  lemma {:induction false} WritesAreStep(id: Id, locks: seq<Lock>, resource: string)
    ensures forall x | x in WritesOf(id, locks, resource) :: x == id
  {
    if locks != [] {
      WritesAreStep(id, locks[..|locks| - 1], resource);
    }
  }

  lemma {:induction false} WritersAreSteps(steps: seq<PlanStep>, resource: string)
    ensures forall x | x in WritersOf(steps, resource) :: exists s :: s in steps && s.id == x
  {
    if steps != [] {
      var last := steps[|steps| - 1];
      WritersAreSteps(steps[..|steps| - 1], resource);
      WritesAreStep(last.id, last.locks, resource);
      assert last in steps;
      forall x | x in WritersOf(steps, resource)
        ensures exists s :: s in steps && s.id == x
      {
        if x in WritersOf(steps[..|steps| - 1], resource) {
          var s :| s in steps[..|steps| - 1] && s.id == x;
          assert s in steps;
        }
      }
    }
  }

  // ---------------------------------------------------------------------------------------------
  // The whole check

  predicate InOrder(steps: seq<PlanStep>) {
    forall i | 0 <= i < |steps| :: steps[i].ordinal == i + 1
  }

  /** Every dependency names an earlier step. */
  predicate DependsBackwards(steps: seq<PlanStep>) {
    forall s, d | s in steps && d in s.dependsOn ::
      exists t :: t in steps && t.id == d && t.ordinal < s.ordinal
  }

  predicate ProducersListed(steps: seq<PlanStep>) {
    forall s, p | s in steps && p in s.producers :: p in s.dependsOn
  }

  predicate DistinctLocks(steps: seq<PlanStep>) {
    forall s | s in steps :: Distinct(s.locks)
  }

  function Outputs(steps: seq<PlanStep>): seq<string> {
    if steps == [] then [] else Outputs(steps[..|steps| - 1]) + steps[|steps| - 1].outputs
  }

  predicate Shaped(steps: seq<PlanStep>) {
    && steps != [] && DistinctIds(steps) && InOrder(steps)
    && DependsBackwards(steps) && ProducersListed(steps) && Distinct(Outputs(steps))
  }

  function RankOf(steps: seq<PlanStep>): map<Id, nat> {
    if steps == [] then map[]
    else RankOf(steps[..|steps| - 1])[steps[|steps| - 1].id := steps[|steps| - 1].ordinal]
  }

  predicate IsStep(steps: seq<PlanStep>, x: Id) {
    exists s :: s in steps && s.id == x
  }

  lemma {:induction false} GraphKeys(steps: seq<PlanStep>, x: Id)
    ensures x in GraphOf(steps) <==> IsStep(steps, x)
    ensures x in RankOf(steps) <==> IsStep(steps, x)
  {
    if steps != [] {
      var front, last := steps[..|steps| - 1], steps[|steps| - 1];
      assert steps == front + [last];
      GraphKeys(front, x);
      if IsStep(front, x) {
        var s :| s in front && s.id == x;
        assert s in steps;
      }
    }
  }

  lemma {:induction false} GraphAt(steps: seq<PlanStep>, i: nat)
    requires DistinctIds(steps) && i < |steps|
    ensures var s := steps[i];
            && s.id in GraphOf(steps) && GraphOf(steps)[s.id] == s.dependsOn
            && s.id in RankOf(steps) && RankOf(steps)[s.id] == s.ordinal
    decreases |steps|
  {
    if i < |steps| - 1 {
      GraphAt(steps[..|steps| - 1], i);
    }
  }

  lemma GraphStep(steps: seq<PlanStep>, x: Id) returns (s: PlanStep)
    requires DistinctIds(steps) && x in GraphOf(steps)
    ensures s in steps && s.id == x
    ensures GraphOf(steps)[x] == s.dependsOn && x in RankOf(steps) && RankOf(steps)[x] == s.ordinal
  {
    hide GraphOf, RankOf;
    GraphKeys(steps, x);
    s :| s in steps && s.id == x;
    var i :| 0 <= i < |steps| && steps[i] == s;
    GraphAt(steps, i);
  }

  /** Dependencies on earlier steps only: the ordinals rank the graph. */
  lemma ShapedIsRanked(steps: seq<PlanStep>)
    requires Shaped(steps)
    ensures Ranked(GraphOf(steps), RankOf(steps))
  {
    hide GraphOf, RankOf, ProducersListed, InOrder, Outputs;
    var g, rank := GraphOf(steps), RankOf(steps);
    assert rank.Keys == g.Keys by {
      forall x
        ensures x in g <==> x in rank
      {
        GraphKeys(steps, x);
      }
    }
    forall x, d | x in g && d in g[x]
      ensures d in g && rank[d] < rank[x]
    {
      var s := GraphStep(steps, x);
      EarlierStep(steps, s, d);
    }
  }

  lemma EarlierStep(steps: seq<PlanStep>, s: PlanStep, d: Id)
    requires DistinctIds(steps) && DependsBackwards(steps) && s in steps && d in s.dependsOn
    ensures d in GraphOf(steps) && d in RankOf(steps) && RankOf(steps)[d] < s.ordinal
  {
    hide GraphOf, RankOf;
    var t :| t in steps && t.id == d && t.ordinal < s.ordinal;
    var i :| 0 <= i < |steps| && steps[i] == t;
    GraphAt(steps, i);
  }

  lemma {:induction false} ReachLowers(g: Graph, rank: map<Id, nat>, x: Id, y: Id)
    requires Ranked(g, rank) && Reaches(g, x, y)
    ensures x in g && y in g && rank[y] < rank[x]
    decreases if x in rank then rank[x] else 0
  {
    ReachFirst(g, x, y);
    var d :| d in g[x] && (d == y || Reaches(g, d, y));
    if d != y {
      ReachLowers(g, rank, d, y);
    }
  }

  lemma RankedIsAcyclic(g: Graph, rank: map<Id, nat>)
    requires Ranked(g, rank)
    ensures !Cyclic(g)
  {
    forall x | Reaches(g, x, x)
      ensures false
    {
      ReachLowers(g, rank, x, x);
    }
  }

  /** `validate_graph`, without the plan's sources.  Behind the ordinal check the cycle check never fires. */
  method ValidateGraph(steps: seq<PlanStep>) returns (ok: bool)
    ensures ok <==> Shaped(steps) && AllChains(GraphOf(steps), steps)
  {
    if !Shaped(steps) {
      return false;
    }
    var g := GraphOf(steps);
    ShapedIsRanked(steps);
    var ids := seq(|steps|, i requires 0 <= i < |steps| => steps[i].id);
    AllIds(steps, ids);
    RankedIsAcyclic(g, RankOf(steps));
    var cycle := HasCycle(g, ids);
    if cycle {
      return false;
    }
    ok := LocksOrdered(steps, g, RankOf(steps));
  }

  lemma AllIds(steps: seq<PlanStep>, ids: seq<Id>)
    requires |ids| == |steps| && forall i | 0 <= i < |ids| :: ids[i] == steps[i].id
    ensures forall x :: x in GraphOf(steps) <==> x in ids
    ensures forall s | s in steps :: s.id in GraphOf(steps)
  {
    hide GraphOf;
    forall x
      ensures x in GraphOf(steps) <==> x in ids
    {
      GraphKeys(steps, x);
      if x in GraphOf(steps) {
        var s :| s in steps && s.id == x;
        var i :| 0 <= i < |steps| && steps[i] == s;
        assert ids[i] == x;
      }
      if x in ids {
        var i :| 0 <= i < |ids| && ids[i] == x;
        assert steps[i] in steps;
      }
    }
    forall s | s in steps
      ensures s.id in GraphOf(steps)
    {
      GraphKeys(steps, s.id);
    }
  }

  // ---------------------------------------------------------------------------------------------
  // What the lock check means

  predicate Writes(s: PlanStep, resource: string) {
    WritesIn(s.locks, resource)
  }

  /** Whoever writes a resource later depends on everyone who writes it earlier. */
  ghost predicate WritersSerialized(g: Graph, steps: seq<PlanStep>, resource: string) {
    forall i, j | 0 <= i < j < |steps| && Writes(steps[i], resource) && Writes(steps[j], resource) ::
      Reaches(g, steps[j].id, steps[i].id)
  }

  predicate WritesIn(locks: seq<Lock>, resource: string) {
    exists l :: l in locks && l.write && l.resource == resource
  }

  ghost predicate AllSerialized(g: Graph, steps: seq<PlanStep>) {
    forall r :: WritersSerialized(g, steps, r)
  }

  lemma {:induction false} WritesOnce(id: Id, locks: seq<Lock>, resource: string)
    requires Distinct(locks)
    ensures WritesOf(id, locks, resource) == if WritesIn(locks, resource) then [id] else []
  {
    if locks != [] {
      var front, last := locks[..|locks| - 1], locks[|locks| - 1];
      assert locks == front + [last];
      WritesOnce(id, front, resource);
      LockAbsent(locks);
    }
  }

  lemma LockAbsent(locks: seq<Lock>)
    requires Distinct(locks) && locks != []
    ensures locks[|locks| - 1] !in locks[..|locks| - 1]
  {
  }

  lemma {:induction false} WriterMembers(steps: seq<PlanStep>, resource: string, x: Id)
    requires DistinctLocks(steps)
    ensures x in WritersOf(steps, resource) <==>
            exists i :: 0 <= i < |steps| && Writes(steps[i], resource) && steps[i].id == x
  {
    hide WritesOf, WritesIn;
    if steps != [] {
      var front, last := steps[..|steps| - 1], steps[|steps| - 1];
      assert steps == front + [last];
      WriterMembers(front, resource, x);
      LocksOfLast(steps);
      hide DistinctLocks;
      WritesOnce(last.id, last.locks, resource);
    }
  }

  /** `last` depends on every earlier writer. */
  ghost predicate Behind(g: Graph, front: seq<PlanStep>, last: PlanStep, resource: string) {
    forall i | 0 <= i < |front| && Writes(front[i], resource) :: Reaches(g, last.id, front[i].id)
  }

  lemma LastComparable(g: Graph, rank: map<Id, nat>, front: seq<PlanStep>, last: PlanStep, resource: string)
    requires Ranked(g, rank) && DistinctLocks(front) && last.id in g
    requires forall i | 0 <= i < |front| :: front[i].id in g && rank[front[i].id] < rank[last.id]
    ensures (forall x | x in WritersOf(front, resource) :: Comparable(g, x, last.id)) <==>
            Behind(g, front, last, resource)
  {
    hide Reaches, Ranked, WritersOf, DistinctLocks, WritesIn;
    forall i | 0 <= i < |front| && Writes(front[i], resource)
      ensures front[i].id in WritersOf(front, resource)
      ensures Comparable(g, front[i].id, last.id) <==> Reaches(g, last.id, front[i].id)
    {
      WriterMembers(front, resource, front[i].id);
      if Reaches(g, front[i].id, last.id) {
        ReachLowers(g, rank, front[i].id, last.id);
      }
    }
    if Behind(g, front, last, resource) {
      forall x | x in WritersOf(front, resource)
        ensures Comparable(g, x, last.id)
      {
        WriterMembers(front, resource, x);
      }
    }
  }

  /** Over a ranked graph, with the steps listed by rank, the writers of a resource form a chain
      exactly when every later writer depends on every earlier one. */
  lemma {:induction false} ChainMeaning(g: Graph, rank: map<Id, nat>, steps: seq<PlanStep>, resource: string)
    requires Ranked(g, rank) && DistinctLocks(steps)
    requires forall s | s in steps :: s.id in g
    requires forall i, j | 0 <= i < j < |steps| :: rank[steps[i].id] < rank[steps[j].id]
    ensures Chain(g, WritersOf(steps, resource)) <==> WritersSerialized(g, steps, resource)
  {
    hide Reaches, Ranked, WritersOf, Comparable, WritesIn, Behind, Chain, WritersSerialized;
    if steps == [] {
      NoWriters(g, resource);
    } else {
      var front, last := steps[..|steps| - 1], steps[|steps| - 1];
      assert steps == front + [last];
      ChainMeaning(g, rank, front, resource);
      hide DistinctLocks;
      LocksOfLast(steps);
      WritesOnce(last.id, last.locks, resource);
      WritersUnfold(steps, resource);
      SerializedLast(g, front, last, resource);
      if Writes(last, resource) {
        ChainLast(g, WritersOf(front, resource), last.id);
        LastComparable(g, rank, front, last, resource);
      } else {
        assert WritersOf(front, resource) + [] == WritersOf(front, resource);
      }
    }
  }

  lemma NoWriters(g: Graph, resource: string)
    ensures Chain(g, WritersOf([], resource)) && WritersSerialized(g, [], resource)
  {
  }

  lemma LocksOfLast(steps: seq<PlanStep>)
    requires DistinctLocks(steps) && steps != []
    ensures Distinct(steps[|steps| - 1].locks) && DistinctLocks(steps[..|steps| - 1])
  {
  }

  lemma WritersUnfold(steps: seq<PlanStep>, resource: string)
    requires steps != []
    ensures WritersOf(steps, resource) ==
            WritersOf(steps[..|steps| - 1], resource) +
            WritesOf(steps[|steps| - 1].id, steps[|steps| - 1].locks, resource)
  {
  }

  lemma ChainLast(g: Graph, ids: seq<Id>, x: Id)
    ensures Chain(g, ids + [x]) <==> Chain(g, ids) && forall y | y in ids :: Comparable(g, y, x)
  {
    hide Reaches;
    var t := ids + [x];
    if Chain(g, t) {
      forall i, j | 0 <= i < j < |ids|
        ensures Comparable(g, ids[i], ids[j])
      {
        assert Comparable(g, t[i], t[j]);
      }
      forall y | y in ids
        ensures Comparable(g, y, x)
      {
        var i :| 0 <= i < |ids| && ids[i] == y;
        assert Comparable(g, t[i], t[|ids|]);
      }
    }
  }

  lemma SerializedLast(g: Graph, front: seq<PlanStep>, last: PlanStep, resource: string)
    ensures WritersSerialized(g, front + [last], resource) <==>
            && WritersSerialized(g, front, resource)
            && (Writes(last, resource) ==> Behind(g, front, last, resource))
  {
    hide Reaches, WritesIn;
    var steps := front + [last];
    if WritersSerialized(g, steps, resource) {
      forall i, j | 0 <= i < j < |front| && Writes(front[i], resource) && Writes(front[j], resource)
        ensures Reaches(g, front[j].id, front[i].id)
      {
        assert Writes(steps[i], resource) && Writes(steps[j], resource);
      }
      if Writes(last, resource) {
        forall i | 0 <= i < |front| && Writes(front[i], resource)
          ensures Reaches(g, last.id, front[i].id)
        {
          assert Writes(steps[i], resource) && Writes(steps[|front|], resource);
        }
      }
    }
  }

  /** A plan is accepted exactly when it is well shaped and no two steps write a resource unordered. */
  lemma AcceptedPlans(steps: seq<PlanStep>)
    requires Shaped(steps) && DistinctLocks(steps)
    ensures !Cyclic(GraphOf(steps))
    ensures AllChains(GraphOf(steps), steps) <==> AllSerialized(GraphOf(steps), steps)
  {
    hide GraphOf, RankOf, WritersOf, Reaches, Chain, WritersSerialized, Ranked, Cyclic;
    var g, rank := GraphOf(steps), RankOf(steps);
    ShapedIsRanked(steps);
    RankedIsAcyclic(g, rank);
    StepsByRank(steps);
    if AllChains(g, steps) {
      forall r
        ensures WritersSerialized(g, steps, r)
      {
        ChainMeaning(g, rank, steps, r);
        assert Chain(g, WritersOf(steps, r));
      }
    }
    if AllSerialized(g, steps) {
      forall r
        ensures Chain(g, WritersOf(steps, r))
      {
        ChainMeaning(g, rank, steps, r);
      }
    }
  }

  lemma StepsByRank(steps: seq<PlanStep>)
    requires Shaped(steps)
    ensures forall s | s in steps :: s.id in GraphOf(steps) && s.id in RankOf(steps)
    ensures forall i, j | 0 <= i < j < |steps| :: RankOf(steps)[steps[i].id] < RankOf(steps)[steps[j].id]
  {
    hide GraphOf, RankOf, ProducersListed, DependsBackwards, Outputs;
    forall i | 0 <= i < |steps|
      ensures steps[i].id in GraphOf(steps) && steps[i].id in RankOf(steps)
      ensures RankOf(steps)[steps[i].id] == steps[i].ordinal
    {
      GraphAt(steps, i);
    }
  }
}
