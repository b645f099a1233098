/** The worktree barrier of src/dispatcher/workspaces.py over an abstract Git repository: commits form a
    growing DAG, branches point at commits, and linked worktrees have a branch checked out.

    How a Git command ends is taken from a script that nothing constrains.  A command can work, it can
    fail without effect, or it can be cut off: then it reports a failure although all or part of its
    effect took place.  A merge that does not work may leave its worktree dirty.
 */
module Worktrees {
  import opened Common

  type Commit = nat

  /** The parents of every commit; a parent is older than its child. */
  type Commits = seq<seq<Commit>>

  predicate WellFounded(commits: Commits) {
    forall c, p | 0 <= c < |commits| && p in commits[c] :: p < c
  }

  /** `merge-base --is-ancestor`. */
  predicate IsAncestor(commits: Commits, a: Commit, c: Commit)
    requires WellFounded(commits) && c < |commits|
    decreases c
  {
    a == c || exists p :: p in commits[c] && p < c && IsAncestor(commits, a, p)
  }

  lemma {:induction false} AncestorTransitive(commits: Commits, a: Commit, b: Commit, c: Commit)
    requires WellFounded(commits) && b < |commits| && c < |commits|
    requires IsAncestor(commits, a, b) && IsAncestor(commits, b, c)
    ensures IsAncestor(commits, a, c)
    decreases c
  {
    if b != c {
      var p :| p in commits[c] && p < c && IsAncestor(commits, b, p);
      AncestorTransitive(commits, a, b, p);
    }
  }

  lemma {:induction false} AncestorGrows(commits: Commits, later: Commits, a: Commit, c: Commit)
    requires WellFounded(commits) && WellFounded(later) && commits <= later && c < |commits|
    ensures IsAncestor(later, a, c) <==> IsAncestor(commits, a, c)
    decreases c
  {
    assert later[c] == commits[c];
    forall p | p in commits[c]
      ensures IsAncestor(later, a, p) <==> IsAncestor(commits, a, p)
    {
      AncestorGrows(commits, later, a, p);
    }
  }

  datatype Tree = Tree(branch: string, clean: bool)

  /** `Cut` reports failure; `first` says whether the effect took place all the same.  For a worktree
      that is being added, `first` is the branch, `second` the path, and `linked` whether Git knows it. */
  datatype Answer = Works | Fails | Cut(first: bool, second: bool, linked: bool)

  predicate Took(a: Answer) { a.Works? || (a.Cut? && a.first) }

  datatype Child = Child(branch: string, path: string)

  datatype GroupState = Prepared | Active | Integrating | CleanupPending | Cleaned | Failed

  datatype Group = Group(base: Commit, baseBranch: string, children: seq<Child>, integration: Child, state: GroupState)

  /** WorkspaceGroup.validate_children, and the naming of `plan_group`: no branch and no path twice. */
  predicate ValidGroup(g: Group) {
    && g.children != []
    && (forall i, j | 0 <= i < j < |g.children| ::
          g.children[i].branch != g.children[j].branch && g.children[i].path != g.children[j].path)
    && (forall c | c in g.children :: c.branch != g.integration.branch && c.path != g.integration.path)
    && (forall c | c in g.children + [g.integration] :: c.branch != g.baseBranch)
  }

  function Owned(g: Group): seq<Child> {
    g.children + [g.integration]
  }

  function BranchesOf(s: seq<Child>): set<string> { set c | c in s :: c.branch }

  function PathsOf(s: seq<Child>): set<string> { set c | c in s :: c.path }

  type Refs = map<string, Commit>

  type Linked = map<string, Tree>

  /** Nothing but these names may have changed. */
  ghost predicate Only<T(!new)>(before: map<string, T>, after: map<string, T>, names: set<string>) {
    forall x | x !in names :: (x in before <==> x in after) && (x in before ==> after[x] == before[x])
  }

  /** A child's branch exists, and its worktree has it checked out without changes. */
  predicate Placed(branches: Refs, trees: Linked, c: Child) {
    c.branch in branches && c.path in trees && trees[c.path] == Tree(c.branch, true)
  }

  class Repository {
    const script: nat -> Answer
    var cursor: nat
    var commits: Commits
    var branches: Refs
    var trees: Linked
    /** Paths that exist without being linked worktrees. */
    var strays: set<string>
    /** The branch checked out in the source worktree. */
    var current: string

    predicate Valid()
      reads this`commits, this`branches, this`trees, this`strays, this`current
    {
      && WellFounded(commits)
      && (forall b | b in branches :: branches[b] < |commits|)
      && (forall p | p in trees :: trees[p].branch in branches && trees[p].branch != current)
      && (forall p, q | p in trees && q in trees && p != q :: trees[p].branch != trees[q].branch)
      && strays !! trees.Keys
      && current in branches
    }

    constructor (script: nat -> Answer, commits: Commits, branches: Refs, trees: Linked, current: string)
      ensures this.script == script && cursor == 0 && this.commits == commits && this.branches == branches
      ensures this.trees == trees && strays == {} && this.current == current
    {
      this.script := script;
      this.cursor := 0;
      this.commits := commits;
      this.branches := branches;
      this.trees := trees;
      this.strays := {};
      this.current := current;
    }

    /** Every command from now on works as far as Git allows it. */
    ghost predicate Calm()
      reads this`cursor
    {
      forall n | n >= cursor :: script(n).Works?
    }

    function Head(): Commit
      requires Valid()
      reads this`commits, this`branches, this`trees, this`strays, this`current
    {
      branches[current]
    }

    predicate PathExists(path: string)
      reads this`trees, this`strays
    {
      path in trees || path in strays
    }

    /** `git worktree add -b`.  The result is whether it worked, and whether it left something when it did not. */
    method WorktreeAdd(child: Child, base: Commit) returns (ok: bool, ghost left: bool)
      requires Valid() && base < |commits|
      modifies this`cursor, this`branches, this`trees, this`strays
      ensures Valid() && cursor == old(cursor) + 1
      ensures ok <==> script(old(cursor)).Works? && child.branch !in old(branches) && !old(PathExists(child.path))
      ensures ok ==> branches == old(branches)[child.branch := base] && strays == old(strays) &&
                     trees == old(trees)[child.path := Tree(child.branch, true)]
      ensures !ok && !left ==> branches == old(branches) && trees == old(trees) && strays == old(strays)
      ensures left ==> !ok && child.branch !in old(branches) && !old(PathExists(child.path))
      ensures left ==> child.branch in branches || PathExists(child.path)
      ensures Only(old(branches), branches, {child.branch}) && Only(old(trees), trees, {child.path})
      ensures old(strays) <= strays <= old(strays) + {child.path}
    {
      var a := script(cursor);
      var possible := child.branch !in branches && !PathExists(child.path);
      cursor := cursor + 1;
      ok := possible && a.Works?;
      left := possible && a.Cut? && (a.first || a.second);
      if possible && Took(a) {
        branches := branches[child.branch := base];
      }
      if ok {
        trees := trees[child.path := Tree(child.branch, true)];
      } else if possible && a.Cut? && a.second {
        if a.first && a.linked {
          trees := trees[child.path := Tree(child.branch, false)];
        } else {
          strays := strays + {child.path};
        }
      }
    }

    /** `git merge --no-ff` in a linked worktree; nothing happens when there is nothing to merge. */
    method MergeInto(path: string, branch: string) returns (ok: bool)
      requires Valid() && path in trees
      modifies this`cursor, this`commits, this`branches, this`trees
      ensures Valid() && old(commits) <= commits && cursor == old(cursor) + 1
      ensures ok <==> script(old(cursor)).Works? && branch in old(branches)
      ensures Only(old(branches), branches, {old(trees)[path].branch}) && Only(old(trees), trees, {path})
      ensures branches.Keys == old(branches).Keys && old(trees)[path].branch in branches
      ensures IsAncestor(commits, old(branches[trees[path].branch]), branches[old(trees)[path].branch])
      ensures ok ==> IsAncestor(commits, branches[branch], branches[old(trees)[path].branch])
      ensures ok ==> trees == old(trees)
    {
      var a := script(cursor);
      var own := trees[path].branch;
      cursor := cursor + 1;
      ok := a.Works? && branch in branches;
      if !ok {
        trees := trees[path := Tree(own, false)];
      }
      if Took(a) && branch in branches && !IsAncestor(commits, branches[branch], branches[own]) {
        ghost var before := commits;
        var head, other := branches[own], branches[branch];
        commits := commits + [[head, other]];
        branches := branches[own := |commits| - 1];
        AncestorGrows(before, commits, other, other);
        AncestorGrows(before, commits, head, head);
        assert other in commits[|commits| - 1] && head in commits[|commits| - 1];
      }
    }

    /** `git merge --ff-only` in the source worktree. */
    method FastForward(branch: string) returns (ok: bool, ghost took: bool)
      requires Valid()
      modifies this`cursor, this`branches
      ensures Valid() && cursor == old(cursor) + 1
      ensures took <==> Took(script(old(cursor))) && branch in old(branches) &&
                        IsAncestor(commits, old(branches[current]), old(branches)[branch])
      ensures ok <==> took && script(old(cursor)).Works?
      ensures branches == if took then old(branches)[current := old(branches)[branch]] else old(branches)
    {
      var a := script(cursor);
      var possible := branch in branches && IsAncestor(commits, branches[current], branches[branch]);
      cursor := cursor + 1;
      ok, took := possible && a.Works?, possible && Took(a);
      if possible && Took(a) {
        branches := branches[current := branches[branch]];
      }
    }

    /** `git worktree remove`; without force a dirty worktree stays, and a path Git does not know always does. */
    method WorktreeRemove(path: string, force: bool) returns (ok: bool, ghost took: bool)
      requires Valid() && PathExists(path)
      modifies this`cursor, this`trees
      ensures Valid() && cursor == old(cursor) + 1
      ensures took <==> Took(script(old(cursor))) && path in old(trees) && (force || old(trees)[path].clean)
      ensures ok <==> took && script(old(cursor)).Works?
      ensures took ==> trees == old(trees) - {path}
      ensures !took ==> trees.Keys == old(trees).Keys && Only(old(trees), trees, {path})
      ensures path in trees ==> trees[path].branch == old(trees)[path].branch
    {
      var a := script(cursor);
      var possible := path in trees && (force || trees[path].clean);
      cursor := cursor + 1;
      ok, took := possible && a.Works?, possible && Took(a);
      if possible && Took(a) {
        trees := trees - {path};
      } else if possible && a.Cut? && a.second {
        trees := trees[path := trees[path].(clean := false)];
      }
    }

    /** Git never deletes a branch that is checked out, and without force only one that is merged into
        the source head. */
    predicate Deletable(branch: string, force: bool)
      requires Valid()
      reads this`commits, this`branches, this`trees, this`strays, this`current
    {
      && branch in branches && branch != current
      && (forall p | p in trees :: trees[p].branch != branch)
      && (force || IsAncestor(commits, branches[branch], Head()))
    }

    /** `git branch -d` or, with force, `-D`. */
    method BranchDelete(branch: string, force: bool) returns (ok: bool, ghost took: bool)
      requires Valid()
      modifies this`cursor, this`branches
      ensures Valid() && cursor == old(cursor) + 1
      ensures took <==> Took(script(old(cursor))) && old(Deletable(branch, force))
      ensures ok <==> took && script(old(cursor)).Works?
      ensures branches == if took then old(branches) - {branch} else old(branches)
    {
      var a := script(cursor);
      var possible := Deletable(branch, force);
      cursor := cursor + 1;
      ok, took := possible && a.Works?, possible && Took(a);
      if possible && Took(a) {
        branches := branches - {branch};
      }
    }

    /** A command that only reads. */
    method Query() returns (ok: bool)
      modifies this`cursor
      ensures ok == script(old(cursor)).Works? && cursor == old(cursor) + 1
    {
      ok := script(cursor).Works?;
      cursor := cursor + 1;
    }
  }

  // ---------------------------------------------------------------------------------------------
  // Maps and names

  predicate DistinctNames(s: seq<Child>) {
    forall i, j | 0 <= i < j < |s| :: s[i].branch != s[j].branch && s[i].path != s[j].path
  }

  lemma OnlyWider<T(!new)>(before: map<string, T>, after: map<string, T>, names: set<string>, wider: set<string>)
    requires Only(before, after, names) && names <= wider
    ensures Only(before, after, wider)
  {
  }

  lemma OnlyWithout<T(!new)>(m: map<string, T>, names: set<string>)
    ensures Only(m, m - names, names) && Only(m, m, names)
  {
  }

  lemma Without<T>(m: map<string, T>, names: set<string>, x: string)
    ensures (m - names) - {x} == m - (names + {x})
  {
  }

  lemma Inserted<T>(m: map<string, T>, names: set<string>, x: string, v: T)
    requires x !in m
    ensures m[x := v] - (names + {x}) == m - names
  {
  }

  lemma NoNames<T>(m: map<string, T>)
    ensures m - BranchesOf([]) == m && m - PathsOf([]) == m
  {
  }

  lemma NamesNext(s: seq<Child>, i: nat)
    requires i < |s|
    ensures s[..i + 1] == s[..i] + [s[i]]
    ensures BranchesOf(s[..i + 1]) == BranchesOf(s[..i]) + {s[i].branch}
    ensures PathsOf(s[..i + 1]) == PathsOf(s[..i]) + {s[i].path}
  {
  }

  lemma NamesPrevious(s: seq<Child>, k: nat)
    requires k < |s|
    ensures s[k..] == [s[k]] + s[k + 1..]
    ensures BranchesOf(s[k..]) == BranchesOf(s[k + 1..]) + {s[k].branch}
    ensures PathsOf(s[k..]) == PathsOf(s[k + 1..]) + {s[k].path}
  {
  }

  lemma NamesOfPart(s: seq<Child>, i: nat)
    requires i <= |s|
    ensures BranchesOf(s[..i]) <= BranchesOf(s) && PathsOf(s[..i]) <= PathsOf(s)
  {
  }

  lemma Apart(s: seq<Child>, i: nat)
    requires DistinctNames(s) && i < |s|
    ensures s[i].branch !in BranchesOf(s[..i]) && s[i].path !in PathsOf(s[..i])
    ensures forall c | c in s[..i] :: c.branch != s[i].branch && c.path != s[i].path
  {
  }

  lemma OwnedNames(g: Group)
    requires ValidGroup(g)
    ensures DistinctNames(Owned(g)) && DistinctNames(g.children)
    ensures Owned(g)[..|g.children|] == g.children && Owned(g)[|g.children|] == g.integration
    ensures forall c | c in g.children :: c in Owned(g)
    ensures forall i | 0 <= i <= |g.children| :: Owned(g)[..i] == g.children[..i]
    ensures forall c | c in Owned(g) :: c.branch != g.baseBranch
  {
    forall i, j | 0 <= i < j < |Owned(g)|
      ensures Owned(g)[i].branch != Owned(g)[j].branch && Owned(g)[i].path != Owned(g)[j].path
    {
      assert g.children[i] in g.children;
    }
  }

  /** Some of these branches is there. */
  predicate Stuck(branches: Refs, s: seq<Child>) {
    exists c :: c in s && c.branch in branches
  }

  lemma StillStuck(before: Refs, after: Refs, created: seq<Child>, k: nat, undone: bool)
    requires DistinctNames(created) && k < |created|
    requires undone ==> created[k].branch in after
    requires !undone ==> Stuck(before, created[k + 1..])
    requires Only(before, after, {created[k].branch})
    ensures Stuck(after, created[k..])
  {
    assert created[k] == created[k..][0];
    if !undone {
      var c :| c in created[k + 1..] && c.branch in before;
      var j :| 0 <= j < |created[k + 1..]| && created[k + 1..][j] == c;
      assert created[k..][j + 1] == c && created[k + 1 + j] == c;
    }
  }

  lemma StuckIsNotGone(branches: Refs, before: Refs, created: seq<Child>)
    requires Stuck(branches, created)
    ensures branches != before - BranchesOf(created)
  {
    var c :| c in created && c.branch in branches;
    assert c.branch in BranchesOf(created);
  }

  lemma StillPlaced(branches: Refs, trees: Linked, branches': Refs, trees': Linked, s: seq<Child>, c: Child)
    requires forall d | d in s :: Placed(branches, trees, d) && d.branch != c.branch && d.path != c.path
    requires Only(branches, branches', {c.branch}) && Only(trees, trees', {c.path})
    ensures forall d | d in s :: Placed(branches', trees', d)
  {
  }

  // ---------------------------------------------------------------------------------------------
  // What a repository holds, as a value

  datatype State = State(commits: Commits, branches: Refs, trees: Linked, strays: set<string>, current: string)

  /** A branch is an ancestor of another one. */
  predicate Reaches(s: State, branch: string, from: string) {
    && WellFounded(s.commits) && branch in s.branches && from in s.branches && s.branches[from] < |s.commits|
    && IsAncestor(s.commits, s.branches[branch], s.branches[from])
  }

  /** What the non-force checks look at: a worktree that is there is clean and on its own branch, a branch
      that is there is merged into the source head. */
  predicate Removable(s: State, c: Child) {
    && c.path !in s.strays
    && (c.path in s.trees ==> s.trees[c.path] == Tree(c.branch, true))
    && (c.branch in s.branches ==> Reaches(s, c.branch, s.current))
  }

  /** Git removes the worktree, if there is one, and then the branch; the worktrees of `gone` are removed
      by then.  `optional` says that the branch need not exist. */
  predicate Goes(s: State, c: Child, gone: set<string>, force: bool, optional: bool) {
    && c.path !in s.strays
    && (c.path in s.trees ==> force || s.trees[c.path].clean)
    && (c.branch in s.branches || optional)
    && (c.branch in s.branches ==>
          && c.branch != s.current
          && (forall p | p in s.trees && s.trees[p].branch == c.branch :: p in gone)
          && (force || Reaches(s, c.branch, s.current)))
  }

  /** What the removal of the owned worktree at position `i` needs, seen from the state before the cleanup. */
  predicate GoesAt(s: State, g: Group, i: nat, force: bool)
    requires i <= |g.children|
  {
    Goes(s, Owned(g)[i], PathsOf(Owned(g)[..i + 1]), force, i == |g.children|)
  }

  /** The exact condition for a cleanup to succeed, when Git answers. */
  predicate CleanupWorks(s: State, g: Group, force: bool) {
    && g.state.CleanupPending?
    && (force || forall c | c in Owned(g) :: Removable(s, c))
    && forall i | 0 <= i <= |g.children| :: GoesAt(s, g, i, force)
  }

  /** Without force the condition is short: every worktree that is there is clean and on its own branch,
      every branch that is there is merged, and only the integration branch may be missing. */
  lemma CleanupWorksMeans(s: State, g: Group)
    requires ValidGroup(g) && g.state.CleanupPending? && s.current == g.baseBranch
    requires forall p | p in s.trees :: s.trees[p].branch in BranchesOf(Owned(g)) ==> p in PathsOf(Owned(g))
    ensures CleanupWorks(s, g, false) <==>
            (forall c | c in Owned(g) :: Removable(s, c)) && (forall c | c in g.children :: c.branch in s.branches)
  {
    hide Reaches;
    OwnedNames(g);
    if forall c | c in Owned(g) :: Removable(s, c) {
      forall i | 0 <= i <= |g.children|
        ensures GoesAt(s, g, i, false) <==> (i == |g.children| || Owned(g)[i].branch in s.branches)
      {
        assert Owned(g)[i] in Owned(g);
        OwnTreeOnly(s, g, i);
      }
      forall c | c in g.children && (forall i | 0 <= i <= |g.children| :: GoesAt(s, g, i, false))
        ensures c.branch in s.branches
      {
        var i :| 0 <= i < |g.children| && g.children[i] == c;
        assert GoesAt(s, g, i, false);
      }
      forall i | 0 <= i < |g.children|
        ensures Owned(g)[i] in g.children
      {
        assert Owned(g)[i] == g.children[i];
      }
    }
  }

  /** When every worktree is on its own branch, a branch is checked out nowhere else. */
  lemma OwnTreeOnly(s: State, g: Group, i: nat)
    requires ValidGroup(g) && i <= |g.children|
    requires forall c | c in Owned(g) :: Removable(s, c)
    requires forall p | p in s.trees :: s.trees[p].branch in BranchesOf(Owned(g)) ==> p in PathsOf(Owned(g))
    ensures forall p | p in s.trees && s.trees[p].branch == Owned(g)[i].branch :: p in PathsOf(Owned(g)[..i + 1])
  {
    hide Reaches;
    OwnedNames(g);
    var c := Owned(g)[i];
    assert c in Owned(g) && Owned(g)[..i + 1][i] == c;
    forall p | p in s.trees && s.trees[p].branch == c.branch
      ensures p == c.path
    {
      var d :| d in Owned(g) && d.path == p;
      assert Removable(s, d);
    }
  }

  /** A removal later in the list needs the same in the state before and in the state after the removals
      in front of it. */
  lemma GoesLater(s: State, later: State, c: Child, branches: set<string>, paths: set<string>, force: bool,
                  optional: bool)
    requires later == s.(branches := s.branches - branches, trees := s.trees - paths)
    requires c.branch !in branches && c.path !in paths
    requires s.current in later.branches || s.current !in s.branches
    ensures Goes(later, c, {c.path}, force, optional) <==> Goes(s, c, paths + {c.path}, force, optional)
  {
    hide IsAncestor, WellFounded;
  }

  class WorktreeManager {
    const repo: Repository

    constructor (repo: Repository)
      ensures this.repo == repo
    {
      this.repo := repo;
    }

    function Now(): State
      reads repo`commits, repo`branches, repo`trees, repo`strays, repo`current
    {
      State(repo.commits, repo.branches, repo.trees, repo.strays, repo.current)
    }

    predicate InPlace(c: Child)
      reads repo`branches, repo`trees
    {
      Placed(repo.branches, repo.trees, c)
    }

    /** Nothing but the names of these children changed. */
    ghost predicate Framed(branches0: Refs, trees0: Linked, s: seq<Child>)
      reads repo`branches, repo`trees
    {
      Only(branches0, repo.branches, BranchesOf(s)) && Only(trees0, repo.trees, PathsOf(s))
    }

    /** One change to the names of a listed child. */
    lemma FramedNext(branches0: Refs, trees0: Linked, branches1: Refs, trees1: Linked, s: seq<Child>, c: Child)
      requires c in s
      requires Only(branches0, branches1, BranchesOf(s)) && Only(trees0, trees1, PathsOf(s))
      requires Only(branches1, repo.branches, {c.branch}) && Only(trees1, repo.trees, {c.path})
      ensures Framed(branches0, trees0, s)
    {
    }

    // -------------------------------------------------------------------------------------------
    // Provision

    /** These children on top of the state before: new branches at `base`, each checked out in its own
        new worktree. */
    predicate Plus(branches0: Refs, trees0: Linked, s: seq<Child>, base: Commit)
      reads repo`branches, repo`trees
    {
      && repo.branches - BranchesOf(s) == branches0 && repo.trees - PathsOf(s) == trees0
      && forall c | c in s :: InPlace(c) && repo.branches[c.branch] == base
    }

    lemma PlusIsFramed(branches0: Refs, trees0: Linked, s: seq<Child>, base: Commit)
      requires Plus(branches0, trees0, s, base)
      ensures Framed(branches0, trees0, s)
    {
    }

    /** `_rollback_created`: the created children in reverse; failures are ignored.  All of them are gone
        exactly when every removal took place. */
    method RollbackCreated(created: seq<Child>) returns (ghost undone: bool)
      requires repo.Valid() && DistinctNames(created)
      requires forall c | c in created :: InPlace(c) && c.branch != repo.current
      modifies repo`cursor, repo`branches, repo`trees
      ensures repo.Valid()
      ensures undone <==> repo.branches == old(repo.branches) - BranchesOf(created) &&
                          repo.trees == old(repo.trees) - PathsOf(created)
      ensures Framed(old(repo.branches), old(repo.trees), created)
      ensures old(repo.Calm()) ==> undone
    {
      hide IsAncestor, WellFounded, BranchesOf, PathsOf, Only, Stuck, Placed;
      undone := true;
      ghost var branches0, trees0 := repo.branches, repo.trees;
      OnlyWithout(branches0, BranchesOf(created));
      OnlyWithout(trees0, PathsOf(created));
      NoNames(branches0);
      NoNames(trees0);
      assert created[..|created|] == created && created[|created|..] == [];
      var k := |created|;
      while k > 0
        invariant 0 <= k <= |created| && repo.Valid()
        invariant Framed(branches0, trees0, created)
        invariant forall c | c in created[..k] :: InPlace(c)
        invariant undone ==> repo.branches == branches0 - BranchesOf(created[k..]) &&
                             repo.trees == trees0 - PathsOf(created[k..])
        invariant !undone ==> Stuck(repo.branches, created[k..])
        invariant old(repo.Calm()) ==> undone && repo.Calm()
      {
        k := k - 1;
        Apart(created, k);
        NamesNext(created, k);
        NamesPrevious(created, k);
        ghost var branches1, trees1 := repo.branches, repo.trees;
        assert forall d | d in created[..k] :: d in created[..k + 1] && InPlace(d) && Placed(branches1, trees1, d);
        ghost var took := RemoveCreated(created[k]);
        FramedNext(branches0, trees0, branches1, trees1, created, created[k]);
        StillPlaced(branches1, trees1, repo.branches, repo.trees, created[..k], created[k]);
        if undone && took {
          Without(branches0, BranchesOf(created[k + 1..]), created[k].branch);
          Without(trees0, PathsOf(created[k + 1..]), created[k].path);
        } else {
          StillStuck(branches1, repo.branches, created, k, undone);
        }
        undone := undone && took;
      }
      assert created[0..] == created;
      if !undone {
        StuckIsNotGone(repo.branches, branches0, created);
      }
      var pruned := repo.Query();
    }

    method RemoveCreated(c: Child) returns (ghost took: bool)
      requires repo.Valid() && InPlace(c) && c.branch != repo.current
      modifies repo`cursor, repo`branches, repo`trees
      ensures repo.Valid()
      ensures took ==> repo.branches == old(repo.branches) - {c.branch} && repo.trees == old(repo.trees) - {c.path}
      ensures !took ==> c.branch in repo.branches
      ensures Only(old(repo.branches), repo.branches, {c.branch}) && Only(old(repo.trees), repo.trees, {c.path})
      ensures old(repo.Calm()) ==> took && repo.Calm()
    {
      hide IsAncestor, WellFounded;
      if repo.PathExists(c.path) {
        ghost var gone;
        var removed;
        removed, gone := repo.WorktreeRemove(c.path, true);
      }
      var deleted;
      deleted, took := repo.BranchDelete(c.branch, true);
    }

    /** `provision`.  A failure leaves branches and paths as they were exactly when the worktree that could
        not be added left nothing behind and every removal took place. */
    method Provision(g: Group) returns (ok: bool, ghost left: bool, ghost undone: bool)
      requires repo.Valid() && ValidGroup(g) && g.base < |repo.commits|
      modifies repo`cursor, repo`branches, repo`trees, repo`strays
      ensures repo.Valid()
      ensures ok ==>
                && g.state.Prepared? && repo.Head() == g.base && repo.strays == old(repo.strays)
                && Plus(old(repo.branches), old(repo.trees), g.children, g.base)
      ensures !ok ==> (!left && undone <==> Now() == old(Now()))
      ensures Framed(old(repo.branches), old(repo.trees), g.children)
      ensures old(repo.strays) <= repo.strays <= old(repo.strays) + PathsOf(g.children)
      ensures old(repo.Calm()) && !ok ==> !left && undone
    {
      hide IsAncestor, WellFounded, Only, BranchesOf, PathsOf, Plus;
      left, undone := false, true;
      ghost var branches0, trees0 := repo.branches, repo.trees;
      OnlyWithout(branches0, BranchesOf(g.children));
      OnlyWithout(trees0, PathsOf(g.children));
      if !g.state.Prepared? {
        return false, false, true;
      }
      var clean := repo.Query();
      if !clean || repo.Head() != g.base || repo.current != g.baseBranch {
        return false, false, true;
      }
      assert g.children[..0] == [];
      PlusNone(g.base);
      var i := 0;
      while i < |g.children|
        invariant 0 <= i <= |g.children| && repo.Valid() && repo.strays == old(repo.strays)
        invariant Plus(branches0, trees0, g.children[..i], g.base)
        invariant repo.Head() == g.base
        invariant old(repo.Calm()) ==> repo.Calm()
      {
        var added;
        added, left, undone := AddNext(g, i, branches0, trees0);
        if !added {
          return false, left, undone;
        }
        i := i + 1;
      }
      assert g.children[..|g.children|] == g.children;
      PlusIsFramed(branches0, trees0, g.children, g.base);
      return true, false, true;
    }

    lemma PlusNone(base: Commit)
      ensures Plus(repo.branches, repo.trees, [], base)
    {
      NoNames(repo.branches);
      NoNames(repo.trees);
    }

    /** Adds the worktree at position `i`, or rolls the ones before it back. */
    method AddNext(g: Group, i: nat, ghost branches0: Refs, ghost trees0: Linked)
      returns (ok: bool, ghost left: bool, ghost undone: bool)
      requires repo.Valid() && ValidGroup(g) && i < |g.children| && g.base < |repo.commits|
      requires Plus(branches0, trees0, g.children[..i], g.base)
      requires repo.Head() == g.base && repo.current == g.baseBranch
      modifies repo`cursor, repo`branches, repo`trees, repo`strays
      ensures repo.Valid() && (ok && old(repo.Calm()) ==> repo.Calm())
      ensures ok ==>
                && Plus(branches0, trees0, g.children[..i + 1], g.base)
                && repo.strays == old(repo.strays) && repo.Head() == g.base
      ensures !ok ==>
                && (!left && undone <==> Now() == old(Now()).(branches := branches0, trees := trees0))
                && Framed(branches0, trees0, g.children)
                && old(repo.strays) <= repo.strays <= old(repo.strays) + PathsOf(g.children)
                && (old(repo.Calm()) ==> !left && undone)
    {
      hide IsAncestor, WellFounded, Only, BranchesOf, PathsOf;
      var c := g.children[i];
      ghost var branches1, trees1 := repo.branches, repo.trees;
      assert forall c | c in g.children[..i] :: Placed(branches1, trees1, c) && branches1[c.branch] == g.base;
      ok, left := TryAdd(c, g.base);
      if ok {
        undone := true;
        OwnedNames(g);
        assert c in g.children;
        PlusNext(g, i, branches0, trees0, branches1, trees1);
      } else {
        KeptInPlace(g, i, branches1, trees1);
        ghost var branches2, trees2 := repo.branches, repo.trees;
        undone := RollbackCreated(g.children[..i]);
        Abandoned(g, i, branches0, trees0, branches1, trees1, branches2, trees2, old(repo.strays), left, undone);
      }
    }

    /** Adds one worktree, unless its path exists. */
    method TryAdd(c: Child, base: Commit) returns (ok: bool, ghost left: bool)
      requires repo.Valid() && base < |repo.commits|
      modifies repo`cursor, repo`branches, repo`trees, repo`strays
      ensures repo.Valid() && (old(repo.Calm()) ==> repo.Calm() && !left)
      ensures ok ==>
                && c.branch !in old(repo.branches) && c.path !in old(repo.trees) && repo.strays == old(repo.strays)
                && repo.branches == old(repo.branches)[c.branch := base]
                && repo.trees == old(repo.trees)[c.path := Tree(c.branch, true)]
      ensures Only(old(repo.branches), repo.branches, {c.branch}) && Only(old(repo.trees), repo.trees, {c.path})
      ensures !ok && !left ==> Now() == old(Now())
      ensures left ==>
                && !ok && c.branch !in old(repo.branches)
                && c.path !in old(repo.trees) && c.path !in old(repo.strays)
      ensures left ==> c.branch in repo.branches || c.path in repo.trees || c.path in repo.strays
      ensures old(repo.strays) <= repo.strays <= old(repo.strays) + {c.path}
    {
      hide IsAncestor, WellFounded;
      if repo.PathExists(c.path) {
        return false, false;
      }
      ok, left := repo.WorktreeAdd(c, base);
    }

    lemma PlusNext(g: Group, i: nat, branches0: Refs, trees0: Linked, branches1: Refs, trees1: Linked)
      requires ValidGroup(g) && i < |g.children|
      requires branches1 - BranchesOf(g.children[..i]) == branches0 && trees1 - PathsOf(g.children[..i]) == trees0
      requires forall c | c in g.children[..i] :: Placed(branches1, trees1, c) && branches1[c.branch] == g.base
      requires g.children[i].branch !in branches1 && g.children[i].path !in trees1
      requires repo.branches == branches1[g.children[i].branch := g.base]
      requires repo.trees == trees1[g.children[i].path := Tree(g.children[i].branch, true)]
      ensures Plus(branches0, trees0, g.children[..i + 1], g.base)
    {
      hide BranchesOf, PathsOf;
      var c := g.children[i];
      OwnedNames(g);
      Apart(g.children, i);
      NamesNext(g.children, i);
      Inserted(branches1, BranchesOf(g.children[..i]), c.branch, g.base);
      Inserted(trees1, PathsOf(g.children[..i]), c.path, Tree(c.branch, true));
    }

    lemma KeptInPlace(g: Group, i: nat, branches1: Refs, trees1: Linked)
      requires ValidGroup(g) && i < |g.children|
      requires forall c | c in g.children[..i] :: Placed(branches1, trees1, c)
      requires Only(branches1, repo.branches, {g.children[i].branch}) && Only(trees1, repo.trees, {g.children[i].path})
      ensures forall c | c in g.children[..i] :: InPlace(c) && c.branch != g.baseBranch
      ensures DistinctNames(g.children[..i])
    {
      OwnedNames(g);
      Apart(g.children, i);
      StillPlaced(branches1, trees1, repo.branches, repo.trees, g.children[..i], g.children[i]);
      forall c | c in g.children[..i]
        ensures c in g.children
      {
      }
    }

    /** The state after a worktree could not be added and the ones before it were rolled back. */
    lemma Abandoned(g: Group, i: nat, branches0: Refs, trees0: Linked, branches1: Refs, trees1: Linked,
                    branches2: Refs, trees2: Linked, strays0: set<string>, left: bool, undone: bool)
      requires ValidGroup(g) && i < |g.children|
      requires branches1 - BranchesOf(g.children[..i]) == branches0 && trees1 - PathsOf(g.children[..i]) == trees0
      requires Only(branches1, branches2, {g.children[i].branch}) && Only(trees1, trees2, {g.children[i].path})
      requires strays0 <= repo.strays <= strays0 + {g.children[i].path}
      requires !left ==> branches2 == branches1 && trees2 == trees1 && repo.strays == strays0
      requires left ==> g.children[i].branch !in branches1 && g.children[i].path !in trees1 &&
                        g.children[i].path !in strays0
      requires left ==> g.children[i].branch in branches2 || g.children[i].path in trees2 ||
                        g.children[i].path in repo.strays
      requires undone <==> repo.branches == branches2 - BranchesOf(g.children[..i]) &&
                           repo.trees == trees2 - PathsOf(g.children[..i])
      requires Framed(branches2, trees2, g.children[..i])
      ensures !left && undone <==> repo.branches == branches0 && repo.trees == trees0 && repo.strays == strays0
      ensures Framed(branches0, trees0, g.children)
      ensures strays0 <= repo.strays <= strays0 + PathsOf(g.children)
    {
      hide BranchesOf, PathsOf, Only;
      var c := g.children[i];
      OwnedNames(g);
      Apart(g.children, i);
      NamesOfPart(g.children, i);
      NamesOfPart(g.children, i + 1);
      NamesNext(g.children, i);
      if left {
        LeftStays(branches1, branches2, repo.branches, BranchesOf(g.children[..i]), c.branch);
        LeftStays(trees1, trees2, repo.trees, PathsOf(g.children[..i]), c.path);
      }
      Chain(branches1, branches2, repo.branches, BranchesOf(g.children[..i]), c.branch, BranchesOf(g.children));
      Chain(trees1, trees2, repo.trees, PathsOf(g.children[..i]), c.path, PathsOf(g.children));
    }

    lemma LeftStays<T(!new)>(first: map<string, T>, second: map<string, T>, third: map<string, T>, names: set<string>,
                             x: string)
      requires x !in first && x !in names && Only(second, third, names)
      ensures x in second ==> third != first - names
    {
    }

    lemma Chain<T(!new)>(first: map<string, T>, second: map<string, T>, third: map<string, T>, names: set<string>,
                         x: string,
                   wider: set<string>)
      requires Only(first, second, {x}) && Only(second, third, names) && names <= wider && x in wider
      ensures Only(first - names, third, wider)
    {
    }

    // -------------------------------------------------------------------------------------------
    // Integration

    /** A child's branch is merged into the source head. */
    predicate Merged(c: Child)
      reads repo`commits, repo`branches, repo`trees, repo`strays, repo`current
    {
      Reaches(Now(), c.branch, repo.current)
    }

    /** Commands of the script from one index up to another one all work. */
    ghost predicate Work(first: nat, end: nat) {
      forall n | first <= n < end :: repo.script(n).Works?
    }

    /** The integration reaches the promotion of the source branch: the source has not moved, the integration
        names are new, the children's branches are there, and the commands in front of the promotion work.
        Only the answer of `show-ref`, the second command, does not matter. */
    ghost predicate Promotable(g: Group)
      reads repo`cursor, repo`commits, repo`branches, repo`trees, repo`strays, repo`current
    {
      && Openable(g)
      && (forall c | c in g.children :: c.branch in repo.branches)
      && Work(repo.cursor + 3, repo.cursor + 3 + |g.children|)
    }

    ghost predicate Openable(g: Group)
      reads repo`cursor, repo`commits, repo`branches, repo`trees, repo`strays, repo`current
    {
      && repo.Valid() && g.state.Integrating? && repo.Head() == g.base && repo.current == g.baseBranch
      && !repo.PathExists(g.integration.path) && g.integration.branch !in repo.branches
      && repo.script(repo.cursor).Works? && repo.script(repo.cursor + 2).Works?
    }

    /** `integrate`.  The source branch is promoted when everything before the promotion works and the
        fast-forward takes effect; then it reaches the base and every owned branch.  The integration can
        fail all the same: when the fast-forward is cut off, or when the read of the new head fails. */
    method Integrate(g: Group) returns (ok: bool, ghost promoted: bool)
      requires repo.Valid() && ValidGroup(g) && g.base < |repo.commits|
      modifies repo`cursor, repo`commits, repo`branches, repo`trees, repo`strays
      ensures repo.Valid() && old(repo.commits) <= repo.commits
      ensures promoted <==> old(Promotable(g)) && Took(repo.script(old(repo.cursor) + 3 + |g.children|))
      ensures ok <==> promoted && Work(old(repo.cursor) + 3 + |g.children|, old(repo.cursor) + 5 + |g.children|)
      ensures promoted ==>
                && repo.current == g.baseBranch && g.integration.branch in repo.branches
                && repo.Head() == repo.branches[g.integration.branch]
                && IsAncestor(repo.commits, g.base, repo.Head())
                && (forall c | c in Owned(g) :: Merged(c))
                && InPlace(g.integration)
                && (forall c | c in g.children && old(InPlace(c)) :: InPlace(c))
                && repo.trees == old(repo.trees)[g.integration.path := Tree(g.integration.branch, true)]
                && repo.strays == old(repo.strays)
      ensures !promoted ==> repo.Head() == old(repo.Head())
      ensures Only(old(repo.branches), repo.branches, {g.integration.branch, repo.current})
      ensures Only(old(repo.trees), repo.trees, {g.integration.path})
      ensures old(repo.strays) <= repo.strays <= old(repo.strays) + {g.integration.path}
    {
      hide IsAncestor, WellFounded, ValidGroup, Only, Placed, Reaches, Promotable, Merged;
      var merged := MergeAll(g);
      OnlyWider(old(repo.branches), repo.branches, {g.integration.branch}, {g.integration.branch, repo.current});
      if !merged {
        return false, false;
      }
      MergedUnder(g, old(repo.branches), repo.trees);
      ghost var branches1 := repo.branches;
      ok, promoted := repo.FastForward(g.integration.branch);
      if promoted {
        AfterPromotion(g, old(repo.branches), old(repo.trees), branches1);
      }
      if ok {
        ok := repo.Query();
      }
    }

    lemma AfterPromotion(g: Group, branches0: Refs, trees0: Linked, branches1: Refs)
      requires repo.Valid() && ValidGroup(g) && repo.current in branches1 && g.integration.branch in branches1
      requires Only(branches0, branches1, {g.integration.branch}) && g.integration.branch != repo.current
      requires repo.branches == branches1[repo.current := branches1[g.integration.branch]]
      requires repo.trees == trees0[g.integration.path := Tree(g.integration.branch, true)]
      requires forall c | c in Owned(g) ::
                 && c.branch in branches1 && c.branch != repo.current
                 && branches1[c.branch] < |repo.commits| && branches1[g.integration.branch] < |repo.commits|
                 && IsAncestor(repo.commits, branches1[c.branch], branches1[g.integration.branch])
      ensures forall c | c in Owned(g) :: Merged(c)
      ensures InPlace(g.integration)
      ensures forall c | c in g.children && Placed(branches0, trees0, c) :: InPlace(c)
      ensures Only(branches0, repo.branches, {g.integration.branch, repo.current})
    {
      hide IsAncestor, WellFounded;
      OwnedNames(g);
    }

    /** Everything before the source branch is promoted. */
    method MergeAll(g: Group) returns (ok: bool)
      requires repo.Valid() && ValidGroup(g) && g.base < |repo.commits|
      modifies repo`cursor, repo`commits, repo`branches, repo`trees, repo`strays
      ensures repo.Valid() && old(repo.commits) <= repo.commits
      ensures ok <==> old(Promotable(g))
      ensures Only(old(repo.branches), repo.branches, {g.integration.branch})
      ensures Only(old(repo.trees), repo.trees, {g.integration.path})
      ensures old(repo.strays) <= repo.strays <= old(repo.strays) + {g.integration.path}
      ensures repo.current in old(repo.branches) && repo.Head() == old(repo.Head())
      ensures ok ==>
                && repo.Head() == g.base
                && repo.cursor == old(repo.cursor) + 3 + |g.children| && repo.strays == old(repo.strays)
                && Merging(g, old(repo.branches),
                           old(repo.trees)[g.integration.path := Tree(g.integration.branch, true)], |g.children|)
    {
      hide IsAncestor, WellFounded, ValidGroup, Merging;
      ghost var before := repo.branches;
      ok := OpenIntegration(g);
      if ok {
        OwnedNames(g);
        assert g.integration in Owned(g);
        ok := MergeChildren(g, before);
      }
    }

    /** The checks and the new worktree. */
    method OpenIntegration(g: Group) returns (ok: bool)
      requires repo.Valid() && g.base < |repo.commits|
      modifies repo`cursor, repo`branches, repo`trees, repo`strays
      ensures repo.Valid() && (ok <==> old(Openable(g)))
      ensures Only(old(repo.branches), repo.branches, {g.integration.branch})
      ensures Only(old(repo.trees), repo.trees, {g.integration.path})
      ensures old(repo.strays) <= repo.strays <= old(repo.strays) + {g.integration.path}
      ensures repo.current in old(repo.branches) && repo.Head() == old(repo.Head())
      ensures ok ==>
                && repo.cursor == old(repo.cursor) + 3 && repo.strays == old(repo.strays)
                && repo.branches == old(repo.branches)[g.integration.branch := g.base]
                && repo.trees == old(repo.trees)[g.integration.path := Tree(g.integration.branch, true)]
    {
      hide IsAncestor, WellFounded, Only;
      OnlyWithout(repo.branches, {g.integration.branch});
      OnlyWithout(repo.trees, {g.integration.path});
      if !g.state.Integrating? {
        return false;
      }
      var clean := repo.Query();
      if !clean || repo.Head() != g.base || repo.current != g.baseBranch {
        return false;
      }
      if repo.PathExists(g.integration.path) {
        return false;
      }
      var seen := repo.Query();
      if seen && g.integration.branch in repo.branches {
        return false;
      }
      ghost var left;
      ok, left := AddIntegration(g);
    }

    method AddIntegration(g: Group) returns (ok: bool, ghost left: bool)
      requires repo.Valid() && g.base < |repo.commits|
      modifies repo`cursor, repo`branches, repo`trees, repo`strays
      ensures repo.Valid() && repo.cursor == old(repo.cursor) + 1
      ensures ok <==> repo.script(old(repo.cursor)).Works? && g.integration.branch !in old(repo.branches) &&
                      !old(repo.PathExists(g.integration.path))
      ensures Only(old(repo.branches), repo.branches, {g.integration.branch})
      ensures Only(old(repo.trees), repo.trees, {g.integration.path})
      ensures old(repo.strays) <= repo.strays <= old(repo.strays) + {g.integration.path}
      ensures repo.current in old(repo.branches) && repo.Head() == old(repo.Head())
      ensures ok ==>
                && repo.strays == old(repo.strays)
                && repo.branches == old(repo.branches)[g.integration.branch := g.base]
                && repo.trees == old(repo.trees)[g.integration.path := Tree(g.integration.branch, true)]
    {
      hide IsAncestor, WellFounded;
      ok, left := repo.WorktreeAdd(g.integration, g.base);
    }

    /** Once every child is merged into the integration branch, the source head reaches them all when it
        is moved there. */
    lemma MergedUnder(g: Group, before: Refs, trees0: Linked)
      requires ValidGroup(g) && Merging(g, before, trees0, |g.children|)
      ensures g.integration.branch != repo.current
      ensures forall c | c in Owned(g) ::
                && c.branch in repo.branches && c.branch != repo.current
                && IsAncestor(repo.commits, repo.branches[c.branch], repo.branches[g.integration.branch])
    {
      hide IsAncestor, WellFounded;
      OwnedNames(g);
      assert g.integration in Owned(g);
      assert g.children[..|g.children|] == g.children;
      ReachesItself(repo.commits, repo.branches[g.integration.branch]);
    }

    lemma ReachesItself(commits: Commits, c: Commit)
      requires WellFounded(commits) && c < |commits|
      ensures IsAncestor(commits, c, c)
    {
    }

    /** Where the merging stands after `i` children. */
    ghost predicate Merging(g: Group, before: Refs, trees0: Linked, i: nat)
      requires i <= |g.children|
      reads repo`commits, repo`branches, repo`trees, repo`strays, repo`current
    {
      && repo.Valid() && repo.current == g.baseBranch
      && repo.trees == trees0 && g.integration.path in repo.trees
      && repo.trees[g.integration.path].branch == g.integration.branch
      && Only(before, repo.branches, {g.integration.branch})
      && g.integration.branch in repo.branches
      && IsAncestor(repo.commits, g.base, repo.branches[g.integration.branch])
      && forall c | c in g.children[..i] ::
           c.branch in repo.branches &&
           IsAncestor(repo.commits, repo.branches[c.branch], repo.branches[g.integration.branch])
    }

    /** The merge loop, in the integration worktree. */
    method MergeChildren(g: Group, ghost before: Refs) returns (ok: bool)
      requires repo.Valid() && ValidGroup(g) && g.base < |repo.commits| && repo.current == g.baseBranch
      requires repo.branches == before[g.integration.branch := g.base]
      requires g.integration.path in repo.trees && repo.trees[g.integration.path] == Tree(g.integration.branch, true)
      modifies repo`cursor, repo`commits, repo`branches, repo`trees
      ensures repo.Valid() && old(repo.commits) <= repo.commits
      ensures Only(before, repo.branches, {g.integration.branch})
      ensures Only(old(repo.trees), repo.trees, {g.integration.path})
      ensures ok <==> Work(old(repo.cursor), old(repo.cursor) + |g.children|) &&
                      forall c | c in g.children :: c.branch in before
      ensures ok ==> repo.cursor == old(repo.cursor) + |g.children| && Merging(g, before, old(repo.trees), |g.children|)
    {
      hide IsAncestor, WellFounded, ValidGroup;
      OwnedNames(g);
      assert g.integration in Owned(g);
      ReachesItself(repo.commits, g.base);
      ghost var trees0 := repo.trees;
      var i := 0;
      while i < |g.children|
        invariant 0 <= i <= |g.children| && repo.cursor == old(repo.cursor) + i
        invariant old(repo.commits) <= repo.commits
        invariant Merging(g, before, trees0, i)
        invariant Work(old(repo.cursor), repo.cursor) && forall c | c in g.children[..i] :: c.branch in before
      {
        assert g.children[..i + 1] == g.children[..i] + [g.children[i]] && g.children[i] in g.children;
        ok := MergeNext(g, before, trees0, i);
        if !ok {
          return false;
        }
        i := i + 1;
      }
      assert g.children[..|g.children|] == g.children;
      return true;
    }

    method MergeNext(g: Group, ghost before: Refs, ghost trees0: Linked, i: nat) returns (ok: bool)
      requires ValidGroup(g) && i < |g.children| && Merging(g, before, trees0, i)
      modifies repo`cursor, repo`commits, repo`branches, repo`trees
      ensures repo.Valid() && old(repo.commits) <= repo.commits && repo.cursor == old(repo.cursor) + 1
      ensures ok <==> repo.script(old(repo.cursor)).Works? && g.children[i].branch in before
      ensures Only(before, repo.branches, {g.integration.branch})
      ensures Only(trees0, repo.trees, {g.integration.path})
      ensures ok ==> Merging(g, before, trees0, i + 1)
    {
      hide IsAncestor, WellFounded;
      ghost var commits0, branches0 := repo.commits, repo.branches;
      var own := g.integration.branch;
      ghost var head := repo.branches[own];
      assert g.children[i] in g.children;
      assert g.children[..i + 1] == g.children[..i] + [g.children[i]];
      ok := repo.MergeInto(g.integration.path, g.children[i].branch);
      if ok {
        StillAncestor(commits0, repo.commits, g.base, head, repo.branches[own]);
        forall c | c in g.children[..i]
          ensures c.branch in repo.branches && IsAncestor(repo.commits, repo.branches[c.branch], repo.branches[own])
        {
          assert c in g.children && c.branch != own;
          StillAncestor(commits0, repo.commits, branches0[c.branch], head, repo.branches[own]);
        }
      }
    }

    lemma StillAncestor(commits: Commits, later: Commits, a: Commit, b: Commit, c: Commit)
      requires WellFounded(commits) && WellFounded(later) && commits <= later
      requires b < |commits| && c < |later| && IsAncestor(commits, a, b) && IsAncestor(later, b, c)
      ensures IsAncestor(later, a, c)
    {
      AncestorGrows(commits, later, a, b);
      AncestorTransitive(later, a, b, c);
    }

    // -------------------------------------------------------------------------------------------
    // Cleanup

    /** `_validate_non_force_cleanup`.  A failing `show-ref` counts as "no such branch". */
    method ValidateNonForce(g: Group) returns (ok: bool)
      requires repo.Valid()
      modifies repo`cursor
      ensures old(repo.Calm()) ==> repo.Calm() && (ok <==> forall c | c in Owned(g) :: Removable(Now(), c))
    {
      hide IsAncestor, WellFounded, Reaches, Removable;
      ghost var calm := repo.Calm();
      var owned := Owned(g);
      ok := repo.Query();
      if !ok {
        return;
      }
      var i := 0;
      while i < |owned|
        invariant 0 <= i <= |owned|
        invariant calm ==> repo.Calm() && forall c | c in owned[..i] :: Removable(Now(), c)
      {
        assert owned[i] in owned && owned[..i + 1] == owned[..i] + [owned[i]];
        ok := ValidateChild(owned[i]);
        if !ok {
          return;
        }
        i := i + 1;
      }
      assert owned[..|owned|] == owned;
      return true;
    }

    /** The checks on one owned worktree and its branch. */
    method ValidateChild(c: Child) returns (ok: bool)
      requires repo.Valid()
      modifies repo`cursor
      ensures old(repo.Calm()) ==> repo.Calm() && (ok <==> Removable(Now(), c))
    {
      hide IsAncestor, WellFounded;
      if repo.PathExists(c.path) {
        var named := repo.Query();
        if !named || c.path in repo.strays || repo.trees[c.path].branch != c.branch {
          return false;
        }
        var seen := repo.Query();
        if !seen || !repo.trees[c.path].clean {
          return false;
        }
      }
      var present := repo.Query();
      if present && c.branch in repo.branches {
        var read := repo.Query();
        if !read {
          return false;
        }
        var compared := repo.Query();
        if !compared || !IsAncestor(repo.commits, repo.branches[c.branch], repo.Head()) {
          return false;
        }
      }
      return true;
    }

    /** Removes one owned worktree and its branch; the integration branch may be missing. */
    method RemoveChild(c: Child, force: bool, optional: bool) returns (ok: bool)
      requires repo.Valid()
      modifies repo`cursor, repo`branches, repo`trees
      ensures repo.Valid() && repo.current in repo.branches && repo.Head() == old(repo.Head())
      ensures Only(old(repo.branches), repo.branches, {c.branch}) && Only(old(repo.trees), repo.trees, {c.path})
      ensures repo.branches.Keys <= old(repo.branches).Keys && repo.trees.Keys <= old(repo.trees).Keys
      ensures ok ==> !repo.PathExists(c.path)
      ensures ok && !optional ==> c.branch in old(repo.branches) && c.branch !in repo.branches
      ensures old(repo.Calm()) ==> repo.Calm() && (ok <==> Goes(old(Now()), c, {c.path}, force, optional))
      ensures old(repo.Calm()) && ok ==>
                repo.branches == old(repo.branches) - {c.branch} && repo.trees == old(repo.trees) - {c.path}
    {
      hide IsAncestor, WellFounded;
      ok := RemoveTree(c, force);
      if !ok && !optional {
        return;
      }
      if optional {
        var present := repo.Query();
        if !present || c.branch !in repo.branches {
          return;
        }
      }
      ghost var gone;
      var deleted;
      deleted, gone := repo.BranchDelete(c.branch, force);
      ok := ok && deleted;
    }

    /** Removes a worktree, if its path exists. */
    method RemoveTree(c: Child, force: bool) returns (ok: bool)
      requires repo.Valid()
      modifies repo`cursor, repo`trees
      ensures repo.Valid() && Only(old(repo.trees), repo.trees, {c.path}) && repo.trees.Keys <= old(repo.trees).Keys
      ensures ok ==> !repo.PathExists(c.path) && repo.trees == old(repo.trees) - {c.path}
      ensures old(repo.Calm()) ==>
                && repo.Calm()
                && (ok <==>
                      && c.path !in repo.strays
                      && (c.path in old(repo.trees) ==> force || old(repo.trees)[c.path].clean))
    {
      hide IsAncestor, WellFounded;
      ok := true;
      if repo.PathExists(c.path) {
        ghost var took;
        ok, took := repo.WorktreeRemove(c.path, force);
      }
    }

    /** These children are gone. */
    ghost predicate Gone(s: seq<Child>)
      reads repo`branches, repo`trees, repo`strays
    {
      forall c | c in s :: c.branch !in repo.branches && !repo.PathExists(c.path)
    }

    /** `cleanup`.  It touches nothing but the group's own branches and worktrees, and it succeeds only if
        every child branch was still there.  When Git answers, it succeeds exactly if `CleanupWorks`, and
        then it removes all of the group's names. */
    method Cleanup(g: Group, force: bool) returns (ok: bool)
      requires repo.Valid() && ValidGroup(g)
      modifies repo`cursor, repo`branches, repo`trees
      ensures repo.Valid() && repo.Head() == old(repo.Head())
      ensures Framed(old(repo.branches), old(repo.trees), Owned(g))
      ensures ok ==> (forall c | c in g.children :: c.branch in old(repo.branches)) && Gone(g.children)
      ensures old(repo.Calm()) ==> (ok <==> CleanupWorks(old(Now()), g, force))
      ensures old(repo.Calm()) && ok ==>
                && repo.branches == old(repo.branches) - BranchesOf(Owned(g))
                && repo.trees == old(repo.trees) - PathsOf(Owned(g))
    {
      hide IsAncestor, WellFounded, BranchesOf, PathsOf, Removable, InPlace, Owned, ValidGroup, Only, Goes;
      ghost var s0 := Now();
      OnlyWithout(repo.branches, BranchesOf(Owned(g)));
      OnlyWithout(repo.trees, PathsOf(Owned(g)));
      if !g.state.CleanupPending? {
        return false;
      }
      if !force {
        var allowed := ValidateNonForce(g);
        if !allowed {
          return false;
        }
      }
      assert Now() == s0;
      ghost var calm := repo.Calm();
      ok := RemoveChildren(g, force);
      var last := RemoveIntegration(g, force, s0, calm && ok);
      ok := ok && last;
      var pruned := repo.Query();
      ok := ok && pruned;
    }

    /** The loop over the children. */
    method RemoveChildren(g: Group, force: bool) returns (ok: bool)
      requires repo.Valid() && ValidGroup(g)
      modifies repo`cursor, repo`branches, repo`trees
      ensures repo.Valid() && repo.Head() == old(repo.Head())
      ensures Framed(old(repo.branches), old(repo.trees), g.children)
      ensures ok ==> Gone(g.children) && forall c | c in g.children :: c.branch in old(repo.branches)
      ensures old(repo.Calm()) ==>
                repo.Calm() && (ok <==> forall i | 0 <= i < |g.children| :: GoesAt(old(Now()), g, i, force))
      ensures old(repo.Calm()) && ok ==> Less(old(Now()), g.children)
    {
      hide IsAncestor, WellFounded, BranchesOf, PathsOf, InPlace, GoesAt, ValidGroup, Owned, Only;
      ghost var s0, calm := Now(), repo.Calm();
      OnlyWithout(repo.branches, BranchesOf(g.children));
      OnlyWithout(repo.trees, PathsOf(g.children));
      NoNames(repo.branches);
      NoNames(repo.trees);
      assert g.children[..0] == [];
      ok := true;
      var i := 0;
      while i < |g.children|
        invariant 0 <= i <= |g.children|
        invariant repo.Valid() && repo.Head() == old(repo.Head())
        invariant Framed(s0.branches, s0.trees, g.children)
        invariant repo.branches.Keys <= s0.branches.Keys && repo.trees.Keys <= s0.trees.Keys
        invariant ok ==> Gone(g.children[..i]) && forall c | c in g.children[..i] :: c.branch in s0.branches
        invariant calm ==> repo.Calm() && (ok <==> forall j | 0 <= j < i :: GoesAt(s0, g, j, force))
        invariant calm && ok ==> Less(s0, g.children[..i])
      {
        NamesNext(g.children, i);
        var removed := RemoveNext(g, i, force, s0, calm && ok);
        ok := ok && removed;
        i := i + 1;
      }
      assert g.children[..|g.children|] == g.children;
    }

    /** Exactly the names of these children are gone. */
    ghost predicate Less(s0: State, s: seq<Child>)
      reads repo`commits, repo`branches, repo`trees, repo`strays, repo`current
    {
      Now() == s0.(branches := s0.branches - BranchesOf(s), trees := s0.trees - PathsOf(s))
    }

    method RemoveNext(g: Group, i: nat, force: bool, ghost s0: State, ghost exact: bool) returns (ok: bool)
      requires repo.Valid() && ValidGroup(g) && i < |g.children|
      requires Framed(s0.branches, s0.trees, g.children)
      requires exact ==> repo.Calm() && Less(s0, g.children[..i])
      modifies repo`cursor, repo`branches, repo`trees
      ensures repo.Valid() && repo.Head() == old(repo.Head())
      ensures Framed(s0.branches, s0.trees, g.children)
      ensures repo.branches.Keys <= old(repo.branches).Keys && repo.trees.Keys <= old(repo.trees).Keys
      ensures ok ==> g.children[i].branch in old(repo.branches) && Gone([g.children[i]])
      ensures old(repo.Calm()) ==> repo.Calm()
      ensures exact ==> (ok <==> GoesAt(s0, g, i, force))
      ensures exact && ok ==> Less(s0, g.children[..i + 1])
    {
      hide IsAncestor, WellFounded, BranchesOf, PathsOf, Only, Goes;
      var c := g.children[i];
      ghost var s1 := Now();
      if exact {
        OwnedNames(g);
        GoesThen(s0, s1, g, i, force);
      }
      ok := RemoveChild(c, force, false);
      FramedNext(s0.branches, s0.trees, s1.branches, s1.trees, g.children, c);
      if exact && ok {
        NamesNext(g.children, i);
        Without(s0.branches, BranchesOf(g.children[..i]), c.branch);
        Without(s0.trees, PathsOf(g.children[..i]), c.path);
      }
    }

    /** `GoesAt` is what the removal at position `i` finds when those in front of it worked. */
    lemma GoesThen(s0: State, s1: State, g: Group, i: nat, force: bool)
      requires ValidGroup(g) && i <= |g.children| && s1.current in s1.branches
      requires s1 == s0.(branches := s0.branches - BranchesOf(Owned(g)[..i]),
                         trees := s0.trees - PathsOf(Owned(g)[..i]))
      ensures Goes(s1, Owned(g)[i], {Owned(g)[i].path}, force, i == |g.children|) <==> GoesAt(s0, g, i, force)
      ensures i < |g.children| ==> Owned(g)[i] == g.children[i] && Owned(g)[..i] == g.children[..i]
      ensures i == |g.children| ==> Owned(g)[i] == g.integration
    {
      hide Goes, BranchesOf, PathsOf;
      OwnedNames(g);
      Apart(Owned(g), i);
      NamesNext(Owned(g), i);
      GoesLater(s0, s1, Owned(g)[i], BranchesOf(Owned(g)[..i]), PathsOf(Owned(g)[..i]), force, i == |g.children|);
    }

    /** The integration worktree and its branch. */
    method RemoveIntegration(g: Group, force: bool, ghost s0: State, ghost exact: bool) returns (ok: bool)
      requires repo.Valid() && ValidGroup(g)
      requires Framed(s0.branches, s0.trees, g.children)
      requires exact ==> repo.Calm() && Less(s0, g.children)
      modifies repo`cursor, repo`branches, repo`trees
      ensures repo.Valid() && repo.Head() == old(repo.Head())
      ensures Framed(s0.branches, s0.trees, Owned(g))
      ensures old(Gone(g.children)) ==> Gone(g.children)
      ensures old(repo.Calm()) ==> repo.Calm()
      ensures exact ==> (ok <==> GoesAt(s0, g, |g.children|, force))
      ensures exact && ok ==> Less(s0, Owned(g))
    {
      hide IsAncestor, WellFounded, BranchesOf, PathsOf, Only, Goes;
      OwnedNames(g);
      ghost var s1 := Now();
      if exact {
        GoesThen(s0, s1, g, |g.children|, force);
      }
      NamesOfPart(Owned(g), |g.children|);
      OnlyWider(s0.branches, s1.branches, BranchesOf(g.children), BranchesOf(Owned(g)));
      OnlyWider(s0.trees, s1.trees, PathsOf(g.children), PathsOf(Owned(g)));
      ok := RemoveChild(g.integration, force, true);
      assert g.integration in Owned(g);
      FramedNext(s0.branches, s0.trees, s1.branches, s1.trees, Owned(g), g.integration);
      if exact && ok {
        NamesNext(Owned(g), |g.children|);
        assert Owned(g)[..|g.children| + 1] == Owned(g);
        Without(s0.branches, BranchesOf(g.children), g.integration.branch);
        Without(s0.trees, PathsOf(g.children), g.integration.path);
      }
    }

    /** After an integration, with its worktrees clean on their own branches, nothing stands in the way
        of a cleanup, forced or not. */
    lemma IntegratedIsReady(g: Group, force: bool)
      requires repo.Valid() && ValidGroup(g) && g.state.CleanupPending? && repo.current == g.baseBranch
      requires forall c | c in Owned(g) :: Merged(c) && InPlace(c)
      ensures CleanupWorks(Now(), g, force)
    {
      hide Reaches;
      OwnedNames(g);
      forall i | 0 <= i <= |g.children|
        ensures GoesAt(Now(), g, i, force)
      {
        var c := Owned(g)[i];
        assert c in Owned(g) && Owned(g)[..i + 1][i] == c && c.path in PathsOf(Owned(g)[..i + 1]);
      }
    }
  }

  // ---------------------------------------------------------------------------------------------
  // Two inputs

  const ONE_CHILD := Group(0, "main", [Child("work", "tree")], Child("integration", "integration-tree"), Integrating)

  /** A repository at commit 0 with the child's branch on commit 1. */
  method OneChildRepository(script: nat -> Answer) returns (repo: Repository)
    ensures fresh(repo) && repo.Valid() && repo.script == script && repo.cursor == 0 && repo.current == "main"
    ensures repo.commits == [[], [0]] && repo.branches == map["main" := 0, "work" := 1]
    ensures repo.trees == map["tree" := Tree("work", true)] && repo.strays == {}
  {
    repo := new Repository(script, [[], [0]], map["main" := 0, "work" := 1], map["tree" := Tree("work", true)], "main");
  }

  lemma RootReachesNothing(commits: Commits)
    requires WellFounded(commits) && [[]] <= commits
    ensures !IsAncestor(commits, 1, 0)
  {
    assert commits[0] == [];
  }

  lemma OneChildPromotable(manager: WorktreeManager)
    requires manager.repo.Valid() && manager.repo.cursor == 0 && manager.repo.current == "main"
    requires manager.repo.branches == map["main" := 0, "work" := 1] && manager.repo.strays == {}
    requires manager.repo.trees == map["tree" := Tree("work", true)]
    requires forall n | n != 5 :: manager.repo.script(n).Works?
    ensures manager.Promotable(ONE_CHILD)
  {
    hide IsAncestor, WellFounded;
  }

  /** A head that reaches commit 1 is not commit 0. */
  lemma ReachesWork(manager: WorktreeManager)
    requires manager.repo.Valid() && [[]] <= manager.repo.commits && manager.Merged(Child("work", "tree"))
    requires "work" in manager.repo.branches && manager.repo.branches["work"] == 1
    ensures manager.repo.Head() != 0
  {
    hide IsAncestor;
    if manager.repo.Head() == 0 {
      RootReachesNothing(manager.repo.commits);
    }
  }

  lemma StillAtWork(branches: Refs, names: set<string>)
    requires Only(map["main" := 0, "work" := 1], branches, names) && "work" !in names
    ensures "work" in branches && branches["work"] == 1
  {
    assert "work" in map["main" := 0, "work" := 1];
  }

  /** An integration that fails although the source branch has moved: only the read of the new head fails. */
  method FailedAfterPromotion() returns (ok: bool, moved: bool)
    ensures !ok && moved
  {
    hide IsAncestor, WellFounded, Reaches, Only, Placed, WorktreeManager.Promotable, WorktreeManager.Merged;
    var repo := OneChildRepository(n => if n == 5 then Fails else Works);
    var manager := new WorktreeManager(repo);
    assert Child("work", "tree") == ONE_CHILD.children[0] == Owned(ONE_CHILD)[0];
    OneChildPromotable(manager);
    ghost var promoted;
    ok, promoted := manager.Integrate(ONE_CHILD);
    assert !repo.script(5).Works?;
    moved := repo.Head() != 0;
    StillAtWork(repo.branches, {"integration", "main"});
    ReachesWork(manager);
  }

  /** A cleanup that is repeated after the child's worktree went: it fails exactly if the branch went, too. */
  method RetriedCleanup(branchKept: bool, force: bool) returns (ok: bool)
    ensures ok <==> branchKept
  {
    hide IsAncestor, WellFounded, CleanupWorks;
    var branches := if branchKept then map["main" := 0, "work" := 0] else map["main" := 0];
    var repo := OneCommitRepository(branches);
    var manager := new WorktreeManager(repo);
    var g := ONE_CHILD.(state := CleanupPending);
    RetryWorks(manager.Now(), g, branchKept, force);
    ok := manager.Cleanup(g, force);
  }

  method OneCommitRepository(branches: Refs) returns (repo: Repository)
    requires "main" in branches && forall b | b in branches :: branches[b] == 0
    ensures fresh(repo) && repo.Valid() && repo.Calm() && repo.current == "main"
    ensures repo.commits == [[]] && repo.branches == branches && repo.trees == map[] && repo.strays == {}
  {
    repo := new Repository(n => Works, [[]], branches, map[], "main");
  }

  lemma RetryWorks(s: State, g: Group, branchKept: bool, force: bool)
    requires s.commits == [[]] && s.trees == map[] && s.strays == {} && s.current == "main"
    requires s.branches == if branchKept then map["main" := 0, "work" := 0] else map["main" := 0]
    requires g == ONE_CHILD.(state := CleanupPending)
    ensures CleanupWorks(s, g, force) <==> branchKept
  {
    assert Owned(g) == [Child("work", "tree"), Child("integration", "integration-tree")];
    assert GoesAt(s, g, 0, force) <==> branchKept;
    assert GoesAt(s, g, 1, force);
  }
}
