/** The commands an execution plans, and that their identities never collide. */
module ClusterCommands {
  import opened Common
  import opened ClusterManifest
  import opened ClusterLifecycle
  import opened ClusterTrace

  function DryCommand(p: Planned): Command { Command(ActionCommand(p.index), p.index, ServerDryRun) }

  function MutationCommand(p: Planned): Command { Command(ActionCommand(p.index), p.index, Mutation) }

  function ReadinessCommand(p: Planned, k: nat): Command { Command(ProbeCommand(p.index, k), p.index, ReadinessProbe) }

  function UndoCommand(p: Planned): Command { Command(RollbackCommand(p.index), p.index, Rollback) }

  function DryCommands(s: seq<Planned>): seq<Command> {
    seq(|s|, i requires 0 <= i < |s| => DryCommand(s[i]))
  }

  function MutationCommands(s: seq<Planned>): seq<Command> {
    seq(|s|, i requires 0 <= i < |s| => MutationCommand(s[i]))
  }

  /** The readiness probes of one Helm action, numbered from 1. */
  function ProbesOf(p: Planned): seq<Command>
    requires p.action.Helm?
  {
    seq(p.action.probes, k requires 0 <= k < p.action.probes => ReadinessCommand(p, k + 1))
  }

  function ProbeCommands(s: seq<Planned>): seq<Command>
    requires AllHelm(s)
  {
    if s == [] then [] else ProbeCommands(s[..|s| - 1]) + ProbesOf(s[|s| - 1])
  }

  /** Rollbacks run in the reverse of the order in which the mutations were started. */
  function UndoCommands(s: seq<Planned>): seq<Command> {
    seq(|s|, i requires 0 <= i < |s| => UndoCommand(Reverse(s)[i]))
  }

  lemma {:induction false} ProbeMembers(s: seq<Planned>, c: Command)
    requires AllHelm(s) && c in ProbeCommands(s)
    ensures c.kind.ReadinessProbe? && c.id.ProbeCommand? && exists p :: p in s && p.index == c.id.action
  {
    var last := s[|s| - 1];
    if c in ProbesOf(last) {
      assert last in s;
    } else {
      ProbeMembers(s[..|s| - 1], c);
    }
  }

  /** Probing action i after the ones before it extends the planned list by exactly its probes. */
  lemma {:induction false} ProbePrefix(s: seq<Planned>, i: nat, j: nat)
    requires AllHelm(s) && i < |s| && j <= s[i].action.probes
    ensures |ProbeCommands(s[..i])| + j <= |ProbeCommands(s)|
    ensures ProbeCommands(s[..i]) + ProbesOf(s[i])[..j] == ProbeCommands(s)[..|ProbeCommands(s[..i])| + j]
    decreases |s|
  {
    var s' := s[..|s| - 1];
    if i == |s| - 1 {
      assert s[..i] == s';
    } else {
      ProbePrefix(s', i, j);
      assert s'[..i] == s[..i];
    }
  }

  /** The planned lists, cut where an execution stands. */
  function Planning(dry: seq<Planned>, helm: seq<Planned>, d: nat, m: nat, p: nat): seq<Command>
    requires AllHelm(helm)
    requires d <= |dry| && m <= |helm| && p <= |ProbeCommands(helm)|
  {
    DryCommands(dry)[..d] + MutationCommands(helm)[..m] + ProbeCommands(helm)[..p]
  }

  lemma FreshDry(dry: seq<Planned>, d: nat)
    requires Increasing(dry) && d < |dry|
    ensures Unused(DryCommands(dry)[..d], DryCommand(dry[d]).id)
  {
  }

  lemma DryThenHelm(dry: seq<Planned>, helm: seq<Planned>, i: nat, j: nat)
    requires Increasing(dry + helm) && i < |dry| && j < |helm|
    ensures dry[i].index < helm[j].index
  {
    assert (dry + helm)[i] == dry[i] && (dry + helm)[|dry| + j] == helm[j];
  }

  lemma IncreasingParts(dry: seq<Planned>, helm: seq<Planned>)
    requires Increasing(dry + helm)
    ensures Increasing(dry) && Increasing(helm)
  {
    forall i, j | 0 <= i < j < |dry|
      ensures dry[i].index < dry[j].index
    {
      assert (dry + helm)[i] == dry[i] && (dry + helm)[j] == dry[j];
    }
    forall i, j | 0 <= i < j < |helm|
      ensures helm[i].index < helm[j].index
    {
      assert (dry + helm)[|dry| + i] == helm[i] && (dry + helm)[|dry| + j] == helm[j];
    }
  }

  lemma FreshMutation(dry: seq<Planned>, helm: seq<Planned>, d: nat, m: nat)
    requires Increasing(dry + helm) && AllHelm(helm)
    requires d <= |dry| && m < |helm|
    ensures Unused(DryCommands(dry)[..d] + MutationCommands(helm)[..m], MutationCommand(helm[m]).id)
  {
    IncreasingParts(dry, helm);
    forall c | c in DryCommands(dry)[..d]
      ensures c.id != MutationCommand(helm[m]).id
    {
      var i :| 0 <= i < d && c == DryCommands(dry)[i];
      DryThenHelm(dry, helm, i, m);
    }
    forall c | c in MutationCommands(helm)[..m]
      ensures c.id != MutationCommand(helm[m]).id
    {
      var i :| 0 <= i < m && c == MutationCommands(helm)[i];
    }
  }

  lemma FreshProbe(dry: seq<Planned>, helm: seq<Planned>, d: nat, m: nat, i: nat, j: nat)
    requires Increasing(dry + helm) && AllHelm(helm)
    requires d <= |dry| && m <= |helm| && i < |helm| && j < helm[i].action.probes
    ensures Unused(DryCommands(dry)[..d] + MutationCommands(helm)[..m] +
                   (ProbeCommands(helm[..i]) + ProbesOf(helm[i])[..j]),
                   ReadinessCommand(helm[i], j + 1).id)
  {
    IncreasingParts(dry, helm);
    forall c | c in ProbeCommands(helm[..i])
      ensures c.id != ReadinessCommand(helm[i], j + 1).id
    {
      ProbeMembers(helm[..i], c);
    }
  }

  lemma FreshUndo(dry: seq<Planned>, helm: seq<Planned>, d: nat, m: nat, p: nat, started: nat, n: nat)
    requires Increasing(dry + helm) && AllHelm(helm)
    requires d <= |dry| && m <= |helm| && p <= |ProbeCommands(helm)| && n < started <= |helm|
    ensures Unused(Planning(dry, helm, d, m, p) + UndoCommands(helm[..started])[..n],
                   UndoCommands(helm[..started])[n].id)
  {
    IncreasingParts(dry, helm);
    forall c | c in ProbeCommands(helm)[..p]
      ensures !c.id.RollbackCommand?
    {
      ProbeMembers(helm, c);
    }
    assert UndoCommands(helm[..started])[n] == UndoCommand(helm[started - 1 - n]);
    forall c | c in UndoCommands(helm[..started])[..n]
      ensures c.id != UndoCommands(helm[..started])[n].id
    {
      var i :| 0 <= i < n && c == UndoCommands(helm[..started])[i];
      assert c == UndoCommand(helm[started - 1 - i]);
    }
  }
}
