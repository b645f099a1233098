/** The text of the runner's command identities: different commands have different names. */
module CommandNames {
  import opened ClusterLifecycle
  import opened Text

  /** The dash-separated words of "action-3", "action-3-probe-2" and "action-3-rollback". */
  function Words(id: CommandId): (r: seq<string>)
    requires !id.ForeignCommand?
    ensures r != [] && forall w | w in r :: '-' !in w
  {
    match id
    case ActionCommand(n) => ["action", Decimal(n)]
    case ProbeCommand(n, k) => ["action", Decimal(n), "probe", Decimal(k)]
    case RollbackCommand(n) => ["action", Decimal(n), "rollback"]
  }

  function Name(id: CommandId): string
    requires !id.ForeignCommand?
  {
    Join(Words(id), '-')
  }

  /** Evidence is keyed by name; the names of the planned commands never collide. */
  lemma NamesAreDistinct(a: CommandId, b: CommandId)
    requires !a.ForeignCommand? && !b.ForeignCommand? && Name(a) == Name(b)
    ensures a == b
  {
    hide Join, Split, Decimal;
    SplitJoin(Words(a), '-');
    SplitJoin(Words(b), '-');
    assert Words(a)[1] == Words(b)[1];
    DecimalIsInjective(a.action, b.action);
    if a.ProbeCommand? && b.ProbeCommand? {
      assert Words(a)[3] == Words(b)[3];
      DecimalIsInjective(a.probe, b.probe);
    }
  }
}
