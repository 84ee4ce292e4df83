/** Which units run does not depend on delivery order, duplication, the carrier
    of arrivals, the store or the merge mode: only on the ports each unit fires. */
module Confluence {
  import opened Units
  import opened Store
  import opened Schedule

  /** The units an execution runs, read off the graph: an entry, or a unit some
      running predecessor fires into. */
  ghost predicate Executes(g: Graph, rank: seq<nat>, entries: set<nat>, outcome: seq<set<Port>>, v: nat)
    requires Ranked(g, rank) && |outcome| == Size(g) && v < Size(g)
    decreases rank[v]
  {
    if Root(g, v) then v in entries
    else exists i | 0 <= i < |g.edges| && g.edges[i].dst == v ::
           g.edges[i].port in outcome[g.edges[i].src] && Executes(g, rank, entries, outcome, g.edges[i].src)
  }

  /** The action lets a unit fire only its fixed outcome: no fatal commit and no
      merge cancel. */
  predicate Allowed(cfg: Config, outcome: seq<set<Port>>, a: Action) {
    match a
    case Commit(u, _, _, fired, fatal, _) => !fatal && (u < |outcome| ==> fired == outcome[u])
    case ServeDisabled(u) => u < |outcome| && u < |cfg.g.nodes| ==> outcome[u] == MainPort(cfg.g, u)
    case ServePinned(u) => u < |outcome| && u < |cfg.g.nodes| ==> outcome[u] == MainPort(cfg.g, u)
    case HandleMergeCancel(_, _) => false
    case _ => true
  }

  predicate RowFollows(outcome: seq<set<Port>>, s: State, u: nat)
    requires u < |outcome| == |s.rows|
  {
    s.rows[u].Done? ==>
      && (s.rows[u].how.Skipped? || s.rows[u].how.Canceled? || s.rows[u].fired == outcome[u])
      && (s.rows[u].how.Canceled? ==> u !in s.settled && AdvanceTask(u) !in s.log)
  }

  predicate Follows(cfg: Config, entries: set<nat>, outcome: seq<set<Port>>, s: State) {
    && |outcome| == |s.rows| == Size(cfg.g)
    && (forall u: nat | u < |s.rows| :: RowFollows(outcome, s, u))
    && (forall t :: t in s.log && t.AdvanceTask? ==> t.unit < |s.rows| && s.rows[t.unit].Done?)
    && (forall r: nat | r < Size(cfg.g) && Root(cfg.g, r) :: ExecTask(r) in s.log <==> r in entries)
    && (forall r: nat | r < Size(cfg.g) && Root(cfg.g, r) :: SkipTask(r) in s.log ==> r !in entries)
  }

  lemma SettleFollows(cfg: Config, entries: set<nat>, outcome: seq<set<Port>>, s: State, u: nat)
    requires Valid(cfg) && Fits(cfg, s) && u < Size(cfg.g) && Follows(cfg, entries, outcome, s)
    requires s.rows[u].Done? && !s.rows[u].how.Canceled?
    requires Root(cfg.g, u) && cfg.g.kinds[u].GroupUnit? ==> !s.rows[u].how.Skipped?
    ensures Follows(cfg, entries, outcome, Settle(s, u, Arrivals(cfg.g, u, s.rows[u].how, s.rows[u].fired)))
  {
    var g, s' := cfg.g, Settle(s, u, Arrivals(cfg.g, u, s.rows[u].how, s.rows[u].fired));
    forall r: nat | r < Size(g) && Root(g, r)
      ensures (ExecTask(r) in s'.log <==> ExecTask(r) in s.log) && (SkipTask(r) in s'.log <==> SkipTask(r) in s.log)
    {
      RootUntouched(g, u, s.rows[u].how, s.rows[u].fired, r);
      assert s'.cells[r] == s.cells[r];
    }
    forall w: nat | w < |s.rows| ensures RowFollows(outcome, s', w) {
      assert RowFollows(outcome, s, w);
    }
  }

  lemma TerminalizeFollows(cfg: Config, entries: set<nat>, outcome: seq<set<Port>>, s: State, u: nat, how: How,
                           fired: set<Port>)
    requires Valid(cfg) && Fits(cfg, s) && u < Size(cfg.g) && Follows(cfg, entries, outcome, s) && !s.rows[u].Done?
    requires !how.Canceled? && (how.Skipped? || fired == outcome[u])
    requires Root(cfg.g, u) && cfg.g.kinds[u].GroupUnit? ==> !how.Skipped?
    ensures Follows(cfg, entries, outcome, Terminalize(cfg, s, u, how, fired, false))
  {
    var landed := Land(cfg, s, u, how, fired, false);
    forall w: nat | w < |s.rows| ensures RowFollows(outcome, landed, w) {
      assert RowFollows(outcome, s, w);
    }
    assert Follows(cfg, entries, outcome, landed);
    var s' := Terminalize(cfg, s, u, how, fired, false);
    if s' == landed {
    } else if s' == Write(landed, AdvanceTask(u)) {
      forall w: nat | w < |s.rows| ensures RowFollows(outcome, s', w) {
        assert RowFollows(outcome, landed, w);
      }
    } else {
      SettleFollows(cfg, entries, outcome, landed, u);
    }
  }

  lemma MoveFollows(cfg: Config, entries: set<nat>, outcome: seq<set<Port>>, s: State, a: Action)
    requires Valid(cfg) && Inv(cfg, s) && Follows(cfg, entries, outcome, s)
    requires a.Lease? || a.Wait? || a.Suspend? || a.Requeue? || a.BeginCancel? || a.CancelParked? || a.FinishCancel?
      || a.Expire? || a.Drop?
    ensures Follows(cfg, entries, outcome, Step(cfg, s, a))
  {
    var s' := Step(cfg, s, a);
    if a.Requeue? && a.unit < Size(cfg.g) { assert UnitOk(cfg.g, s, a.unit); }
    assert s'.log == s.log;
    forall w: nat | w < |s.rows| ensures RowFollows(outcome, s', w) {
      assert RowFollows(outcome, s, w);
    }
  }

  lemma StepFollows(cfg: Config, entries: set<nat>, outcome: seq<set<Port>>, s: State, a: Action)
    requires Valid(cfg) && Inv(cfg, s) && Follows(cfg, entries, outcome, s) && Allowed(cfg, outcome, a)
    ensures Follows(cfg, entries, outcome, Step(cfg, s, a))
  {
    var s' := Step(cfg, s, a);
    if s' == s {
    } else if a.HandleAdvance? {
      assert RowFollows(outcome, s, a.unit) && UnitOk(cfg.g, s, a.unit);
      SettleFollows(cfg, entries, outcome, s, a.unit);
    } else if a.Commit? {
      TerminalizeFollows(cfg, entries, outcome, s, a.unit, a.how, a.fired);
      CancelTaskFollows(cfg, entries, outcome, Terminalize(cfg, s, a.unit, a.how, a.fired, a.fatal), a.unit);
    } else if a.ServeDisabled? || a.ServePinned? {
      var how := if a.ServeDisabled? then Disabled else Pinned;
      TerminalizeFollows(cfg, entries, outcome, s, a.unit, how, MainPort(cfg.g, a.unit));
    } else if a.HandleSkip? {
      assert UnitOk(cfg.g, s, a.unit);
      TerminalizeFollows(cfg, entries, outcome, s, a.unit, Skipped, {});
    } else {
      MoveFollows(cfg, entries, outcome, s, a);
    }
  }

  lemma CancelTaskFollows(cfg: Config, entries: set<nat>, outcome: seq<set<Port>>, s: State, u: nat)
    requires Follows(cfg, entries, outcome, s)
    ensures Follows(cfg, entries, outcome, Write(s, MergeCancelTask(u)))
  {
    forall w: nat | w < |s.rows| ensures RowFollows(outcome, Write(s, MergeCancelTask(u)), w) {
      assert RowFollows(outcome, s, w);
    }
  }

  predicate AllAllowed(cfg: Config, outcome: seq<set<Port>>, actions: seq<Action>) {
    forall a :: a in actions ==> Allowed(cfg, outcome, a)
  }

  lemma {:induction false} RunFollows(cfg: Config, entries: set<nat>, outcome: seq<set<Port>>, s: State,
                                      actions: seq<Action>)
    requires Valid(cfg) && Inv(cfg, s) && Follows(cfg, entries, outcome, s) && AllAllowed(cfg, outcome, actions)
    ensures Inv(cfg, Run(cfg, s, actions)) && Follows(cfg, entries, outcome, Run(cfg, s, actions))
    decreases |actions|
  {
    if actions != [] {
      StepKeeps(cfg, s, actions[0]);
      StepFollows(cfg, entries, outcome, s, actions[0]);
      RunFollows(cfg, entries, outcome, Step(cfg, s, actions[0]), actions[1..]);
    }
  }

  /** In every state the decisions taken so far are the ones the graph dictates. */
  lemma {:induction false} DecisionsMatch(cfg: Config, rank: seq<nat>, entries: set<nat>,
                                          outcome: seq<set<Port>>, s: State, v: nat)
    requires Valid(cfg) && Inv(cfg, s) && Follows(cfg, entries, outcome, s) && Ranked(cfg.g, rank) && v < Size(cfg.g)
    ensures ExecTask(v) in s.log ==> Executes(cfg.g, rank, entries, outcome, v)
    ensures SkipTask(v) in s.log ==> !Executes(cfg.g, rank, entries, outcome, v)
    decreases rank[v]
  {
    var g := cfg.g;
    assert UnitOk(g, s, v) && Tallied(g, s, v) && Decided(g, s, v);
    forall i | 0 <= i < |g.edges| && g.edges[i].dst == v
      ensures var src := g.edges[i].src;
        && (ExecTask(src) in s.log ==> Executes(g, rank, entries, outcome, src))
        && (SkipTask(src) in s.log ==> !Executes(g, rank, entries, outcome, src))
        && UnitOk(g, s, src) && RowFollows(outcome, s, src)
    {
      DecisionsMatch(cfg, rank, entries, outcome, s, g.edges[i].src);
    }
    if Root(g, v) {
    } else if ExecTask(v) in s.log {
      var i :| i in Live(g, s.settled, FiredBy(s), v);
      assert Executes(g, rank, entries, outcome, g.edges[i].src);
    } else if SkipTask(v) in s.log {
      forall i | 0 <= i < |g.edges| && g.edges[i].dst == v
        ensures !(g.edges[i].port in outcome[g.edges[i].src] && Executes(g, rank, entries, outcome, g.edges[i].src))
      {
        assert i !in Open(g, s.settled, v) && i !in Live(g, s.settled, FiredBy(s), v);
      }
    }
  }

  /** The same workflow, possibly with other merge modes. */
  predicate SameShape(g: Graph, g': Graph) {
    g'.kinds == g.kinds && g'.edges == g.edges
  }

  lemma {:induction false} RunsShape(g: Graph, g': Graph, rank: seq<nat>, entries: set<nat>,
                                     outcome: seq<set<Port>>, v: nat)
    requires SameShape(g, g') && Ranked(g, rank) && |outcome| == Size(g) && v < Size(g)
    ensures Ranked(g', rank) && (Executes(g, rank, entries, outcome, v) <==> Executes(g', rank, entries, outcome, v))
    decreases rank[v]
  {
    assert Into(g, v) == Into(g', v);
    forall i | 0 <= i < |g.edges| && g.edges[i].dst == v
      ensures Executes(g, rank, entries, outcome, g.edges[i].src) <==>
        Executes(g', rank, entries, outcome, g'.edges[i].src)
    {
      RunsShape(g, g', rank, entries, outcome, g.edges[i].src);
    }
  }

  /** Two complete runs over the same outcomes execute and skip exactly the same
      units, whatever the order and duplication of deliveries, the carrier, the
      store and the merge modes of either. */
  lemma Confluent(cfg: Config, cfg': Config, entries: set<nat>, outcome: seq<set<Port>>,
                  actions: seq<Action>, actions': seq<Action>, v: nat)
    requires Valid(cfg) && Valid(cfg') && SameShape(cfg.g, cfg'.g) && v < Size(cfg.g)
    requires Entries(cfg, entries) && Entries(cfg', entries) && |outcome| == Size(cfg.g)
    requires AllAllowed(cfg, outcome, actions) && AllAllowed(cfg', outcome, actions')
    ensures var s, s' := Run(cfg, Init(cfg, entries), actions), Run(cfg', Init(cfg', entries), actions');
      LeftUnits(s) == LeftUnits(s') == {} ==>
        && (ExecTask(v) in s.log <==> ExecTask(v) in s'.log)
        && (SkipTask(v) in s.log <==> SkipTask(v) in s'.log)
        && s.rows[v].Done? && s'.rows[v].Done?
        && (s.rows[v].how.Skipped? <==> s'.rows[v].how.Skipped?)
  {
    var rank :| Ranked(cfg.g, rank);
    RunsShape(cfg.g, cfg'.g, rank, entries, outcome, v);
    CompleteDecision(cfg, rank, entries, outcome, actions, v);
    CompleteDecision(cfg', rank, entries, outcome, actions', v);
  }

  lemma InitFollows(cfg: Config, entries: set<nat>, outcome: seq<set<Port>>)
    requires Valid(cfg) && Entries(cfg, entries) && |outcome| == Size(cfg.g)
    ensures Follows(cfg, entries, outcome, Init(cfg, entries))
  {
  }

  /** A complete run has run exactly the units the graph says it runs. */
  lemma CompleteDecision(cfg: Config, rank: seq<nat>, entries: set<nat>, outcome: seq<set<Port>>,
                         actions: seq<Action>, v: nat)
    requires Valid(cfg) && Ranked(cfg.g, rank) && v < Size(cfg.g) && Entries(cfg, entries) && |outcome| == Size(cfg.g)
    requires AllAllowed(cfg, outcome, actions)
    ensures var s := Run(cfg, Init(cfg, entries), actions);
      LeftUnits(s) == {} ==>
        && s.rows[v].Done? && (s.rows[v].how.Skipped? <==> !Executes(cfg.g, rank, entries, outcome, v))
        && (ExecTask(v) in s.log <==> Executes(cfg.g, rank, entries, outcome, v))
        && (SkipTask(v) in s.log <==> !Executes(cfg.g, rank, entries, outcome, v))
  {
    InitKeeps(cfg, entries);
    InitFollows(cfg, entries, outcome);
    RunFollows(cfg, entries, outcome, Init(cfg, entries), actions);
    var s := Run(cfg, Init(cfg, entries), actions);
    DecisionsMatch(cfg, rank, entries, outcome, s, v);
    assert UnitOk(cfg.g, s, v);
    if LeftUnits(s) == {} { assert v !in LeftUnits(s); }
  }
}
