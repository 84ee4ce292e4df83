/** The scheduler's safety theorem, stated on the graph rather than on the store's
    counters, when the counters are exact, and what a cancel in flight leaves moving. */
module Safety {
  import opened Units
  import opened Store
  import opened Runs
  import opened Schedule

  /** Every edge into `v` comes from a unit that is terminal, and none fired. */
  predicate NothingArrives(g: Graph, s: State, v: nat) {
    forall i | 0 <= i < |g.edges| && g.edges[i].dst == v ::
      var src := g.edges[i].src;
      src < |s.rows| && s.rows[src].Done? && g.edges[i].port !in s.rows[src].fired
  }

  predicate SomethingArrives(g: Graph, s: State, v: nat) {
    exists i | 0 <= i < |g.edges| && g.edges[i].dst == v ::
      var src := g.edges[i].src;
      src < |s.rows| && s.rows[src].Done? && g.edges[i].port in s.rows[src].fired
  }

  /** After any sequence of actions: a unit is never both executed and skipped;
      a unit that runs has an inbound edge that fired unless it is a root; a unit
      that is skipped has only terminal sources and no inbound edge that fired;
      an execution that succeeded has no unit left; a unit that was not skipped never
      counts fewer inbound edges than are open; and the active counter is the number of
      edges that fired. */
  lemma SchedulingSafety(cfg: Config, entries: set<nat>, actions: seq<Action>, v: nat)
    requires Valid(cfg) && Entries(cfg, entries) && v < Size(cfg.g)
    ensures var s := Run(cfg, Init(cfg, entries), actions);
      && !(ExecTask(v) in s.log && SkipTask(v) in s.log)
      && (SkipTask(v) in s.log ==> NothingArrives(cfg.g, s, v))
      && (ExecTask(v) in s.log && !Root(cfg.g, v) ==> SomethingArrives(cfg.g, s, v))
      && (s.rows[v].Done? ==> (s.rows[v].how.Skipped? <==> SkipTask(v) in s.log))
      && (s.rows[v].Done? && !s.rows[v].how.Skipped? ==> ExecTask(v) in s.log)
      && (s.exec.Succeeded? ==> s.rows[v].Done?)
      && (SkipTask(v) !in s.log ==> s.cells[v].inDegree >= |Open(cfg.g, s.settled, v)|)
      && s.settled <= DoneUnits(s) && s.cells[v].active == |Live(cfg.g, s.settled, FiredBy(s), v)|
      && (cfg.fold && s.exec.Running? ==> s.settled == DoneUnits(s))
  {
    InitKeeps(cfg, entries);
    RunKeeps(cfg, Init(cfg, entries), actions);
    var g, s := cfg.g, Run(cfg, Init(cfg, entries), actions);
    assert UnitOk(g, s, v) && Tallied(g, s, v) && Decided(g, s, v);
    if SkipTask(v) in s.log {
      forall i | 0 <= i < |g.edges| && g.edges[i].dst == v
        ensures g.edges[i].src in s.settled && g.edges[i].port !in s.rows[g.edges[i].src].fired
      {
        assert i !in Open(g, s.settled, v);
        assert i !in Live(g, s.settled, FiredBy(s), v);
      }
    } else {
      DriftWithin(g, s, v);
    }
    if s.cells[v].marker.Execute? {
      var i :| i in Live(g, s.settled, FiredBy(s), v);
    }
    if s.exec.Succeeded? { assert v !in LeftUnits(s); }
    if cfg.fold && s.exec.Running? { assert s.settled == DoneUnits(s); }
  }

  /** Where nothing over-counts, an exact counter leaves no room for a unit whose skip
      fell short of its edges. */
  lemma ExactMeansFaithful(g: Graph, s: State, u: nat, v: nat)
    requires WellFormed(g) && CellsOk(g, s) && TasksOk(g, s) && u in s.settled && s.rows[u].how.Skipped? && v < Size(g)
    requires s.cells[v].inDegree == |Open(g, s.settled, v)|
    ensures SkipCount(g, u, v) == |Between(g, u, v)|
  {
    assert UnitOk(g, s, v) && Tallied(g, s, v) && Decided(g, s, v);
    if v in s.settled && s.rows[v].how.Skipped? {
      forall w: nat | w < Size(g) && w in s.settled && s.rows[w].Done?
        ensures Sent(g, s.rows[w].how, w, v) <= |Between(g, w, v)|
      {
        if w != v { SentWithin(g, s.rows[w].how, w, v); }
      }
      DriftSign(g, s.rows, s.settled, v, Size(g));
    } else {
      DriftWithin(g, s, v);
    }
    assert Sent(g, s.rows[u].how, u, v) == |Between(g, u, v)|;
  }

  /** In every reachable state each counter is the number of inbound edges whose source
      has not been settled, if and only if every unit settled as skipped has exactly the
      out-edges of the node its skip names. */
  lemma CountersExactIffClean(cfg: Config, entries: set<nat>, actions: seq<Action>)
    requires Valid(cfg) && Entries(cfg, entries)
    ensures var s := Run(cfg, Init(cfg, entries), actions);
      (forall v: nat | v < Size(cfg.g) :: s.cells[v].inDegree == |Open(cfg.g, s.settled, v)|) <==> Clean(cfg.g, s)
  {
    InitKeeps(cfg, entries);
    RunKeeps(cfg, Init(cfg, entries), actions);
    var g, s := cfg.g, Run(cfg, Init(cfg, entries), actions);
    if Clean(g, s) {
      forall v: nat | v < Size(g) ensures s.cells[v].inDegree == |Open(g, s.settled, v)| {
        CleanExact(g, s, v);
      }
    }
    if forall v: nat | v < Size(g) :: s.cells[v].inDegree == |Open(g, s.settled, v)| {
      forall u, v: nat | u in s.settled && s.rows[u].how.Skipped? && v < Size(g)
        ensures SkipCount(g, u, v) == |Between(g, u, v)|
      {
        ExactMeansFaithful(g, s, u, v);
      }
    }
  }

  /** A terminal row and a decision are never revised, and no task is unwritten. */
  predicate Grows(s: State, s': State) {
    && |s'.rows| == |s.rows| && |s'.cells| == |s.cells|
    && s.log <= s'.log && s.settled <= s'.settled
    && (forall u: nat | u < |s.rows| && s.rows[u].Done? :: s'.rows[u] == s.rows[u])
    && (forall v: nat | v < |s.cells| && !s.cells[v].marker.Unset? :: s'.cells[v].marker == s.cells[v].marker)
    && (!Active(s.exec) ==> s'.exec == s.exec)
  }

  lemma SettleGrows(s: State, u: nat, arr: seq<Arrival>)
    requires |arr| == |s.cells|
    ensures Grows(s, Settle(s, u, arr))
  {
  }

  lemma TerminalizeGrows(cfg: Config, s: State, u: nat, how: How, fired: set<Port>, fatal: bool)
    requires Fits(cfg, s) && u < Size(cfg.g) && !s.rows[u].Done? && Active(s.exec)
    ensures Grows(s, Terminalize(cfg, s, u, how, fired, fatal))
  {
    var landed := Land(cfg, s, u, how, fired, fatal);
    assert Grows(s, landed);
    SettleGrows(landed, u, Arrivals(cfg.g, u, how, fired));
  }

  lemma StepGrows(cfg: Config, s: State, a: Action)
    requires Fits(cfg, s)
    ensures Grows(s, Step(cfg, s, a))
  {
    var s' := Step(cfg, s, a);
    if s' == s {
    } else if a.HandleAdvance? {
      SettleGrows(s, a.unit, Arrivals(cfg.g, a.unit, s.rows[a.unit].how, s.rows[a.unit].fired));
    } else if a.Commit? {
      TerminalizeGrows(cfg, s, a.unit, a.how, a.fired, a.fatal);
    } else if a.ServeDisabled? || a.ServePinned? {
      TerminalizeGrows(cfg, s, a.unit, if a.ServeDisabled? then Disabled else Pinned, MainPort(cfg.g, a.unit), false);
    } else if a.HandleSkip? || a.HandleMergeCancel? {
      TerminalizeGrows(cfg, s, a.unit, if a.HandleSkip? then Skipped else Canceled, {}, false);
    }
  }

  lemma {:induction false} RunGrows(cfg: Config, s: State, actions: seq<Action>)
    requires Fits(cfg, s)
    ensures Grows(s, Run(cfg, s, actions))
    decreases |actions|
  {
    if actions != [] {
      StepGrows(cfg, s, actions[0]);
      RunGrows(cfg, Step(cfg, s, actions[0]), actions[1..]);
    }
  }

  /** A unit under lease is terminalized only by a commit that presents its token, by a
      merge cancel while it does not wait on children, or by a cancel cascade while it
      does; a unit without a lease only by a system commit its marker allows, or by a
      cancel of a parked one. */
  lemma TerminalOnlyWhenFenced(cfg: Config, s: State, a: Action, u: nat)
    requires Fits(cfg, s) && u < Size(cfg.g) && !s.rows[u].Done? && Step(cfg, s, a).rows[u].Done?
    ensures match s.rows[u]
      case Leased(token, waiting) =>
        || (a.Commit? && a.unit == u && a.token == token && Active(s.exec))
        || (a.HandleMergeCancel? && a.unit == u && !waiting && !s.cells[u].marker.Skip?)
        || (a == CancelParked(u) && waiting && !s.exec.Running?)
      case Idle =>
        || (a == HandleSkip(u) && SkipTask(u) in s.log)
        || (a == ServeDisabled(u) && u in cfg.disabled && ExecTask(u) in s.log)
        || (a == ServePinned(u) && u in cfg.pinned && ExecTask(u) in s.log && !s.cells[u].marker.Skip?)
        || (a.HandleMergeCancel? && a.unit == u && s.cells[u].marker.Execute?)
      case Parked =>
        || (a == CancelParked(u) && !s.exec.Running?)
        || (a.HandleMergeCancel? && a.unit == u && !s.cells[u].marker.Skip?)
      case Done(_, _) => true
  {
  }

  // ---- A cancel in flight ----

  /** An advance that would be applied while canceling. */
  predicate LateAdvance(cfg: Config, s: State, a: Action)
    requires Fits(cfg, s)
  {
    a.HandleAdvance? && AdvanceTask(a.unit) in s.log && a.unit < Size(cfg.g) && s.rows[a.unit].Done?
      && a.unit !in s.settled
  }

  predicate LateGroupCommit(cfg: Config, s: State, a: Action)
    requires Fits(cfg, s)
  {
    && a.Commit? && Holds(s, a.unit, a.token) && a.how in {Success, Failed, Continued} && !a.fatal
    && cfg.g.kinds[a.unit].GroupUnit?
  }

  /** The arrivals such a step applies. */
  function LateArrivals(cfg: Config, s: State, a: Action): seq<Arrival>
    requires Fits(cfg, s) && (LateAdvance(cfg, s, a) || LateGroupCommit(cfg, s, a))
  {
    if a.Commit? then Arrivals(cfg.g, a.unit, a.how, a.fired)
    else Arrivals(cfg.g, a.unit, s.rows[a.unit].how, s.rows[a.unit].fired)
  }

  /** While a cancel is in flight a step moves a counter if and only if the store is the
      in-memory one and the step is an unconsumed advance, or a group commit under its
      token, that has an arrival to apply. */
  lemma CancelFreezesIff(cfg: Config, s: State, a: Action)
    requires Fits(cfg, s) && s.exec.Canceling?
    ensures Step(cfg, s, a).cells != s.cells <==>
      && cfg.backend.Memory? && (LateAdvance(cfg, s, a) || LateGroupCommit(cfg, s, a))
      && exists v: nat | v < Size(cfg.g) :: LateArrivals(cfg, s, a)[v].count > 0
  {
    var s' := Step(cfg, s, a);
    if cfg.backend.Memory? && (LateAdvance(cfg, s, a) || LateGroupCommit(cfg, s, a)) {
      var arr := LateArrivals(cfg, s, a);
      assert s'.cells == Settle(s, a.unit, arr).cells;
      SettleMoves(s, a.unit, arr);
    } else {
      assert s'.cells == s.cells;
    }
  }

  lemma SettleMoves(s: State, u: nat, arr: seq<Arrival>)
    requires |arr| == |s.cells|
    ensures Settle(s, u, arr).cells != s.cells <==> exists v: nat | v < |arr| :: arr[v].count > 0
  {
    var cells := Settle(s, u, arr).cells;
    if v: nat :| v < |arr| && arr[v].count > 0 {
      assert cells[v].inDegree != s.cells[v].inDegree;
    } else {
      assert cells == s.cells;
    }
  }

  lemma LateMoves(cfg: Config, s: State, a: Action, v: nat)
    requires Fits(cfg, s) && s.exec.Canceling? && cfg.backend.Memory? && v < Size(cfg.g)
    requires LateAdvance(cfg, s, a) || LateGroupCommit(cfg, s, a)
    requires LateArrivals(cfg, s, a)[v].count > 0
    ensures Step(cfg, s, a).cells != s.cells
  {
    CancelFreezesIff(cfg, s, a);
  }

  /** An entry that is leased before the cancel begins. */
  lemma LeasedThenCanceling(cfg: Config, entries: set<nat>, u: nat)
    requires Valid(cfg) && Entries(cfg, entries) && u in entries
    ensures var s := Run(cfg, Init(cfg, entries), [Lease(u, 0), BeginCancel]);
      s.exec.Canceling? && s.rows[u] == Leased(0, false) && s.remaining == Size(cfg.g) && s.settled == {}
  {
    RunSteps(cfg, Init(cfg, entries), Lease(u, 0), BeginCancel);
  }

  lemma EdgeArrives(g: Graph, u: nat, i: nat)
    requires WellFormed(g) && u < Size(g) && i < |g.edges| && g.edges[i].src == u
    ensures g.edges[i].dst < Size(g) && g.edges[i].dst != u && Arrivals(g, u, Success, {})[g.edges[i].dst].count > 0
  {
    var rank :| Ranked(g, rank);
    assert i in Between(g, u, g.edges[i].dst);
  }

  /** A node's commit while canceling leaves its advance task on the in-memory store. */
  lemma CommitLeavesAdvance(cfg: Config, s: State, u: nat)
    requires Fits(cfg, s) && s.exec.Canceling? && Holds(s, u, 0) && s.remaining > 1 && u !in s.settled
    requires cfg.backend.Memory? && !cfg.fold && cfg.g.kinds[u].NodeUnit?
    ensures var s' := Step(cfg, s, Commit(u, 0, Success, {}, false, false));
      s'.exec.Canceling? && s'.rows[u] == Done(Success, {}) && AdvanceTask(u) in s'.log && u !in s'.settled
  {
  }

  /** Every entry with an out-edge gives a run in which the in-memory store moves a
      counter while canceling: a group by its commit, a node of an advancing store by its
      advance. */
  lemma CanceledYetMoving(cfg: Config, entries: set<nat>, u: nat, i: nat) returns (actions: seq<Action>, late: Action)
    requires Valid(cfg) && Entries(cfg, entries) && u in entries && cfg.backend.Memory?
    requires i < |cfg.g.edges| && cfg.g.edges[i].src == u && (cfg.g.kinds[u].GroupUnit? || !cfg.fold)
    ensures var s := Run(cfg, Init(cfg, entries), actions); s.exec.Canceling? && Step(cfg, s, late).cells != s.cells
  {
    var commit := Commit(u, 0, Success, {}, false, false);
    actions := [Lease(u, 0), BeginCancel];
    LeasedThenCanceling(cfg, entries, u);
    EdgeArrives(cfg.g, u, i);
    if cfg.g.kinds[u].GroupUnit? {
      late := commit;
    } else {
      CommitLeavesAdvance(cfg, Run(cfg, Init(cfg, entries), actions), u);
      RunOne(cfg, Init(cfg, entries), actions, commit);
      actions, late := actions + [commit], HandleAdvance(u);
    }
    LateMoves(cfg, Run(cfg, Init(cfg, entries), actions), late, cfg.g.edges[i].dst);
  }
}
