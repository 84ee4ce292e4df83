/** Which executions can be carried to success, and the two ways in which the shipped
    code can leave an execution that never completes. */
module Completion {
  import opened Units
  import opened Store
  import opened Runs
  import opened Schedule
  import opened Safety
  import opened Liveness
  import opened Cascade
  import opened Confluence
  import opened Canonical

  /** Under these outcomes a unit that does not run has a skip that misses an edge to `w`. */
  ghost predicate Misses(g: Graph, rank: seq<nat>, entries: set<nat>, outcome: seq<set<Port>>, w: nat)
    requires Ranked(g, rank) && |outcome| == Size(g) == |g.skips| && w < Size(g)
  {
    exists u: nat | u < Size(g) :: !Executes(g, rank, entries, outcome, u) && SkipCount(g, u, w) < |Between(g, u, w)|
  }

  /** Every unit that a skip misses runs all the same, because it waits for any input. */
  ghost predicate Passable(g: Graph, rank: seq<nat>, entries: set<nat>, outcome: seq<set<Port>>, modes: seq<Mode>)
    requires Ranked(g, rank) && |outcome| == |modes| == Size(g) == |g.skips|
  {
    forall w: nat | w < Size(g) && Misses(g, rank, entries, outcome, w) ::
      modes[w].WaitAny? && Executes(g, rank, entries, outcome, w)
  }

  /** Disabled and pinned nodes fire their main port. */
  predicate Served(cfg: Config, outcome: seq<set<Port>>)
    requires |outcome| == |cfg.g.nodes| == Size(cfg.g)
  {
    forall u: nat | u < Size(cfg.g) && u in cfg.disabled + cfg.pinned && cfg.g.kinds[u].NodeUnit? ::
      outcome[u] == MainPort(cfg.g, u)
  }

  /** A state reached by letting every unit fire its outcome, with nothing failed. */
  ghost predicate Healthy(cfg: Config, entries: set<nat>, outcome: seq<set<Port>>, done: seq<Action>, s: State) {
    && Reached(cfg, entries, done, s) && AllAllowed(cfg, outcome, done) && |outcome| == Size(cfg.g)
    && s.failed == 0 && Covered(cfg.g, s)
  }

  /** The step settled nothing, or the one unit. */
  predicate Extends(s: State, s': State, u: nat) {
    s'.order == s.order || (s'.order == s.order + [u] && u !in s.settled)
  }

  predicate Closer(s: State, s': State) {
    s'.exec.Succeeded? || (s'.exec.Running? && Weight(s') < Weight(s))
  }

  lemma HealthyFacts(cfg: Config, entries: set<nat>, outcome: seq<set<Port>>, done: seq<Action>, s: State)
    requires Healthy(cfg, entries, outcome, done, s)
    ensures Follows(cfg, entries, outcome, s) && CanonicalState(cfg, entries, s)
  {
    RunFacts(cfg, entries, done);
    InitKeeps(cfg, entries);
    InitFollows(cfg, entries, outcome);
    RunFollows(cfg, entries, outcome, Init(cfg, entries), done);
  }

  lemma StepHealthy(cfg: Config, entries: set<nat>, outcome: seq<set<Port>>, done: seq<Action>, s: State, a: Action)
    requires Healthy(cfg, entries, outcome, done, s) && Allowed(cfg, outcome, a) && Step(cfg, s, a).failed == 0
    ensures Healthy(cfg, entries, outcome, done + [a], Step(cfg, s, a))
  {
    StepReached(cfg, entries, done, s, a);
    StepGrows(cfg, s, a);
  }

  lemma TerminalizeExtends(cfg: Config, s: State, v: nat, how: How, fired: set<Port>)
    requires Fits(cfg, s) && v < Size(cfg.g) && v !in s.settled
    ensures Extends(s, Terminalize(cfg, s, v, how, fired, false), v)
  {
  }

  lemma TerminalizeCloser(cfg: Config, s: State, v: nat, how: How, fired: set<Port>)
    requires Inv(cfg, s) && v < Size(cfg.g) && s.exec.Running? && s.failed == 0 && !how.Failed? && !s.rows[v].Done?
    ensures var s' := Terminalize(cfg, s, v, how, fired, false); s'.failed == 0 && Closer(s, s') && Extends(s, s', v)
  {
    TerminalizeWeight(cfg, s, v, how, fired, false);
    TerminalizeExtends(cfg, s, v, how, fired);
    TerminalizeEnds(cfg, s, v, how, fired);
  }

  /** A unit that ends without failing ends the execution only by completing it. */
  lemma TerminalizeEnds(cfg: Config, s: State, v: nat, how: How, fired: set<Port>)
    requires Fits(cfg, s) && v < Size(cfg.g) && s.exec.Running? && s.failed == 0 && !how.Failed?
    ensures var s' := Terminalize(cfg, s, v, how, fired, false);
      s'.failed == 0 && (s'.exec.Running? || s'.exec.Succeeded?)
  {
  }

  /** An undecided unit with every source settled is missed by a skip. */
  lemma UndecidedIsMissed(cfg: Config, rank: seq<nat>, entries: set<nat>, outcome: seq<set<Port>>, s: State, v: nat)
    requires Valid(cfg) && Inv(cfg, s) && Follows(cfg, entries, outcome, s) && Ranked(cfg.g, rank) && v < Size(cfg.g)
    requires s.cells[v].marker.Unset? && !Root(cfg.g, v) && Open(cfg.g, s.settled, v) == {}
    ensures Misses(cfg.g, rank, entries, outcome, v)
  {
    assert Tallied(cfg.g, s, v) && Decided(cfg.g, s, v);
    var u := DriftSource(cfg.g, s, v, Size(cfg.g));
    assert UnitOk(cfg.g, s, u);
    DecisionsMatch(cfg, rank, entries, outcome, s, u);
  }

  /** A unit that runs, with every source settled, has received an active arrival. */
  lemma RunningIsFed(cfg: Config, rank: seq<nat>, entries: set<nat>, outcome: seq<set<Port>>, s: State, v: nat)
    requires Valid(cfg) && Inv(cfg, s) && Follows(cfg, entries, outcome, s) && Ranked(cfg.g, rank) && v < Size(cfg.g)
    requires !Root(cfg.g, v) && Open(cfg.g, s.settled, v) == {} && Executes(cfg.g, rank, entries, outcome, v)
    ensures s.cells[v].active > 0
  {
    var g := cfg.g;
    assert Tallied(g, s, v);
    var i :| 0 <= i < |g.edges| && g.edges[i].dst == v
      && g.edges[i].port in outcome[g.edges[i].src] && Executes(g, rank, entries, outcome, g.edges[i].src);
    var src := g.edges[i].src;
    assert i !in Open(g, s.settled, v);
    assert UnitOk(g, s, src) && RowFollows(outcome, s, src);
    DecisionsMatch(cfg, rank, entries, outcome, s, src);
    assert i in Live(g, s.settled, FiredBy(s), v);
  }

  /** In a passable run the frontier is always decided. */
  lemma FrontierDecided(cfg: Config, rank: seq<nat>, entries: set<nat>, outcome: seq<set<Port>>, done: seq<Action>,
                        s: State, v: nat)
    requires Healthy(cfg, entries, outcome, done, s) && Ranked(cfg.g, rank) && v in LeftUnits(s)
    requires Passable(cfg.g, rank, entries, outcome, cfg.g.unitModes) && Open(cfg.g, s.settled, v) == {}
    ensures ExecTask(v) in s.log || SkipTask(v) in s.log
  {
    HealthyFacts(cfg, entries, outcome, done, s);
    assert UnitOk(cfg.g, s, v) && Decided(cfg.g, s, v);
    if s.cells[v].marker.Unset? && !Root(cfg.g, v) {
      UndecidedIsMissed(cfg, rank, entries, outcome, s, v);
      RunningIsFed(cfg, rank, entries, outcome, s, v);
      OneModeDecides(cfg, entries, s, v);
    }
  }

  lemma LeaseStays(cfg: Config, s: State, v: nat)
    requires Fits(cfg, s) && v < Size(cfg.g) && s.exec.Running?
    requires ExecTask(v) in s.log && (s.rows[v].Idle? || s.rows[v].Parked?)
    ensures var s' := Step(cfg, s, Lease(v, 0));
      s'.failed == s.failed && s'.exec.Running? && Weight(s') == Weight(s) && s'.rows[v] == Leased(0, false)
  {
    var s' := Step(cfg, s, Lease(v, 0));
    assert LeftUnits(s') == LeftUnits(s) && Unsettled(s') == Unsettled(s);
  }

  lemma CommitCloser(cfg: Config, entries: set<nat>, outcome: seq<set<Port>>, done: seq<Action>, s: State, v: nat)
    returns (run: seq<Action>, s': State)
    requires Healthy(cfg, entries, outcome, done, s) && s.exec.Running? && v < Size(cfg.g) && s.rows[v].Leased?
    ensures done <= run && Healthy(cfg, entries, outcome, run, s') && Closer(s, s') && Extends(s, s', v)
  {
    var a := Commit(v, s.rows[v].token, Success, outcome[v], false, false);
    run, s' := done + [a], Step(cfg, s, a);
    CommitTerminalizes(cfg, s, v, s.rows[v].token, outcome[v]);
    TerminalizeCloser(cfg, s, v, Success, outcome[v]);
    StepHealthy(cfg, entries, outcome, done, s, a);
  }

  lemma ServeCloser(cfg: Config, entries: set<nat>, outcome: seq<set<Port>>, done: seq<Action>, s: State, v: nat)
    returns (run: seq<Action>, s': State)
    requires Healthy(cfg, entries, outcome, done, s) && s.exec.Running? && Served(cfg, outcome)
    requires v < Size(cfg.g) && ExecTask(v) in s.log
    requires s.rows[v].Idle? && cfg.g.kinds[v].NodeUnit? && v in cfg.disabled + cfg.pinned
    ensures done <= run && Healthy(cfg, entries, outcome, run, s') && Closer(s, s') && Extends(s, s', v)
  {
    var how := if v in cfg.disabled then Disabled else Pinned;
    var a := if v in cfg.disabled then ServeDisabled(v) else ServePinned(v);
    run, s' := done + [a], Step(cfg, s, a);
    assert UnitOk(cfg.g, s, v);
    assert s' == Terminalize(cfg, s, v, how, MainPort(cfg.g, v), false);
    TerminalizeCloser(cfg, s, v, how, MainPort(cfg.g, v));
    StepHealthy(cfg, entries, outcome, done, s, a);
  }

  /** Serves, or leases and commits, a unit that has been started. */
  lemma ExecuteCloser(cfg: Config, entries: set<nat>, outcome: seq<set<Port>>, done: seq<Action>, s: State, v: nat)
    returns (run: seq<Action>, s': State)
    requires Healthy(cfg, entries, outcome, done, s) && s.exec.Running? && v in LeftUnits(s) && ExecTask(v) in s.log
    requires Served(cfg, outcome)
    ensures done <= run && Healthy(cfg, entries, outcome, run, s') && Closer(s, s') && Extends(s, s', v)
  {
    if s.rows[v].Leased? {
      run, s' := CommitCloser(cfg, entries, outcome, done, s, v);
    } else if s.rows[v].Idle? && cfg.g.kinds[v].NodeUnit? && v in cfg.disabled + cfg.pinned {
      run, s' := ServeCloser(cfg, entries, outcome, done, s, v);
    } else {
      LeaseStays(cfg, s, v);
      StepHealthy(cfg, entries, outcome, done, s, Lease(v, 0));
      run, s' := CommitCloser(cfg, entries, outcome, done + [Lease(v, 0)], Step(cfg, s, Lease(v, 0)), v);
    }
  }

  lemma SkippedIsIdle(cfg: Config, s: State, v: nat)
    requires Inv(cfg, s) && v in LeftUnits(s) && SkipTask(v) in s.log
    ensures v < Size(cfg.g) && s.rows[v].Idle?
  {
    assert UnitOk(cfg.g, s, v);
  }

  lemma SkipCloser(cfg: Config, entries: set<nat>, outcome: seq<set<Port>>, done: seq<Action>, s: State, v: nat)
    returns (run: seq<Action>, s': State)
    requires Healthy(cfg, entries, outcome, done, s) && s.exec.Running? && v in LeftUnits(s) && SkipTask(v) in s.log
    ensures done <= run && Healthy(cfg, entries, outcome, run, s') && Closer(s, s') && Extends(s, s', v)
  {
    run, s' := done + [HandleSkip(v)], Step(cfg, s, HandleSkip(v));
    SkippedIsIdle(cfg, s, v);
    SkipTerminalizes(cfg, s, v);
    TerminalizeCloser(cfg, s, v, Skipped, {});
    StepHealthy(cfg, entries, outcome, done, s, HandleSkip(v));
  }

  lemma AdvanceCloser(cfg: Config, entries: set<nat>, outcome: seq<set<Port>>, done: seq<Action>, s: State, u: nat)
    returns (run: seq<Action>, s': State)
    requires Healthy(cfg, entries, outcome, done, s) && s.exec.Running? && u in Unsettled(s)
    ensures done <= run && Healthy(cfg, entries, outcome, run, s') && Closer(s, s') && Extends(s, s', u)
  {
    run, s' := done + [HandleAdvance(u)], Step(cfg, s, HandleAdvance(u));
    AdvanceSettles(cfg, s, u);
    SettleWeight(s, u, Arrivals(cfg.g, u, s.rows[u].how, s.rows[u].fired));
    StepHealthy(cfg, entries, outcome, done, s, HandleAdvance(u));
  }

  lemma MoveOn(cfg: Config, rank: seq<nat>, entries: set<nat>, outcome: seq<set<Port>>, done: seq<Action>, s: State)
    returns (run: seq<Action>, s': State)
    requires Healthy(cfg, entries, outcome, done, s) && s.exec.Running? && Ranked(cfg.g, rank) && Served(cfg, outcome)
    requires Passable(cfg.g, rank, entries, outcome, cfg.g.unitModes)
    ensures done <= run && Healthy(cfg, entries, outcome, run, s') && Closer(s, s')
  {
    var v := Frontier(cfg.g, rank, s);
    if i :| i in Open(cfg.g, s.settled, v) {
      run, s' := AdvanceCloser(cfg, entries, outcome, done, s, cfg.g.edges[i].src);
    } else {
      FrontierDecided(cfg, rank, entries, outcome, done, s, v);
      if ExecTask(v) in s.log {
        run, s' := ExecuteCloser(cfg, entries, outcome, done, s, v);
      } else {
        run, s' := SkipCloser(cfg, entries, outcome, done, s, v);
      }
    }
  }

  lemma {:induction false} CarryOn(cfg: Config, rank: seq<nat>, entries: set<nat>, outcome: seq<set<Port>>,
                                   done: seq<Action>, s: State)
    returns (run: seq<Action>, s': State)
    requires Healthy(cfg, entries, outcome, done, s) && s.exec.Running? && Ranked(cfg.g, rank) && Served(cfg, outcome)
    requires Passable(cfg.g, rank, entries, outcome, cfg.g.unitModes)
    ensures done <= run && Healthy(cfg, entries, outcome, run, s') && s'.exec.Succeeded?
    decreases Weight(s)
  {
    run, s' := MoveOn(cfg, rank, entries, outcome, done, s);
    if !s'.exec.Succeeded? {
      run, s' := CarryOn(cfg, rank, entries, outcome, run, s');
    }
  }

  /** Every running state reached under fixed outcomes in which nothing failed has a
      continuation, under the same outcomes, that succeeds, if every root left out is a
      node unit and every unit a skip misses waits for any input and runs. */
  lemma CanSucceed(cfg: Config, rank: seq<nat>, entries: set<nat>, outcome: seq<set<Port>>, done: seq<Action>)
    returns (run: seq<Action>)
    requires Valid(cfg) && Entries(cfg, entries) && RootsCovered(cfg.g, entries) && Ranked(cfg.g, rank)
    requires |outcome| == Size(cfg.g) && Served(cfg, outcome) && AllAllowed(cfg, outcome, done)
    requires Passable(cfg.g, rank, entries, outcome, cfg.g.unitModes)
    requires var s := Run(cfg, Init(cfg, entries), done); s.exec.Running? && s.failed == 0
    ensures done <= run && AllAllowed(cfg, outcome, run) && Run(cfg, Init(cfg, entries), run).exec.Succeeded?
  {
    RunReached(cfg, entries, done);
    RunGrows(cfg, Init(cfg, entries), done);
    assert Covered(cfg.g, Init(cfg, entries));
    var last: State;
    run, last := CarryOn(cfg, rank, entries, outcome, done, Run(cfg, Init(cfg, entries), done));
  }

  /** The decision of a unit missed by a skip was taken early, on an active arrival. */
  lemma MissedRunsEarly(cfg: Config, rank: seq<nat>, entries: set<nat>, outcome: seq<set<Port>>, s: State,
                        u: nat, w: nat)
    requires Valid(cfg) && Inv(cfg, s) && Follows(cfg, entries, outcome, s) && CanonicalState(cfg, entries, s)
    requires Ranked(cfg.g, rank) && u < Size(cfg.g) && w < Size(cfg.g) && LeftUnits(s) == {}
    requires !Executes(cfg.g, rank, entries, outcome, u) && SkipCount(cfg.g, u, w) < |Between(cfg.g, u, w)|
    ensures cfg.g.modes[w].WaitAny? && Executes(cfg.g, rank, entries, outcome, w)
  {
    assert u !in LeftUnits(s) && w !in LeftUnits(s);
    assert UnitOk(cfg.g, s, u) && UnitOk(cfg.g, s, w);
    DecisionsMatch(cfg, rank, entries, outcome, s, u);
    DecisionsMatch(cfg, rank, entries, outcome, s, w);
    assert s.rows[u].how.Skipped?;
    MissedNotLast(cfg, entries, s, u, w);
  }

  /** A unit missed by a skip is neither skipped nor run by a counter at zero. */
  lemma MissedNotLast(cfg: Config, entries: set<nat>, s: State, u: nat, w: nat)
    requires Valid(cfg) && Inv(cfg, s) && CanonicalState(cfg, entries, s) && u < Size(cfg.g) && w < Size(cfg.g)
    requires s.rows[u].Done? && s.rows[u].how.Skipped? && SkipCount(cfg.g, u, w) < |Between(cfg.g, u, w)|
    requires s.rows[w].Done?
    ensures SkipTask(w) !in s.log && cfg.g.modes[w].WaitAny?
  {
    var g := cfg.g;
    assert UnitOk(g, s, w) && Tallied(g, s, w) && Decided(g, s, w);
    var i :| i in Between(g, u, w);
    assert i in Into(g, w);
    if SkipTask(w) in s.log || g.modes[w].WaitAll? {
      if SkipTask(w) !in s.log { OneModeDecides(cfg, entries, s, w); }
      assert i !in Open(g, s.settled, w);
      MissedDrifts(g, s, u, w);
    }
  }

  /** A settled skip that misses an edge leaves the counter above what is open, beyond
      what the unit's own skip can take off. */
  lemma MissedDrifts(g: Graph, s: State, u: nat, w: nat)
    requires WellFormed(g) && CellsOk(g, s) && u in s.settled && w < Size(g)
    requires s.rows[u].how.Skipped? && SkipCount(g, u, w) < |Between(g, u, w)|
    ensures Drift(g, s.rows, s.settled, w, Size(g))
      + (if w in s.settled && s.rows[w].how.Skipped? then SkipCount(g, w, w) else 0) > 0
  {
    NoSelfEdge(g, w);
    var rest := s.settled - {w};
    forall x: nat | x < Size(g) && x in rest && s.rows[x].Done?
      ensures Sent(g, s.rows[x].how, x, w) <= |Between(g, x, w)|
    {
      SentWithin(g, s.rows[x].how, x, w);
    }
    DriftSign(g, s.rows, rest, w, Size(g));
    assert Sent(g, s.rows[u].how, u, w) != |Between(g, u, w)|;
    assert u in rest;
    if w in s.settled {
      DriftAfter(g, s.rows, rest, w, w, Size(g));
      if s.rows[w].how.Canceled? { assert SkipFaithful(g, w); }
      assert rest + {w} == s.settled;
    } else {
      assert rest == s.settled;
    }
  }

  /** Under fixed outcomes a run can only succeed if every root left out is a node unit
      and every unit a skip misses is entered by a wait_any node and runs. */
  lemma SuccessMeansPassable(cfg: Config, rank: seq<nat>, entries: set<nat>, outcome: seq<set<Port>>, run: seq<Action>)
    requires Valid(cfg) && Entries(cfg, entries) && Ranked(cfg.g, rank) && |outcome| == Size(cfg.g)
    requires AllAllowed(cfg, outcome, run) && Run(cfg, Init(cfg, entries), run).exec.Succeeded?
    ensures RootsCovered(cfg.g, entries) && Passable(cfg.g, rank, entries, outcome, cfg.g.modes)
  {
    var s := Run(cfg, Init(cfg, entries), run);
    RunFacts(cfg, entries, run);
    InitKeeps(cfg, entries);
    InitFollows(cfg, entries, outcome);
    RunFollows(cfg, entries, outcome, Init(cfg, entries), run);
    if r: nat :| r < Size(cfg.g) && Root(cfg.g, r) && r !in entries && cfg.g.kinds[r].GroupUnit? {
      UnselectedGroupRootNeverSucceeds(cfg, entries, run, r);
    }
    forall w: nat | w < Size(cfg.g) && Misses(cfg.g, rank, entries, outcome, w)
      ensures cfg.g.modes[w].WaitAny? && Executes(cfg.g, rank, entries, outcome, w)
    {
      var u: nat :| u < Size(cfg.g) && !Executes(cfg.g, rank, entries, outcome, u)
        && SkipCount(cfg.g, u, w) < |Between(cfg.g, u, w)|;
      MissedRunsEarly(cfg, rank, entries, outcome, s, u, w);
    }
  }

  ghost predicate Succeeds(cfg: Config, entries: set<nat>, outcome: seq<set<Port>>, run: seq<Action>)
    requires Valid(cfg)
  {
    AllAllowed(cfg, outcome, run) && Run(cfg, Init(cfg, entries), run).exec.Succeeded?
  }

  /** Where every unit has one merge mode, some run under the given outcomes succeeds if
      and only if every root left out is a node unit and every unit that the skip of a
      unit not run misses waits for any input and runs. */
  lemma UniformSucceedsIff(cfg: Config, rank: seq<nat>, entries: set<nat>, outcome: seq<set<Port>>)
    requires Valid(cfg) && Entries(cfg, entries) && Ranked(cfg.g, rank) && |outcome| == Size(cfg.g)
    requires Served(cfg, outcome)
    requires UniformModes(cfg.g)
    ensures (exists run :: Succeeds(cfg, entries, outcome, run)) <==>
      RootsCovered(cfg.g, entries) && Passable(cfg.g, rank, entries, outcome, cfg.g.modes)
  {
    assert cfg.g.modes == cfg.g.unitModes;
    if RootsCovered(cfg.g, entries) && Passable(cfg.g, rank, entries, outcome, cfg.g.modes) {
      var run := CanSucceed(cfg, rank, entries, outcome, []);
      assert Succeeds(cfg, entries, outcome, run);
    }
    if run :| Succeeds(cfg, entries, outcome, run) {
      SuccessMeansPassable(cfg, rank, entries, outcome, run);
    }
  }

  // ---- A skipped group strands what follows it ----

  /** A root, a group behind its "true" port, and a unit behind the group's exit.
      The group's entry member leads to another member, so its skip names the
      group itself. */
  function StrandingGraph(): Graph {
    Graph([NodeUnit, GroupUnit, NodeUnit], [0, 1, 3], [WaitAll, WaitAll, WaitAll], [WaitAll, WaitAll, WaitAll],
          [Edge(0, 1, Exit(0, "true")), Edge(1, 2, Exit(2, "main"))], [[1], [1], []])
  }

  function StrandingConfig(): Config { Config(StrandingGraph(), true, Redis, {}, {}) }

  function Stranded(cells: seq<Cell>, rows: seq<Row>, settled: set<nat>, order: seq<nat>, left: int,
                    log: set<Task>): State
  {
    State(cells, rows, settled, order, left, 0, Running, log, log)
  }

  function OpenCells(): seq<Cell> { [Cell(0, 0, Unset), Cell(1, 0, Unset), Cell(1, 0, Unset)] }

  function BranchRows(): seq<Row> { [Done(Success, {Exit(0, "false")}), Idle, Idle] }

  function SkippedRows(): seq<Row> { [Done(Success, {Exit(0, "false")}), Done(Skipped, {}), Idle] }

  function BranchedCells(): seq<Cell> { [Cell(0, 0, Unset), Cell(0, 0, Skip), Cell(1, 0, Unset)] }

  function Waiting(): State {
    Stranded(OpenCells(), [Leased(7, false), Idle, Idle], {}, [], 3, {ExecTask(0)})
  }

  function Branched(): State {
    Stranded(BranchedCells(), BranchRows(), {0}, [0], 2, {ExecTask(0), SkipTask(1)})
  }

  function Stuck(): State {
    Stranded([Cell(0, 0, Unset), Cell(-1, 0, Skip), Cell(1, 0, Unset)], SkippedRows(), {0, 1}, [0, 1], 1,
             {ExecTask(0), SkipTask(1)})
  }

  lemma StrandingStart()
    ensures Step(StrandingConfig(), Init(StrandingConfig(), {0}), Lease(0, 7)) == Waiting()
  {
    StrandingEdges();
    var cfg := StrandingConfig();
    var s := Init(cfg, {0});
    assert s.cells == Waiting().cells;
    assert s.rows == [Idle, Idle, Idle];
    assert s.pending == {ExecTask(0)};
  }

  /** One arrival without data at the middle one of three units. */
  function MiddleArrival(): seq<Arrival> { [Arrival(0, 0, WaitAll), Arrival(1, 0, WaitAll), Arrival(0, 0, WaitAll)] }

  lemma StrandingArrivals()
    ensures Arrivals(StrandingGraph(), 0, Success, {Exit(0, "false")}) == MiddleArrival()
  {
    StrandingEdges();
    var g, fired := StrandingGraph(), {Exit(0, "false")};
    assert BetweenOn(g, 0, 1, fired) == {} && BetweenOn(g, 0, 2, fired) == {} && BetweenOn(g, 0, 0, fired) == {};
  }

  /** It is the unit's last open edge: the unit is skipped. */
  lemma SkipsMiddle(s: State, u: nat, c: Cell)
    requires |s.cells| == 3 && s.cells[1].marker.Unset? && c.marker.Skip?
    requires c == SettleCell(s.cells[1], Arrival(1, 0, WaitAll))
    ensures Settle(s, u, MiddleArrival()) == s.(cells := [s.cells[0], c, s.cells[2]],
      settled := s.settled + {u}, order := s.order + [u], log := s.log + {SkipTask(1)},
      pending := s.pending + {SkipTask(1)})
  {
    var s' := Settle(s, u, MiddleArrival());
    assert s'.cells[0] == s.cells[0] && s'.cells[1] == c && s'.cells[2] == s.cells[2];
    var written := set v | 0 <= v < 3 && s.cells[v].marker.Unset? && !s'.cells[v].marker.Unset? ::
      TaskFor(v, s'.cells[v].marker);
    assert written == {SkipTask(1)};
  }

  /** The unit is decided already: only the counter moves. */
  lemma LowersMiddle(s: State, u: nat, c: Cell)
    requires |s.cells| == 3 && !s.cells[1].marker.Unset? && c == SettleCell(s.cells[1], Arrival(1, 0, WaitAll))
    ensures Settle(s, u, MiddleArrival()) == s.(cells := [s.cells[0], c, s.cells[2]],
      settled := s.settled + {u}, order := s.order + [u])
  {
    var s' := Settle(s, u, MiddleArrival());
    assert s'.cells[0] == s.cells[0] && s'.cells[1] == c && s'.cells[2] == s.cells[2];
    assert forall v | 0 <= v < 3 :: s.cells[v].marker.Unset? ==> s'.cells[v].marker.Unset?;
    assert s'.log == s.log && s'.pending == s.pending;
  }

  lemma SettlesToBranched(s: State)
    requires s == Stranded(OpenCells(), BranchRows(), {}, [], 2, {ExecTask(0)})
    ensures Settle(s, 0, MiddleArrival()) == Branched()
  {
    SkipsMiddle(s, 0, Cell(0, 0, Skip));
    assert s.settled + {0} == {0};
    assert s.order + [0] == [0];
    assert s.log + {SkipTask(1)} == {ExecTask(0), SkipTask(1)};
  }

  lemma SettlesToStuck(s: State)
    requires s == Stranded(BranchedCells(), SkippedRows(), {0}, [0], 1, {ExecTask(0), SkipTask(1)})
    ensures Settle(s, 1, MiddleArrival()) == Stuck()
  {
    LowersMiddle(s, 1, Cell(-1, 0, Skip));
    assert s.settled + {1} == {0, 1};
    assert s.order + [1] == [0, 1];
  }

  lemma BranchLand()
    ensures Land(StrandingConfig(), Waiting(), 0, Success, {Exit(0, "false")}, false)
         == Stranded(OpenCells(), BranchRows(), {}, [], 2, {ExecTask(0)})
  {
    assert Waiting().rows[0 := Done(Success, {Exit(0, "false")})] == BranchRows();
  }

  lemma StrandingBranch(cfg: Config, s: State)
    requires cfg == StrandingConfig() && s == Waiting()
    ensures Fits(cfg, s) && Step(cfg, s, Commit(0, 7, Success, {Exit(0, "false")}, false, false)) == Branched()
  {
    StrandingArrivals();
    var fired := {Exit(0, "false")};
    BranchLand();
    SettlesToBranched(Land(cfg, s, 0, Success, fired, false));
    CommitSettles(cfg, s, 0, 7, {Exit(0, "false")});
  }

  lemma SkipSettles(cfg: Config, s: State, u: nat)
    requires Fits(cfg, s) && cfg.fold && s.exec.Running? && s.remaining > 1
    requires SkipTask(u) in s.log && u < Size(cfg.g) && s.rows[u].Idle?
    ensures Step(cfg, s, HandleSkip(u))
         == Settle(Land(cfg, s, u, Skipped, {}, false), u, Arrivals(cfg.g, u, Skipped, {}))
  {
  }

  lemma StrandingLand()
    ensures Land(StrandingConfig(), Branched(), 1, Skipped, {}, false)
         == Stranded(BranchedCells(), SkippedRows(), {0}, [0], 1, {ExecTask(0), SkipTask(1)})
  {
    assert Branched().rows[1 := Done(Skipped, {})] == SkippedRows();
  }

  lemma StrandingSkip(cfg: Config, s: State)
    requires cfg == StrandingConfig() && s == Branched()
    ensures Fits(cfg, s) && Step(cfg, s, HandleSkip(1)) == Stuck()
  {
    var g := cfg.g;
    assert SkipCount(g, 1, 0) == 0 && SkipCount(g, 1, 1) == 1 && SkipCount(g, 1, 2) == 0;
    assert Arrivals(g, 1, Skipped, {}) == MiddleArrival();
    StrandingLand();
    SettlesToStuck(Land(cfg, s, 1, Skipped, {}, false));
    SkipSettles(cfg, s, 1);
  }

  lemma StuckFacts(s: State)
    requires s == Stuck()
    ensures s.exec.Running? && !Progressing(s) && LeftUnits(s) == {2}
  {
  }

  lemma RunThree(cfg: Config, s: State, a: Action, b: Action, c: Action)
    requires Fits(cfg, s)
    ensures Run(cfg, s, [a, b, c]) == Step(cfg, Step(cfg, Step(cfg, s, a), b), c)
  {
    RunSteps(cfg, s, a, b);
    RunOne(cfg, s, [a, b], c);
    assert [a, b] + [c] == [a, b, c];
  }

  /** The root takes its "false" branch and the group is skipped: nothing is
      leased, parked or outstanding, yet the execution is still running and one
      unit is left. */
  lemma SkippedGroupStrands(cfg: Config) returns (actions: seq<Action>)
    requires cfg == StrandingConfig()
    ensures WellFormed(cfg.g) && !SkipFaithful(cfg.g, 1)
    ensures var s := Run(cfg, Init(cfg, {0}), actions); s.exec.Running? && !Progressing(s) && LeftUnits(s) == {2}
  {
    StrandingEdges();
    StrandingStart();
    StrandingBranch(cfg, Waiting());
    StrandingSkip(cfg, Branched());
    var lease, commit, skip := Lease(0, 7), Commit(0, 7, Success, {Exit(0, "false")}, false, false), HandleSkip(1);
    RunThree(cfg, Init(cfg, {0}), lease, commit, skip);
    actions := [lease, commit, skip];
    StuckFacts(Stuck());
    assert SkipCount(cfg.g, 1, 2) == 0;
  }

  lemma StrandingBetween(g: Graph)
    requires g == StrandingGraph()
    ensures Between(g, 0, 0) == {} && Between(g, 0, 1) == {0} && Between(g, 0, 2) == {}
    ensures Between(g, 1, 0) == {} && Between(g, 1, 1) == {} && Between(g, 1, 2) == {1}
    ensures Between(g, 2, 0) == {} && Between(g, 2, 1) == {} && Between(g, 2, 2) == {}
  {
  }

  lemma StrandingSkips(g: Graph)
    requires g == StrandingGraph()
    ensures forall v: nat | v < 3 :: SkipCount(g, 0, v) == (if v == 1 then 1 else 0) && SkipCount(g, 2, v) == 0
    ensures forall v: nat | v < 3 :: SkipCount(g, 1, v) == (if v == 1 then 1 else 0)
  {
    assert g.skips[0] == [1] && g.skips[1] == [1] && g.skips[2] == [];
  }

  lemma StrandingWithin(g: Graph)
    requires g == StrandingGraph()
    ensures SkipWithin(g) && SkipFaithful(g, 0) && SkipFaithful(g, 2)
  {
    StrandingBetween(g);
    StrandingSkips(g);
  }

  lemma StrandingWellFormed(g: Graph)
    requires g == StrandingGraph()
    ensures WellFormed(g)
  {
    assert Ranked(g, [0, 1, 2]);
    StrandingWithin(g);
  }

  lemma StrandingEdges()
    ensures var g := StrandingGraph();
      && WellFormed(g)
      && Into(g, 0) == {} && Into(g, 1) == {0} && Into(g, 2) == {1}
      && Between(g, 0, 0) == {} && Between(g, 0, 1) == {0} && Between(g, 0, 2) == {} && Between(g, 1, 2) == {1}
  {
    var g := StrandingGraph();
    StrandingWellFormed(g);
    StrandingBetween(g);
  }
}
