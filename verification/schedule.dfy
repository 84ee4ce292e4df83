/** What every run of the scheduler keeps: exact counters, one decision per unit,
    and skips that mean "no inbound route was active". */
module Schedule {
  import opened Common
  import opened Units
  import opened Store

  function FiredBy(s: State): (f: seq<set<Port>>)
    ensures |f| == |s.rows|
    ensures forall u :: 0 <= u < |f| ==> f[u] == if s.rows[u].Done? then s.rows[u].fired else {}
  {
    seq(|s.rows|, u requires 0 <= u < |s.rows| => if s.rows[u].Done? then s.rows[u].fired else {})
  }

  function DoneUnits(s: State): set<nat> {
    set u: nat | u < |s.rows| && s.rows[u].Done?
  }

  function LeftUnits(s: State): set<nat> {
    set u: nat | u < |s.rows| && !s.rows[u].Done?
  }

  /** How many counts a terminal unit sends to `v`. */
  function Sent(g: Graph, how: How, u: nat, v: nat): nat
    requires |g.skips| == Size(g) && u < Size(g)
  {
    if how.Skipped? || how.Canceled? then SkipCount(g, u, v) else |Between(g, u, v)|
  }

  /** By how much the arrivals of the settled units among the first `n` fell short of the
      edges they stand for at `v`. */
  function Drift(g: Graph, rows: seq<Row>, settled: set<nat>, v: nat, n: nat): int
    requires |g.skips| == Size(g) && n <= Size(g) == |rows|
  {
    if n == 0 then 0
    else Drift(g, rows, settled, v, n - 1) +
         if n - 1 in settled && rows[n - 1].Done?
         then |Between(g, n - 1, v)| - Sent(g, rows[n - 1].how, n - 1, v) else 0
  }

  /** What a skipped unit took off its own counter. */
  function SelfSent(g: Graph, s: State, v: nat): nat
    requires |g.skips| == Size(g) && v < Size(g)
  {
    if v in s.settled then SkipCount(g, v, v) else 0
  }

  /** A unit's counters in terms of the edges into it. */
  predicate Tallied(g: Graph, s: State, v: nat)
    requires |g.skips| == Size(g) == |s.rows| && v < |s.cells| && s.settled <= DoneUnits(s)
  {
    && s.cells[v].inDegree == |Open(g, s.settled, v)| + Drift(g, s.rows, s.settled, v, Size(g))
    && s.cells[v].active == |Live(g, s.settled, FiredBy(s), v)|
  }

  /** How a unit's marker reflects its counters. */
  predicate Decided(g: Graph, s: State, v: nat)
    requires |g.skips| == Size(g) && v < Size(g) && v < |s.cells|
  {
    var c := s.cells[v];
    match c.marker
    case Execute => c.active > 0
    case Skip => Open(g, s.settled, v) == {} && c.active == 0 && c.inDegree + SelfSent(g, s, v) == 0
    case Unset => Root(g, v) || c.inDegree > 0
    case Seeded => false
  }

  predicate CellsOk(g: Graph, s: State) {
    && |s.cells| == |s.rows| == |g.skips| == Size(g)
    && s.settled <= DoneUnits(s)
    && (forall u :: u in s.settled && s.rows[u].how.Canceled? ==> g.kinds[u].NodeUnit?)
    && forall v: nat | v < Size(g) :: Tallied(g, s, v) && Decided(g, s, v)
  }

  /** No unit whose skip misses its edges has been settled as skipped. */
  predicate Clean(g: Graph, s: State)
    requires |g.skips| == Size(g) == |s.rows|
  {
    forall u :: u in s.settled && u < Size(g) && s.rows[u].Done? && s.rows[u].how.Skipped? ==> SkipFaithful(g, u)
  }

  /** Only a terminal unit is advanced, and a group only after a skip: any other group
      commit carries its arrivals itself. */
  predicate Advances(g: Graph, s: State, v: nat)
    requires v < |s.rows| == Size(g)
  {
    s.rows[v].Done? && !s.rows[v].how.Canceled? && (g.kinds[v].GroupUnit? ==> s.rows[v].how.Skipped?)
  }

  /** A unit's tasks agree with its decision, and its row with its tasks. */
  predicate UnitOk(g: Graph, s: State, v: nat)
    requires v < |s.cells| == |s.rows| == Size(g)
  {
    && (ExecTask(v) in s.log ==> s.cells[v].marker.Execute? || (Root(g, v) && s.cells[v].marker.Unset?))
    && (s.cells[v].marker.Execute? ==> ExecTask(v) in s.log)
    && (SkipTask(v) in s.log <==> s.cells[v].marker.Skip?)
    && (AdvanceTask(v) in s.log ==> Advances(g, s, v))
    && (Root(g, v) && g.kinds[v].GroupUnit? ==> s.cells[v].marker.Unset?)
    && match s.rows[v]
       case Idle => true
       case Leased(_, _) => ExecTask(v) in s.log
       case Parked => ExecTask(v) in s.log
       case Done(how, fired) =>
         if how.Skipped? then SkipTask(v) in s.log && fired == {}
         else ExecTask(v) in s.log && (how.Canceled? ==> fired == {})
  }

  predicate TasksOk(g: Graph, s: State) {
    && |s.cells| == |s.rows| == Size(g)
    && (forall t :: t in s.log ==> t.unit < Size(g))
    && (forall v: nat | v < Size(g) :: UnitOk(g, s, v))
    && s.pending <= s.log
  }

  predicate CountOk(s: State) {
    && s.remaining >= |LeftUnits(s)| && s.failed >= 0
    && (s.exec.Running? ==> s.remaining == |LeftUnits(s)| > 0)
    && (s.exec.Succeeded? ==> LeftUnits(s) == {} && s.failed == 0)
  }

  /** While the run is live every terminal unit's arrivals have been applied or
      are owed by an advance task. */
  predicate Owed(cfg: Config, s: State) {
    s.exec.Running? ==> forall u :: u in DoneUnits(s) && u !in s.settled ==> !cfg.fold && AdvanceTask(u) in s.log
  }

  predicate Inv(cfg: Config, s: State) {
    && Fits(cfg, s) && CellsOk(cfg.g, s) && TasksOk(cfg.g, s) && CountOk(s) && Owed(cfg, s)
    && (cfg.fold || forall t :: t in s.log ==> !t.MergeCancelTask?)
  }

  ghost predicate Valid(cfg: Config) { WellFormed(cfg.g) }

  /** Entries are in-degree-zero units, as the compiler checks. */
  ghost predicate Entries(cfg: Config, entries: set<nat>) {
    forall u :: u in entries ==> u < Size(cfg.g) && Root(cfg.g, u)
  }

  // ---- Drift ----

  /** One more settled unit adds exactly its own shortfall. */
  lemma {:induction false} DriftAfter(g: Graph, rows: seq<Row>, settled: set<nat>, u: nat, v: nat, n: nat)
    requires |g.skips| == Size(g) == |rows| && n <= Size(g) && u < Size(g) && u !in settled && rows[u].Done?
    ensures Drift(g, rows, settled + {u}, v, n)
         == Drift(g, rows, settled, v, n) + if u < n then |Between(g, u, v)| - Sent(g, rows[u].how, u, v) else 0
  {
    if n > 0 { DriftAfter(g, rows, settled, u, v, n - 1); }
  }

  lemma {:induction false} DriftSame(g: Graph, rows: seq<Row>, rows': seq<Row>, settled: set<nat>, v: nat, n: nat)
    requires |g.skips| == Size(g) == |rows| == |rows'| && n <= Size(g)
    requires forall u: nat | u < Size(g) && u in settled :: rows'[u] == rows[u]
    ensures Drift(g, rows', settled, v, n) == Drift(g, rows, settled, v, n)
  {
    if n > 0 { DriftSame(g, rows, rows', settled, v, n - 1); }
  }

  lemma {:induction false} DriftEmpty(g: Graph, rows: seq<Row>, v: nat, n: nat)
    requires |g.skips| == Size(g) == |rows| && n <= Size(g)
    ensures Drift(g, rows, {}, v, n) == 0
  {
    if n > 0 { DriftEmpty(g, rows, v, n - 1); }
  }

  /** Where no settled unit over-counts, the drift is not negative, and it is zero only
      if none of them falls short. */
  lemma {:induction false} DriftSign(g: Graph, rows: seq<Row>, settled: set<nat>, v: nat, n: nat)
    requires |g.skips| == Size(g) == |rows| && n <= Size(g)
    requires forall u: nat | u < n && u in settled && rows[u].Done? :: Sent(g, rows[u].how, u, v) <= |Between(g, u, v)|
    ensures Drift(g, rows, settled, v, n) >= 0
    ensures Drift(g, rows, settled, v, n) == 0 ==>
      forall u: nat | u < n && u in settled && rows[u].Done? :: Sent(g, rows[u].how, u, v) == |Between(g, u, v)|
  {
    if n > 0 { DriftSign(g, rows, settled, v, n - 1); }
  }

  lemma {:induction false} DriftZero(g: Graph, rows: seq<Row>, settled: set<nat>, v: nat, n: nat)
    requires |g.skips| == Size(g) == |rows| && n <= Size(g)
    requires forall u: nat | u < n && u in settled && rows[u].Done? :: Sent(g, rows[u].how, u, v) == |Between(g, u, v)|
    ensures Drift(g, rows, settled, v, n) == 0
  {
    if n > 0 { DriftZero(g, rows, settled, v, n - 1); }
  }

  /** A unit other than `v` itself, or one that was not skipped, never over-counts. */
  lemma SentWithin(g: Graph, how: How, u: nat, v: nat)
    requires WellFormed(g) && u < Size(g) && v < Size(g) && (how.Canceled? ==> g.kinds[u].NodeUnit?)
    requires u == v ==> !how.Skipped?
    ensures Sent(g, how, u, v) <= |Between(g, u, v)|
  {
    if g.kinds[u].NodeUnit? { assert SkipFaithful(g, u); }
  }

  /** Unless `v` itself was skipped, nothing over-counts at `v`. */
  lemma DriftWithin(g: Graph, s: State, v: nat)
    requires WellFormed(g) && |s.rows| == Size(g) && v < Size(g) && s.settled <= DoneUnits(s)
    requires forall u :: u in s.settled && s.rows[u].how.Canceled? ==> g.kinds[u].NodeUnit?
    requires v in s.settled ==> !s.rows[v].how.Skipped?
    ensures Drift(g, s.rows, s.settled, v, Size(g)) >= 0
    ensures Drift(g, s.rows, s.settled, v, Size(g)) == 0 ==>
      forall u :: u in s.settled ==> Sent(g, s.rows[u].how, u, v) == |Between(g, u, v)|
  {
    forall u: nat | u < Size(g) && u in s.settled && s.rows[u].Done?
      ensures Sent(g, s.rows[u].how, u, v) <= |Between(g, u, v)|
    {
      SentWithin(g, s.rows[u].how, u, v);
    }
    DriftSign(g, s.rows, s.settled, v, Size(g));
  }

  /** In a clean state every counter is exactly the number of edges still open. */
  lemma CleanExact(g: Graph, s: State, v: nat)
    requires WellFormed(g) && CellsOk(g, s) && Clean(g, s) && v < Size(g)
    ensures s.cells[v].inDegree == |Open(g, s.settled, v)|
  {
    forall u: nat | u < Size(g) && u in s.settled && s.rows[u].Done?
      ensures Sent(g, s.rows[u].how, u, v) == |Between(g, u, v)|
    {
      if s.rows[u].how.Skipped? || s.rows[u].how.Canceled? { assert SkipFaithful(g, u); }
    }
    DriftZero(g, s.rows, s.settled, v, Size(g));
    assert Tallied(g, s, v);
  }

  // ---- What every step keeps ----

  lemma InitKeeps(cfg: Config, entries: set<nat>)
    requires Valid(cfg) && Entries(cfg, entries)
    ensures Inv(cfg, Init(cfg, entries))
  {
    var s := Init(cfg, entries);
    forall v: nat | v < Size(cfg.g) ensures Tallied(cfg.g, s, v) && Decided(cfg.g, s, v) {
      assert Open(cfg.g, {}, v) == Into(cfg.g, v);
      assert Live(cfg.g, {}, FiredBy(s), v) == {};
      DriftEmpty(cfg.g, s.rows, v, Size(cfg.g));
    }
    AllLeft(s);
  }

  lemma AllLeft(s: State)
    requires forall u: nat | u < |s.rows| :: !s.rows[u].Done?
    ensures |LeftUnits(s)| == |s.rows|
  {
    assert LeftUnits(s) == Range(|s.rows|);
  }

  function Range(n: nat): (r: set<nat>)
    ensures |r| == n && forall u: nat :: u in r <==> u < n
  {
    if n == 0 then {} else Range(n - 1) + {n - 1}
  }

  /** One unit's arrivals move every counter by what they send and by what they fire. */
  lemma ArrivalTallies(g: Graph, s: State, u: nat, v: nat)
    requires WellFormed(g) && |s.cells| == |s.rows| == Size(g) && s.settled <= DoneUnits(s)
    requires u < Size(g) && v < Size(g) && s.rows[u].Done? && u !in s.settled && Tallied(g, s, v)
    requires s.rows[u].how.Skipped? || s.rows[u].how.Canceled? ==> s.rows[u].fired == {}
    ensures Tallied(g, Settle(s, u, Arrivals(g, u, s.rows[u].how, s.rows[u].fired)), v)
    ensures Arrivals(g, u, s.rows[u].how, s.rows[u].fired)[v].active == |BetweenOn(g, u, v, s.rows[u].fired)|
  {
    var how, fired := s.rows[u].how, s.rows[u].fired;
    var s' := Settle(s, u, Arrivals(g, u, how, fired));
    assert FiredBy(s') == FiredBy(s);
    OpenAfter(g, s.settled, u, v);
    LiveAfter(g, s.settled, FiredBy(s), FiredBy(s), u, v);
    DriftAfter(g, s.rows, s.settled, u, v, Size(g));
    Subset(BetweenOn(g, u, v, fired), Between(g, u, v));
    if how.Skipped? || how.Canceled? { assert BetweenOn(g, u, v, fired) == {}; }
  }

  /** A root receives no arrival, unless it is a group that skips itself. */
  lemma RootUntouched(g: Graph, u: nat, how: How, fired: set<Port>, v: nat)
    requires WellFormed(g) && u < Size(g) && v < Size(g) && Root(g, v)
    requires u == v && (how.Skipped? || how.Canceled?) ==> g.kinds[u].NodeUnit?
    ensures Arrivals(g, u, how, fired)[v].count == 0
  {
    assert Between(g, u, v) <= Into(g, v);
    if g.kinds[u].NodeUnit? { assert SkipFaithful(g, u); }
  }

  /** A decision that has been taken stands, whatever arrives afterwards. */
  lemma MarkedStays(g: Graph, s: State, u: nat, v: nat)
    requires WellFormed(g) && CellsOk(g, s) && u < Size(g) && v < Size(g) && u !in s.settled
    requires s.rows[u].Done? && UnitOk(g, s, u) && (s.rows[u].how.Canceled? ==> g.kinds[u].NodeUnit?)
    requires !s.cells[v].marker.Unset?
    ensures Decided(g, Settle(s, u, Arrivals(g, u, s.rows[u].how, s.rows[u].fired)), v)
  {
    assert Tallied(g, s, v) && Decided(g, s, v);
    var s' := Settle(s, u, Arrivals(g, u, s.rows[u].how, s.rows[u].fired));
    if s.cells[v].marker.Skip? {
      OpenBounds(g, s.settled, u, v);
      assert Open(g, s'.settled, v) <= Open(g, s.settled, v);
      Subset(BetweenOn(g, u, v, s.rows[u].fired), Between(g, u, v));
      if u != v { SentWithin(g, s.rows[u].how, u, v); }
    }
  }

  /** A unit that has sources is decided when, and only when, its counters say so. */
  lemma FedDecides(g: Graph, s: State, s': State, a: Arrival, v: nat)
    requires WellFormed(g) && CellsOk(g, s) && v < Size(g) && !Root(g, v) && s.cells[v].marker.Unset?
    requires |s'.cells| == |s'.rows| == Size(g) && s'.settled <= DoneUnits(s') && v !in s'.settled && Tallied(g, s', v)
    requires forall u :: u in s'.settled && s'.rows[u].how.Canceled? ==> g.kinds[u].NodeUnit?
    requires s'.cells[v] == SettleCell(s.cells[v], a) && (a.count == 0 ==> a.active == 0)
    ensures Decided(g, s', v)
  {
    assert Tallied(g, s, v) && Decided(g, s, v);
    DriftWithin(g, s', v);
  }

  lemma UnsetDecides(g: Graph, s: State, u: nat, v: nat)
    requires WellFormed(g) && CellsOk(g, s) && u < Size(g) && v < Size(g) && u !in s.settled
    requires s.rows[u].Done? && UnitOk(g, s, u) && UnitOk(g, s, v)
    requires s.rows[u].how.Canceled? ==> g.kinds[u].NodeUnit?
    requires s.cells[v].marker.Unset? && Tallied(g, Settle(s, u, Arrivals(g, u, s.rows[u].how, s.rows[u].fired)), v)
    ensures Decided(g, Settle(s, u, Arrivals(g, u, s.rows[u].how, s.rows[u].fired)), v)
  {
    var arr := Arrivals(g, u, s.rows[u].how, s.rows[u].fired);
    if Root(g, v) {
      RootUntouched(g, u, s.rows[u].how, s.rows[u].fired, v);
    } else {
      Subset(BetweenOn(g, u, v, s.rows[u].fired), Between(g, u, v));
      FedDecides(g, s, Settle(s, u, arr), arr[v], v);
    }
  }

  lemma SettleCells(g: Graph, s: State, u: nat)
    requires WellFormed(g) && CellsOk(g, s) && TasksOk(g, s) && u < Size(g) && s.rows[u].Done? && u !in s.settled
    requires s.rows[u].how.Canceled? ==> g.kinds[u].NodeUnit?
    ensures CellsOk(g, Settle(s, u, Arrivals(g, u, s.rows[u].how, s.rows[u].fired)))
  {
    var s' := Settle(s, u, Arrivals(g, u, s.rows[u].how, s.rows[u].fired));
    assert UnitOk(g, s, u);
    forall v: nat | v < Size(g) ensures Tallied(g, s', v) && Decided(g, s', v) {
      assert Tallied(g, s, v) && UnitOk(g, s, v);
      ArrivalTallies(g, s, u, v);
      if s.cells[v].marker.Unset? { UnsetDecides(g, s, u, v); } else { MarkedStays(g, s, u, v); }
    }
  }

  /** Applying a terminal unit's arrivals keeps counters, decisions and tasks. */
  lemma SettleKeeps(g: Graph, s: State, u: nat)
    requires WellFormed(g) && CellsOk(g, s) && TasksOk(g, s) && u < Size(g) && s.rows[u].Done? && u !in s.settled
    requires s.rows[u].how.Canceled? ==> g.kinds[u].NodeUnit?
    ensures var s' := Settle(s, u, Arrivals(g, u, s.rows[u].how, s.rows[u].fired));
      CellsOk(g, s') && TasksOk(g, s') && s'.rows == s.rows && s'.exec == s.exec && s'.remaining == s.remaining
  {
    var arr := Arrivals(g, u, s.rows[u].how, s.rows[u].fired);
    var s' := Settle(s, u, arr);
    assert UnitOk(g, s, u);
    SettleCells(g, s, u);
    forall v: nat | v < Size(g) ensures UnitOk(g, s', v) {
      assert UnitOk(g, s, v);
      if Root(g, v) { RootUntouched(g, u, s.rows[u].how, s.rows[u].fired, v); }
      SettleUnit(g, s, u, arr, v);
    }
  }

  lemma SettleUnit(g: Graph, s: State, u: nat, arr: seq<Arrival>, v: nat)
    requires |arr| == |s.cells| == |s.rows| == Size(g) && v < Size(g) && UnitOk(g, s, v)
    requires Root(g, v) ==> arr[v].count == 0
    ensures UnitOk(g, Settle(s, u, arr), v)
  {
    var s' := Settle(s, u, arr);
    var c, c' := s.cells[v], s'.cells[v];
    if c.marker.Unset? && !c'.marker.Unset? { assert TaskFor(v, c'.marker) in s'.log; }
  }

  /** Rows that keep what the settled units did keep every counter. */
  lemma RowsKeep(g: Graph, s: State, rows: seq<Row>)
    requires CellsOk(g, s) && |rows| == Size(g)
    requires forall u: nat | u < Size(g) && s.rows[u].Done? :: rows[u] == s.rows[u]
    ensures CellsOk(g, s.(rows := rows))
  {
    var s' := s.(rows := rows);
    forall v: nat | v < Size(g) ensures Tallied(g, s', v) && Decided(g, s', v) {
      assert Tallied(g, s, v) && Decided(g, s, v);
      assert Live(g, s.settled, FiredBy(s'), v) == Live(g, s.settled, FiredBy(s), v);
      DriftSame(g, s.rows, rows, s.settled, v, Size(g));
    }
  }

  lemma RowKeeps(g: Graph, s: State, u: nat, row: Row)
    requires CellsOk(g, s) && TasksOk(g, s) && u < Size(g) && !s.rows[u].Done?
    requires UnitOk(g, s.(rows := s.rows[u := row]), u)
    ensures var s' := s.(rows := s.rows[u := row]); CellsOk(g, s') && TasksOk(g, s')
  {
    RowsKeep(g, s, s.rows[u := row]);
    var s' := s.(rows := s.rows[u := row]);
    forall v: nat | v < Size(g) ensures UnitOk(g, s', v) {
      assert UnitOk(g, s, v);
    }
  }

  /** A terminal write touches neither counters nor tasks and takes one unit off
      the ones still left. */
  lemma LandKeeps(cfg: Config, s: State, u: nat, how: How, fired: set<Port>, fatal: bool)
    requires Inv(cfg, s) && u < Size(cfg.g) && !s.rows[u].Done? && Active(s.exec)
    requires if how.Skipped? then SkipTask(u) in s.log else ExecTask(u) in s.log
    requires how.Skipped? || how.Canceled? ==> fired == {}
    ensures var s' := Land(cfg, s, u, how, fired, fatal);
      && CellsOk(cfg.g, s') && TasksOk(cfg.g, s') && CountOk(s')
      && DoneUnits(s') == DoneUnits(s) + {u} && u !in s.settled
  {
    var s' := Land(cfg, s, u, how, fired, fatal);
    assert UnitOk(cfg.g, s, u);
    RowKeeps(cfg.g, s, u, Done(how, fired));
    SameUnits(cfg.g, s.(rows := s'.rows), s');
    LeftShrinks(s, s', u);
  }

  lemma LeftShrinks(s: State, s': State, u: nat)
    requires u < |s.rows| && !s.rows[u].Done? && |s'.rows| == |s.rows|
    requires s'.rows[u].Done? && s'.rows == s.rows[u := s'.rows[u]]
    ensures |LeftUnits(s)| == |LeftUnits(s')| + 1
  {
    assert LeftUnits(s) == LeftUnits(s') + {u};
  }

  /** The counters and tasks do not depend on the totals or the status. */
  lemma SameUnits(g: Graph, s: State, s': State)
    requires CellsOk(g, s) && TasksOk(g, s)
    requires s'.cells == s.cells && s'.rows == s.rows && s'.settled == s.settled && s'.log == s.log
    requires s'.pending <= s.pending
    ensures CellsOk(g, s') && TasksOk(g, s')
  {
    assert FiredBy(s') == FiredBy(s);
    forall v: nat | v < Size(g) ensures UnitOk(g, s', v) && Tallied(g, s', v) && Decided(g, s', v) {
      assert UnitOk(g, s, v) && Tallied(g, s, v) && Decided(g, s, v);
    }
  }

  /** A unit has just become terminal and its arrivals are still to be carried. */
  predicate Landed(cfg: Config, s: State, landed: State, u: nat) {
    && Inv(cfg, s) && Fits(cfg, landed) && CellsOk(cfg.g, landed) && TasksOk(cfg.g, landed) && CountOk(landed)
    && DoneUnits(landed) == DoneUnits(s) + {u} && u < Size(cfg.g) && u !in s.settled
    && landed.settled == s.settled && landed.log == s.log && (landed.exec.Running? ==> s.exec.Running?)
  }

  lemma LandedSettles(cfg: Config, s: State, landed: State, u: nat)
    requires Valid(cfg) && Landed(cfg, s, landed, u) && landed.rows[u].Done?
    requires landed.rows[u].how.Canceled? ==> cfg.g.kinds[u].NodeUnit?
    ensures Inv(cfg, Settle(landed, u, Arrivals(cfg.g, u, landed.rows[u].how, landed.rows[u].fired)))
  {
    var s' := Settle(landed, u, Arrivals(cfg.g, u, landed.rows[u].how, landed.rows[u].fired));
    SettleKeeps(cfg.g, landed, u);
    assert LeftUnits(s') == LeftUnits(landed) && DoneUnits(s') == DoneUnits(landed);
  }

  lemma LandedWrites(cfg: Config, s: State, landed: State, u: nat)
    requires Landed(cfg, s, landed, u) && Advances(cfg.g, landed, u) && !cfg.fold
    ensures Inv(cfg, Write(landed, AdvanceTask(u)))
  {
    var s' := Write(landed, AdvanceTask(u));
    WriteKeeps(cfg.g, landed, AdvanceTask(u));
    assert LeftUnits(s') == LeftUnits(landed) && DoneUnits(s') == DoneUnits(landed);
  }

  lemma TerminalizeKeeps(cfg: Config, s: State, u: nat, how: How, fired: set<Port>, fatal: bool)
    requires Valid(cfg) && Inv(cfg, s) && u < Size(cfg.g) && !s.rows[u].Done? && Active(s.exec)
    requires if how.Skipped? then SkipTask(u) in s.log else ExecTask(u) in s.log
    requires how.Skipped? || how.Canceled? ==> fired == {}
    requires how.Canceled? ==> cfg.fold && cfg.g.kinds[u].NodeUnit?
    ensures Inv(cfg, Terminalize(cfg, s, u, how, fired, fatal))
  {
    LandKeeps(cfg, s, u, how, fired, fatal);
    var landed := Land(cfg, s, u, how, fired, fatal);
    var s' := Terminalize(cfg, s, u, how, fired, fatal);
    if s' == landed {
    } else if s' == Write(landed, AdvanceTask(u)) {
      LandedWrites(cfg, s, landed, u);
    } else {
      LandedSettles(cfg, s, landed, u);
    }
  }

  lemma WriteKeeps(g: Graph, s: State, t: Task)
    requires CellsOk(g, s) && TasksOk(g, s) && t.unit < Size(g) && !t.SkipTask?
    requires t.ExecTask? ==> t in s.log
    requires t.AdvanceTask? ==> Advances(g, s, t.unit)
    ensures CellsOk(g, Write(s, t)) && TasksOk(g, Write(s, t))
  {
    var s' := Write(s, t);
    assert FiredBy(s') == FiredBy(s);
    forall v: nat | v < Size(g) ensures UnitOk(g, s', v) && Tallied(g, s', v) && Decided(g, s', v) {
      assert UnitOk(g, s, v) && Tallied(g, s, v) && Decided(g, s, v);
    }
  }

  lemma FinishKeeps(cfg: Config, s: State, u: nat, how: How, fired: set<Port>, fatal: bool, cancels: bool)
    requires Valid(cfg) && Inv(cfg, s) && u < Size(cfg.g) && s.rows[u].Leased? && Active(s.exec)
    requires how in {Success, Failed, Continued}
    ensures Inv(cfg, FinishCommit(cfg, s, u, how, fired, fatal, cancels))
  {
    assert UnitOk(cfg.g, s, u);
    TerminalizeKeeps(cfg, s, u, how, fired, fatal);
    WriteKeeps(cfg.g, Terminalize(cfg, s, u, how, fired, fatal), MergeCancelTask(u));
  }

  /** Moves of one live row: lease, wait, suspend and requeue. */
  lemma MoveKeeps(cfg: Config, s: State, u: nat, row: Row)
    requires Inv(cfg, s) && u < Size(cfg.g) && !s.rows[u].Done? && ExecTask(u) in s.log && !row.Done?
    ensures Inv(cfg, s.(rows := s.rows[u := row]))
    ensures Inv(cfg, Write(s.(rows := s.rows[u := row]), ExecTask(u)))
  {
    assert UnitOk(cfg.g, s, u);
    var s' := s.(rows := s.rows[u := row]);
    RowKeeps(cfg.g, s, u, row);
    assert LeftUnits(s') == LeftUnits(s) && DoneUnits(s') == DoneUnits(s);
    WriteKeeps(cfg.g, s', ExecTask(u));
    assert LeftUnits(Write(s', ExecTask(u))) == LeftUnits(s);
  }

  lemma CancelKeeps(cfg: Config, s: State, u: nat)
    requires Inv(cfg, s) && u < Size(cfg.g) && (s.rows[u].Parked? || s.rows[u].Leased?) && !s.exec.Running?
    ensures Inv(cfg, s.(rows := s.rows[u := Done(Canceled, {})]))
  {
    assert UnitOk(cfg.g, s, u);
    RowKeeps(cfg.g, s, u, Done(Canceled, {}));
    LeftShrinks(s, s.(rows := s.rows[u := Done(Canceled, {})]), u);
  }

  lemma AdvanceKeeps(cfg: Config, s: State, u: nat)
    requires Valid(cfg) && Inv(cfg, s) && u < Size(cfg.g) && s.rows[u].Done? && u !in s.settled
    requires AdvanceTask(u) in s.log
    ensures Inv(cfg, Settle(s, u, Arrivals(cfg.g, u, s.rows[u].how, s.rows[u].fired)))
  {
    assert UnitOk(cfg.g, s, u);
    SettleKeeps(cfg.g, s, u);
    var s' := Settle(s, u, Arrivals(cfg.g, u, s.rows[u].how, s.rows[u].fired));
    assert LeftUnits(s') == LeftUnits(s) && DoneUnits(s') == DoneUnits(s);
  }

  lemma StatusKeeps(cfg: Config, s: State, exec: Exec, pending: set<Task>)
    requires Inv(cfg, s) && (exec == s.exec || !(exec.Running? || exec.Succeeded?)) && pending <= s.pending
    ensures Inv(cfg, s.(exec := exec, pending := pending))
  {
    var s' := s.(exec := exec, pending := pending);
    SameUnits(cfg.g, s, s');
    assert LeftUnits(s') == LeftUnits(s) && DoneUnits(s') == DoneUnits(s);
  }

  lemma RowStepKeeps(cfg: Config, s: State, a: Action)
    requires Inv(cfg, s) && (a.Lease? || a.Wait? || a.Suspend? || a.Requeue? || a.CancelParked?)
    requires a.unit < Size(cfg.g) && Step(cfg, s, a) != s
    ensures Inv(cfg, Step(cfg, s, a))
  {
    assert UnitOk(cfg.g, s, a.unit);
    match a
    case Lease(u, token) => MoveKeeps(cfg, s, u, Leased(token, false));
    case Wait(u, token) => MoveKeeps(cfg, s, u, Leased(token, true));
    case Suspend(u, token) => MoveKeeps(cfg, s, u, Parked);
    case Requeue(u, token) => MoveKeeps(cfg, s, u, Idle);
    case CancelParked(u) => CancelKeeps(cfg, s, u);
  }

  lemma ServeStepKeeps(cfg: Config, s: State, a: Action)
    requires Valid(cfg) && Inv(cfg, s) && (a.ServeDisabled? || a.ServePinned?) && Step(cfg, s, a) != s
    ensures Inv(cfg, Step(cfg, s, a))
  {
    TerminalizeKeeps(cfg, s, a.unit, if a.ServeDisabled? then Disabled else Pinned, MainPort(cfg.g, a.unit), false);
  }

  lemma SystemStepKeeps(cfg: Config, s: State, a: Action)
    requires Valid(cfg) && Inv(cfg, s) && (a.HandleSkip? || a.HandleAdvance? || a.HandleMergeCancel?)
    requires Step(cfg, s, a) != s
    ensures Inv(cfg, Step(cfg, s, a))
  {
    assert UnitOk(cfg.g, s, a.unit);
    match a
    case HandleSkip(u) => TerminalizeKeeps(cfg, s, u, Skipped, {}, false);
    case HandleAdvance(u) => AdvanceKeeps(cfg, s, u);
    case HandleMergeCancel(m, u) => TerminalizeKeeps(cfg, s, u, Canceled, {}, false);
  }

  lemma StatusStepKeeps(cfg: Config, s: State, a: Action)
    requires Inv(cfg, s) && (a.BeginCancel? || a.FinishCancel? || a.Expire? || a.Drop?) && Step(cfg, s, a) != s
    ensures Inv(cfg, Step(cfg, s, a))
  {
    match a
    case BeginCancel => StatusKeeps(cfg, s, Canceling, s.pending);
    case FinishCancel => StatusKeeps(cfg, s, Cancelled, s.pending);
    case Expire => StatusKeeps(cfg, s, TimedOut, s.pending);
    case Drop(t) => StatusKeeps(cfg, s, s.exec, s.pending - {t});
  }

  lemma StepKeeps(cfg: Config, s: State, a: Action)
    requires Valid(cfg) && Inv(cfg, s)
    ensures Inv(cfg, Step(cfg, s, a))
  {
    if Step(cfg, s, a) == s {
    } else if a.Commit? {
      FinishKeeps(cfg, s, a.unit, a.how, a.fired, a.fatal, a.cancels);
    } else if a.ServeDisabled? || a.ServePinned? {
      ServeStepKeeps(cfg, s, a);
    } else if a.HandleSkip? || a.HandleAdvance? || a.HandleMergeCancel? {
      SystemStepKeeps(cfg, s, a);
    } else if a.BeginCancel? || a.FinishCancel? || a.Expire? || a.Drop? {
      StatusStepKeeps(cfg, s, a);
    } else {
      RowStepKeeps(cfg, s, a);
    }
  }

  lemma {:induction false} RunKeeps(cfg: Config, s: State, actions: seq<Action>)
    requires Valid(cfg) && Inv(cfg, s)
    ensures Inv(cfg, Run(cfg, s, actions))
    decreases |actions|
  {
    if actions != [] {
      StepKeeps(cfg, s, actions[0]);
      RunKeeps(cfg, Step(cfg, s, actions[0]), actions[1..]);
    }
  }
}
