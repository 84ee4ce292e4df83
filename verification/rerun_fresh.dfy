/** A seeded rerun is indistinguishable from a fresh run that executed exactly the
    copied units: such a run exists, and from there on the two move in step. */
module RerunFresh {
  import opened Common
  import opened Units
  import opened Store
  import opened Schedule
  import opened Reach
  import opened Canonical
  import opened Runs
  import opened Rerun

  /** Equal on everything the remaining run depends on: rows, counters and totals
      everywhere, decisions and tasks outside the copied units. */
  predicate Related(out: set<nat>, z: State, s: State) {
    && z.rows == s.rows && z.settled == s.settled
    && z.remaining == s.remaining && z.failed == s.failed && z.exec == s.exec
    && |z.cells| == |s.cells| == |s.rows|
    && (forall v: nat | v < |s.cells| ::
         z.cells[v].inDegree == s.cells[v].inDegree && z.cells[v].active == s.cells[v].active)
    && (forall v: nat | v < |s.cells| && v !in out :: z.cells[v] == s.cells[v])
    && (forall u :: u in out ==> u < |s.rows| && s.rows[u].Done? && u in s.settled)
    && (forall t :: t in z.log && (t.unit !in out || t.MergeCancelTask?) ==> t in s.log)
    && (forall t :: t in s.log && (t.unit !in out || t.MergeCancelTask?) ==> t in z.log)
  }

  /** No edge leads from a unit that is not copied to one that is. */
  predicate Upward(g: Graph, out: set<nat>) {
    forall i | 0 <= i < |g.edges| :: g.edges[i].dst in out ==> g.edges[i].src in out
  }

  lemma SettleRelated(g: Graph, out: set<nat>, z: State, s: State, u: nat, how: How, fired: set<Port>)
    requires WellFormed(g) && Upward(g, out) && Related(out, z, s) && |s.cells| == Size(g)
    requires u < Size(g) && u !in out
    ensures Related(out, Settle(z, u, Arrivals(g, u, how, fired)), Settle(s, u, Arrivals(g, u, how, fired)))
  {
    var arr := Arrivals(g, u, how, fired);
    forall v | v in out ensures arr[v].count == 0 {
      assert Between(g, u, v) == {};
      assert SkipCount(g, u, v) <= |Between(g, u, v)|;
    }
  }

  lemma TerminalizeRelated(cfg: Config, out: set<nat>, z: State, s: State, u: nat, how: How, fired: set<Port>,
                           fatal: bool)
    requires Valid(cfg) && Fits(cfg, s) && Upward(cfg.g, out) && Related(out, z, s) && u < Size(cfg.g) && u !in out
    ensures Fits(cfg, z)
    ensures Related(out, Terminalize(cfg, z, u, how, fired, fatal), Terminalize(cfg, s, u, how, fired, fatal))
  {
    var zl, sl := Land(cfg, z, u, how, fired, fatal), Land(cfg, s, u, how, fired, fatal);
    LandRelated(cfg, out, z, s, u, how, fired, fatal);
    if Terminalize(cfg, s, u, how, fired, fatal) == sl {
      if Terminalize(cfg, z, u, how, fired, fatal) != zl { SettleRelated(cfg.g, out, zl, sl, u, how, fired); }
    } else if Terminalize(cfg, s, u, how, fired, fatal) == Write(sl, AdvanceTask(u)) {
      assert Related(out, Write(zl, AdvanceTask(u)), Write(sl, AdvanceTask(u)));
      SettleRelated(cfg.g, out, zl, sl, u, how, fired);
    } else {
      SettleRelated(cfg.g, out, zl, sl, u, how, fired);
    }
  }

  lemma LandRelated(cfg: Config, out: set<nat>, z: State, s: State, u: nat, how: How, fired: set<Port>, fatal: bool)
    requires Related(out, z, s) && u < |s.rows| && u !in out
    ensures Related(out, Land(cfg, z, u, how, fired, fatal), Land(cfg, s, u, how, fired, fatal))
  {
  }

  predicate Plain(a: Action) {
    a.Lease? || a.Wait? || a.Suspend? || a.Requeue? || a.BeginCancel? || a.CancelParked? || a.FinishCancel?
      || a.Expire? || a.Drop?
  }

  lemma PlainRelated(cfg: Config, out: set<nat>, z: State, s: State, a: Action)
    requires Fits(cfg, s) && Related(out, z, s) && Plain(a)
    ensures Fits(cfg, z) && Related(out, Step(cfg, z, a), Step(cfg, s, a))
  {
  }

  lemma CommitRelated(cfg: Config, out: set<nat>, z: State, s: State, a: Action)
    requires Valid(cfg) && Fits(cfg, s) && Upward(cfg.g, out) && Related(out, z, s) && a.Commit?
    ensures Fits(cfg, z) && Related(out, Step(cfg, z, a), Step(cfg, s, a))
  {
    if Step(cfg, s, a) != s {
      TerminalizeRelated(cfg, out, z, s, a.unit, a.how, a.fired, a.fatal);
    }
  }

  lemma ServeRelated(cfg: Config, out: set<nat>, z: State, s: State, a: Action)
    requires Valid(cfg) && Fits(cfg, s) && Upward(cfg.g, out) && Related(out, z, s)
    requires a.ServeDisabled? || a.ServePinned?
    ensures Fits(cfg, z) && Related(out, Step(cfg, z, a), Step(cfg, s, a))
  {
    if a.unit < Size(cfg.g) && a.unit !in out {
      TerminalizeRelated(cfg, out, z, s, a.unit, Disabled, MainPort(cfg.g, a.unit), false);
      TerminalizeRelated(cfg, out, z, s, a.unit, Pinned, MainPort(cfg.g, a.unit), false);
    }
  }

  lemma SystemRelated(cfg: Config, out: set<nat>, z: State, s: State, a: Action)
    requires Valid(cfg) && Fits(cfg, s) && Upward(cfg.g, out) && Related(out, z, s)
    requires a.HandleSkip? || a.HandleAdvance? || a.HandleMergeCancel?
    ensures Fits(cfg, z) && Related(out, Step(cfg, z, a), Step(cfg, s, a))
  {
    if a.HandleAdvance? {
      AdvanceRelated(cfg, out, z, s, a.unit);
    } else if a.unit < Size(cfg.g) && a.unit !in out {
      TerminalizeRelated(cfg, out, z, s, a.unit, if a.HandleSkip? then Skipped else Canceled, {}, false);
    }
  }

  lemma AdvanceRelated(cfg: Config, out: set<nat>, z: State, s: State, u: nat)
    requires Valid(cfg) && Fits(cfg, s) && Upward(cfg.g, out) && Related(out, z, s)
    ensures Fits(cfg, z) && Related(out, Step(cfg, z, HandleAdvance(u)), Step(cfg, s, HandleAdvance(u)))
  {
    if u < Size(cfg.g) && u !in out && s.rows[u].Done? {
      SettleRelated(cfg.g, out, z, s, u, s.rows[u].how, s.rows[u].fired);
    }
  }

  /** After the seed, every action moves the rerun and the fresh run alike. */
  lemma {:induction false} RunRelated(cfg: Config, out: set<nat>, z: State, s: State, actions: seq<Action>)
    requires Valid(cfg) && Fits(cfg, s) && Upward(cfg.g, out) && Related(out, z, s)
    ensures Fits(cfg, z) && Related(out, Run(cfg, z, actions), Run(cfg, s, actions))
    decreases |actions|
  {
    if actions != [] {
      var a := actions[0];
      if Plain(a) { PlainRelated(cfg, out, z, s, a); }
      else if a.Commit? { CommitRelated(cfg, out, z, s, a); }
      else if a.ServeDisabled? || a.ServePinned? { ServeRelated(cfg, out, z, s, a); }
      else { SystemRelated(cfg, out, z, s, a); }
      RunRelated(cfg, out, Step(cfg, z, a), Step(cfg, s, a), actions[1..]);
    }
  }

  // ---- The fresh run exists ----

  lemma OutsideUpward(g: Graph, from: nat)
    requires InRange(g)
    ensures Upward(g, Outside(g, from))
  {
    forall i | 0 <= i < |g.edges| && g.edges[i].dst in Outside(g, from) ensures g.edges[i].src in Outside(g, from) {
      assert Linked(g, g.edges[i].src, g.edges[i].dst);
      if Reaches(g, from, g.edges[i].src) { ReachesOn(g, from, g.edges[i].src, g.edges[i].dst); }
    }
  }

  /** The parent's rows outside the subtree are successes, pins or cascaded skips. */
  predicate Settled(rows: seq<Row>, out: set<nat>) {
    forall u :: u in out ==> u < |rows| && rows[u].Done? && rows[u].how in {Success, Pinned, Skipped}
  }

  function CopyRow(u: nat, row: Row): Row { Done(Copy(u, row).how, Copy(u, row).fired) }

  /** The fresh run once every copied unit but `todo` is done. */
  ghost predicate Built(cfg: Config, entries: set<nat>, rows: seq<Row>, out: set<nat>, todo: set<nat>, s: State) {
    && Inv(cfg, s) && CanonicalState(cfg, entries, s) && |rows| == Size(cfg.g)
    && s.exec.Running? && s.failed == 0 && s.settled == DoneUnits(s) == out - todo && todo <= out
    && (forall u: nat | u < Size(cfg.g) :: s.rows[u] == if u in out - todo then CopyRow(u, rows[u]) else Idle)
    && CarriedOnly(out, s)
  }

  /** No task but executions and skips, and the advances of copied units. */
  predicate CarriedOnly(out: set<nat>, s: State) {
    forall t :: t in s.log ==> !t.MergeCancelTask? && (t.AdvanceTask? ==> t.unit in out)
  }

  /** A parent state: reachable, with every unit outside the subtree settled. */
  ghost predicate Parent(pcfg: Config, entries: set<nat>, out: set<nat>, p: State) {
    Inv(pcfg, p) && CanonicalState(pcfg, entries, p) && Settled(p.rows, out)
  }

  ghost predicate Ready(cfg: Config, pcfg: Config, entries: set<nat>, from: nat, p: State, out: set<nat>) {
    && Valid(cfg) && pcfg.g == cfg.g && from < Size(cfg.g) && from !in out
    && Upward(cfg.g, out) && (forall u :: u in out ==> u < Size(cfg.g) && cfg.g.kinds[u].NodeUnit?)
    && Parent(pcfg, entries, out, p)
  }

  /** What fires into the unit in the fresh run fires into it in the parent. */
  lemma FeedSame(cfg: Config, pcfg: Config, entries: set<nat>, from: nat, p: State, out: set<nat>,
                 todo: set<nat>, s: State, u: nat, i: nat)
    requires Ready(cfg, pcfg, entries, from, p, out) && Built(cfg, entries + {from}, p.rows, out, todo, s)
    requires i < |cfg.g.edges| && cfg.g.edges[i].dst == u && cfg.g.edges[i].src in out - todo
    ensures i in Live(cfg.g, s.settled, FiredBy(s), u) <==>
      p.rows[cfg.g.edges[i].src].how in {Success, Pinned} && cfg.g.edges[i].port in p.rows[cfg.g.edges[i].src].fired
    ensures i in Live(cfg.g, p.settled, FiredBy(p), u) ==> i in Live(cfg.g, s.settled, FiredBy(s), u)
    ensures cfg.g.edges[i].src in p.settled && i in Live(cfg.g, s.settled, FiredBy(s), u) ==>
      i in Live(cfg.g, p.settled, FiredBy(p), u)
  {
    assert UnitOk(cfg.g, p, cfg.g.edges[i].src);
  }

  lemma NextSkipped(cfg: Config, pcfg: Config, entries: set<nat>, from: nat, p: State, out: set<nat>,
                    todo: set<nat>, s: State, u: nat)
    requires Ready(cfg, pcfg, entries, from, p, out) && Built(cfg, entries + {from}, p.rows, out, todo, s) && u in todo
    requires !Root(cfg.g, u) && p.rows[u].how.Skipped?
    requires forall i | 0 <= i < |cfg.g.edges| && cfg.g.edges[i].dst == u :: cfg.g.edges[i].src in out - todo
    ensures Live(cfg.g, s.settled, FiredBy(s), u) == {}
  {
    var g := cfg.g;
    assert UnitOk(g, p, u) && Tallied(g, p, u) && Decided(g, p, u);
    forall i | 0 <= i < |g.edges| && g.edges[i].dst == u ensures i !in Live(g, s.settled, FiredBy(s), u) {
      FeedSame(cfg, pcfg, entries, from, p, out, todo, s, u, i);
      assert i !in Open(g, p.settled, u) && i !in Live(g, p.settled, FiredBy(p), u);
    }
  }

  lemma NextExecuted(cfg: Config, pcfg: Config, entries: set<nat>, from: nat, p: State, out: set<nat>,
                     todo: set<nat>, s: State, u: nat)
    requires Ready(cfg, pcfg, entries, from, p, out) && Built(cfg, entries + {from}, p.rows, out, todo, s) && u in todo
    requires !Root(cfg.g, u) && !p.rows[u].how.Skipped?
    requires forall i | 0 <= i < |cfg.g.edges| && cfg.g.edges[i].dst == u :: cfg.g.edges[i].src in out - todo
    ensures Live(cfg.g, s.settled, FiredBy(s), u) != {}
  {
    var g := cfg.g;
    assert UnitOk(g, p, u) && Tallied(g, p, u) && Decided(g, p, u);
    var i :| i in Live(g, p.settled, FiredBy(p), u);
    FeedSame(cfg, pcfg, entries, from, p, out, todo, s, u, i);
  }

  /** Only node units have been settled, so counters are exact and only one mode arrived. */
  lemma BuiltCell(cfg: Config, entries: set<nat>, rows: seq<Row>, out: set<nat>, todo: set<nat>, s: State, v: nat)
    requires Valid(cfg) && Built(cfg, entries, rows, out, todo, s) && v < Size(cfg.g)
    requires forall u :: u in out ==> u < Size(cfg.g) && cfg.g.kinds[u].NodeUnit?
    ensures s.cells[v].inDegree == |Open(cfg.g, s.settled, v)|
    ensures s.cells[v].active == |Live(cfg.g, s.settled, FiredBy(s), v)|
    ensures FirstIsAny(cfg.g, s, v) <==> cfg.g.modes[v].WaitAny? && s.cells[v].active > 0
  {
    assert Clean(cfg.g, s) && Tallied(cfg.g, s, v);
    CleanExact(cfg.g, s, v);
    OneModeFirst(cfg.g, s, v);
  }

  /** The unit has the same decision in the fresh run as in the parent. */
  lemma NextDecided(cfg: Config, pcfg: Config, entries: set<nat>, from: nat, p: State, out: set<nat>,
                    todo: set<nat>, s: State, u: nat)
    requires Ready(cfg, pcfg, entries, from, p, out) && Built(cfg, entries + {from}, p.rows, out, todo, s) && u in todo
    requires forall i | 0 <= i < |cfg.g.edges| && cfg.g.edges[i].dst == u :: cfg.g.edges[i].src in out - todo
    ensures if p.rows[u].how.Skipped? then SkipTask(u) in s.log else ExecTask(u) in s.log
  {
    var g := cfg.g;
    assert UnitOk(g, s, u) && CanonicalCell(cfg, entries + {from}, s, u);
    BuiltCell(cfg, entries + {from}, p.rows, out, todo, s, u);
    if Root(g, u) {
      assert UnitOk(g, p, u) && CanonicalCell(pcfg, entries, p, u);
    } else {
      assert Open(g, s.settled, u) == {};
      if p.rows[u].how.Skipped? { NextSkipped(cfg, pcfg, entries, from, p, out, todo, s, u); }
      else { NextExecuted(cfg, pcfg, entries, from, p, out, todo, s, u); }
    }
  }

  lemma DoneStep(cfg: Config, entries: set<nat>, rows: seq<Row>, out: set<nat>, todo: set<nat>, s: State,
                 u: nat, s': State)
    requires Built(cfg, entries, rows, out, todo, s) && u in todo && u < Size(cfg.g) && Inv(cfg, s')
    requires CanonicalState(cfg, entries, s') && CarriedOnly(out, s')
    requires s'.rows == s.rows[u := CopyRow(u, rows[u])] && s'.settled == s.settled + {u}
    requires s'.exec.Running? && s'.failed == 0
    ensures Built(cfg, entries, rows, out, todo - {u}, s')
  {
    assert out - (todo - {u}) == (out - todo) + {u};
    assert DoneUnits(s') == DoneUnits(s) + {u};
  }

  /** What follows a terminal write: nothing on a folding store, else its advance. */
  function Carriage(cfg: Config, u: nat): seq<Action> { if cfg.fold then [] else [HandleAdvance(u)] }

  /** A node's terminal write and its carriage: the unit is done and settled. */
  lemma CarriedDone(cfg: Config, s: State, u: nat, how: How, fired: set<Port>)
    requires Fits(cfg, s) && s.exec.Running? && s.remaining > 1 && how in {Success, Skipped}
    requires u < Size(cfg.g) && cfg.g.kinds[u].NodeUnit? && u !in s.settled
    ensures var s' := Run(cfg, Terminalize(cfg, s, u, how, fired, false), Carriage(cfg, u));
      && s'.rows == s.rows[u := Done(how, fired)] && s'.settled == s.settled + {u}
      && s'.exec.Running? && s'.failed == s.failed
      && forall t :: t in s'.log ==> t in s.log || t == AdvanceTask(u) || t.ExecTask? || t.SkipTask?
  {
    var landed := Land(cfg, s, u, how, fired, false);
    if !cfg.fold {
      var w := Write(landed, AdvanceTask(u));
      assert Terminalize(cfg, s, u, how, fired, false) == w;
      AdvanceSettles(cfg, w, u);
      RunSteps(cfg, w, HandleAdvance(u), HandleAdvance(u));
    }
  }

  lemma RunSound(cfg: Config, entries: set<nat>, s: State, actions: seq<Action>)
    requires Valid(cfg) && Inv(cfg, s) && CanonicalState(cfg, entries, s)
    ensures Inv(cfg, Run(cfg, s, actions)) && CanonicalState(cfg, entries, Run(cfg, s, actions))
  {
    RunKeeps(cfg, s, actions);
    RunCanonical(cfg, entries, s, actions);
  }

  lemma SkipNext(cfg: Config, entries: set<nat>, rows: seq<Row>, out: set<nat>, todo: set<nat>, s: State, u: nat)
    requires Valid(cfg) && Built(cfg, entries, rows, out, todo, s) && u in todo && s.remaining > 1
    requires SkipTask(u) in s.log && u < Size(cfg.g) && cfg.g.kinds[u].NodeUnit?
    requires rows[u].Done? && rows[u].how.Skipped?
    ensures Built(cfg, entries, rows, out, todo - {u}, Run(cfg, s, [HandleSkip(u)] + Carriage(cfg, u)))
  {
    SkipTerminalizes(cfg, s, u);
    RunSteps(cfg, s, HandleSkip(u), HandleSkip(u));
    RunExtends(cfg, s, [HandleSkip(u)], Carriage(cfg, u));
    CarriedDone(cfg, s, u, Skipped, {});
    RunSound(cfg, entries, s, [HandleSkip(u)] + Carriage(cfg, u));
    DoneStep(cfg, entries, rows, out, todo, s, u, Run(cfg, s, [HandleSkip(u)] + Carriage(cfg, u)));
  }

  /** The lease and commit of a unit that was a success or a pin. */
  function Redo(u: nat, fired: set<Port>): seq<Action> { [Lease(u, 0), Commit(u, 0, Success, fired, false, false)] }

  lemma CommitNext(cfg: Config, entries: set<nat>, rows: seq<Row>, out: set<nat>, todo: set<nat>, s: State, u: nat)
    requires Valid(cfg) && Built(cfg, entries, rows, out, todo, s) && u in todo && s.remaining > 1
    requires ExecTask(u) in s.log && u < Size(cfg.g) && cfg.g.kinds[u].NodeUnit?
    requires rows[u].Done? && rows[u].how in {Success, Pinned}
    ensures Built(cfg, entries, rows, out, todo - {u}, Run(cfg, s, Redo(u, rows[u].fired) + Carriage(cfg, u)))
  {
    var leased, fired := Step(cfg, s, Lease(u, 0)), rows[u].fired;
    CommitTerminalizes(cfg, leased, u, 0, fired);
    RunSteps(cfg, s, Lease(u, 0), Commit(u, 0, Success, fired, false, false));
    RunExtends(cfg, s, Redo(u, fired), Carriage(cfg, u));
    CarriedDone(cfg, leased, u, Success, fired);
    var s' := Run(cfg, s, Redo(u, fired) + Carriage(cfg, u));
    RunSound(cfg, entries, s, Redo(u, fired) + Carriage(cfg, u));
    assert s.rows[u := Leased(0, false)][u := Done(Success, fired)] == s.rows[u := CopyRow(u, rows[u])];
    DoneStep(cfg, entries, rows, out, todo, s, u, s');
  }

  /** Extends a fresh run by the copied units still to do, in rank order. */
  lemma {:induction false} Build(cfg: Config, pcfg: Config, entries: set<nat>, from: nat, p: State,
                                 out: set<nat>, todo: set<nat>, s: State)
    returns (actions: seq<Action>)
    requires Ready(cfg, pcfg, entries, from, p, out) && Built(cfg, entries + {from}, p.rows, out, todo, s)
    ensures Built(cfg, entries + {from}, p.rows, out, {}, Run(cfg, s, actions))
    decreases |todo|
  {
    if todo == {} { return []; }
    var u := Lowest(cfg.g, out, todo);
    NextDecided(cfg, pcfg, entries, from, p, out, todo, s, u);
    TwoLeft(s, u, from);
    var first: seq<Action>;
    if p.rows[u].how.Skipped? {
      first := [HandleSkip(u)] + Carriage(cfg, u);
      SkipNext(cfg, entries + {from}, p.rows, out, todo, s, u);
    } else {
      first := Redo(u, p.rows[u].fired) + Carriage(cfg, u);
      CommitNext(cfg, entries + {from}, p.rows, out, todo, s, u);
    }
    var rest := Build(cfg, pcfg, entries, from, p, out, todo - {u}, Run(cfg, s, first));
    RunExtends(cfg, s, first, rest);
    actions := first + rest;
  }

  lemma TwoLeft(s: State, u: nat, from: nat)
    requires CountOk(s) && s.exec.Running? && u != from && {u, from} <= LeftUnits(s)
    ensures s.remaining > 1
  {
    Subset({u, from}, LeftUnits(s));
  }

  lemma Lowest(g: Graph, out: set<nat>, todo: set<nat>) returns (u: nat)
    requires Acyclic(g) && Upward(g, out) && todo != {} && todo <= out && forall w :: w in out ==> w < Size(g)
    ensures u in todo
    ensures forall i | 0 <= i < |g.edges| && g.edges[i].dst == u :: g.edges[i].src in out - todo
  {
    var rank :| Ranked(g, rank);
    u :| u in todo;
    while exists w: nat :: w in todo && rank[w] < rank[u]
      invariant u in todo
      decreases rank[u]
    {
      var w: nat :| w in todo && rank[w] < rank[u];
      u := w;
    }
  }

  /** The rows, settled units and totals of the seed are the fresh run's. */
  lemma RowsRelated(cfg: Config, entries: set<nat>, rows: seq<Row>, from: nat, units: seq<Resolution>,
                    start: set<nat>, z: State, s: State)
    requires WellFormed(cfg.g) && from < Size(cfg.g) == |rows| && PlanOf(cfg.g, rows, from, Size(cfg.g), units)
    requires SeedOf(cfg.g, units, start, z) && Built(cfg, entries, rows, Outside(cfg.g, from), {}, s)
    ensures z.rows == s.rows && z.settled == s.settled == Copied(units) == Outside(cfg.g, from)
    ensures FiredBy(z) == FiredBy(s)
    ensures z.remaining == s.remaining && z.exec == s.exec && z.failed == s.failed
  {
    var g, out := cfg.g, Outside(cfg.g, from);
    PlanCopies(g, rows, from, units);
    assert out - {} == out;
    forall u: nat | u < Size(g) ensures z.rows[u] == s.rows[u] {
      if u in out { CopiedRow(g, rows, from, units, start, z, u); }
    }
    Complement(s, out);
  }

  lemma CopiedRow(g: Graph, rows: seq<Row>, from: nat, units: seq<Resolution>, start: set<nat>, z: State, u: nat)
    requires |g.modes| == Size(g) == |rows| && PlanOf(g, rows, from, Size(g), units)
    requires SeedOf(g, units, start, z) && u in Outside(g, from)
    ensures z.rows[u] == CopyRow(u, rows[u])
  {
    var k :| 0 <= k < |units| && units[k].unit == u;
    assert units[k] in units;
  }

  lemma CellRelated(cfg: Config, entries: set<nat>, rows: seq<Row>, out: set<nat>, z: State, s: State, v: nat)
    requires Valid(cfg) && Built(cfg, entries, rows, out, {}, s) && v < Size(cfg.g)
    requires forall u :: u in out ==> u < Size(cfg.g) && cfg.g.kinds[u].NodeUnit?
    requires s.settled == out && FiredBy(z) == FiredBy(s) && |z.rows| == |s.rows| && |z.cells| == |s.cells|
    requires SeedCell(cfg.g, out, out, FiredBy(z), z.cells[v], v)
    requires Root(cfg.g, v) && v !in out ==> v in entries
    ensures z.cells[v].inDegree == s.cells[v].inDegree && z.cells[v].active == s.cells[v].active
    ensures v !in out ==> z.cells[v] == s.cells[v]
  {
    assert CanonicalCell(cfg, entries, s, v);
    BuiltCell(cfg, entries, rows, out, {}, s, v);
  }

  /** The seed equals any fresh run that is done with exactly the copied units. */
  lemma SeedRelated(cfg: Config, entries: set<nat>, rows: seq<Row>, from: nat, units: seq<Resolution>, z: State,
                    s: State)
    requires WellFormed(cfg.g) && from < Size(cfg.g) == |rows| && PlanOf(cfg.g, rows, from, Size(cfg.g), units)
    requires forall u :: u in Outside(cfg.g, from) ==> cfg.g.kinds[u].NodeUnit?
    requires SeedOf(cfg.g, units, if Root(cfg.g, from) then {from} else {}, z)
    requires Built(cfg, entries + {from}, rows, Outside(cfg.g, from), {}, s)
    ensures Related(Outside(cfg.g, from), z, s)
  {
    var g, out := cfg.g, Outside(cfg.g, from);
    RowsRelated(cfg, entries + {from}, rows, from, units, if Root(g, from) then {from} else {}, z, s);
    forall v: nat | v < Size(g)
      ensures z.cells[v].inDegree == s.cells[v].inDegree && z.cells[v].active == s.cells[v].active
      ensures v !in out ==> z.cells[v] == s.cells[v] && (Root(g, v) ==> v == from)
    {
      if v !in out && Root(g, v) { OnlyRoot(g, from, v); }
      CellRelated(cfg, entries + {from}, rows, out, z, s, v);
    }
    forall t: Task | t.unit !in out ensures t in z.log <==> t in s.log {
      TasksRelated(cfg, entries, from, z, s, t);
    }
    forall t: Task | t.MergeCancelTask? ensures t !in z.log && t !in s.log {
      assert t in z.log <==> SeedTask(z, if Root(g, from) then {from} else {}, t);
    }
  }

  lemma TasksRelated(cfg: Config, entries: set<nat>, from: nat, z: State, s: State, t: Task)
    requires Inv(cfg, s) && |z.cells| == |s.cells|
    requires t in s.log ==> !t.MergeCancelTask? && !t.AdvanceTask?
    requires t in z.log <==> SeedTask(z, if Root(cfg.g, from) then {from} else {}, t)
    requires t.unit < |s.cells| ==> z.cells[t.unit] == s.cells[t.unit] && (Root(cfg.g, t.unit) ==> t.unit == from)
    requires from < Size(cfg.g) && CanonicalCell(cfg, entries + {from}, s, from)
    ensures t in z.log <==> t in s.log
  {
    if t.unit < Size(cfg.g) { assert UnitOk(cfg.g, s, t.unit); }
  }

  lemma PlanCopies(g: Graph, rows: seq<Row>, from: nat, units: seq<Resolution>)
    requires from < Size(g) == |rows| && PlanOf(g, rows, from, Size(g), units)
    ensures Copied(units) == Outside(g, from) && |units| == |Outside(g, from)|
  {
    forall u | u in Outside(g, from) ensures u in Copied(units) {
      var k :| 0 <= k < |units| && units[k].unit == u;
      assert units[k] in units;
    }
    CopiedSize(units);
  }

  lemma {:induction false} CopiedSize(units: seq<Resolution>)
    requires forall j, k | 0 <= j < k < |units| :: units[j].unit < units[k].unit
    ensures |Copied(units)| == |units|
    decreases |units|
  {
    if units != [] {
      var last := |units| - 1;
      CopiedSize(units[..last]);
      assert units == units[..last] + [units[last]];
      assert Copied(units) == Copied(units[..last]) + {units[last].unit};
      assert units[last].unit !in Copied(units[..last]);
    }
  }

  lemma LinkedInto(g: Graph, u: nat, v: nat)
    requires Linked(g, u, v)
    ensures !Root(g, v)
  {
    var i :| 0 <= i < |g.edges| && g.edges[i].src == u && g.edges[i].dst == v;
    assert i in Into(g, v);
  }

  /** The start is the only root among what it reaches. */
  lemma OnlyRoot(g: Graph, from: nat, v: nat)
    requires Reaches(g, from, v) && Root(g, v)
    ensures v == from
  {
    var p :| PathBetween(g, p, from, v);
    if |p| > 1 { LinkedInto(g, p[|p| - 2], p[|p| - 2 + 1]); }
  }

  lemma Complement(s: State, out: set<nat>)
    requires DoneUnits(s) == out
    ensures |LeftUnits(s)| == |s.rows| - |out|
  {
    assert LeftUnits(s) + DoneUnits(s) == Range(|s.rows|);
    assert LeftUnits(s) !! DoneUnits(s);
  }

  lemma StartBuilt(cfg: Config, entries: set<nat>, rows: seq<Row>, from: nat)
    requires Valid(cfg) && Entries(cfg, entries) && from < Size(cfg.g) == |rows|
    ensures Built(cfg, entries + {from}, rows, Outside(cfg.g, from), Outside(cfg.g, from),
      Init(cfg, Starts(cfg.g, entries, from)))
  {
    var out, s := Outside(cfg.g, from), Init(cfg, Starts(cfg.g, entries, from));
    InitKeeps(cfg, Starts(cfg.g, entries, from));
    InitCanonical(cfg, Starts(cfg.g, entries, from));
    StartsOnly(cfg, entries, from, s);
    assert out - out == {} && DoneUnits(s) == {};
  }

  /** A rerun's start is an entry of its own when no edge can reach it. */
  function Starts(g: Graph, entries: set<nat>, from: nat): set<nat> {
    if Root(g, from) then entries + {from} else entries
  }

  /** The rerun of a parent in a given state and a fresh run agree. */
  lemma RerunMatches(cfg: Config, pcfg: Config, entries: set<nat>, p: State, from: nat, units: seq<Resolution>,
                     z: State)
    returns (actions: seq<Action>)
    requires Valid(cfg) && pcfg.g == cfg.g && Entries(cfg, entries) && from < Size(cfg.g)
    requires Parent(pcfg, entries, Outside(cfg.g, from), p) && Plannable(cfg.g, p.rows, from)
    requires PlanOf(cfg.g, p.rows, from, Size(cfg.g), units)
    requires SeedOf(cfg.g, units, if Root(cfg.g, from) then {from} else {}, z)
    ensures var anew := Run(cfg, Init(cfg, Starts(cfg.g, entries, from)), actions);
      && DoneUnits(anew) == Outside(cfg.g, from) && anew.exec.Running? && Fits(cfg, z)
      && Related(Outside(cfg.g, from), z, anew) && Upward(cfg.g, Outside(cfg.g, from))
  {
    var g, out := cfg.g, Outside(cfg.g, from);
    var s := Init(cfg, Starts(g, entries, from));
    StartBuilt(cfg, entries, p.rows, from);
    ReachesSelf(g, from);
    RankedInRange(g);
    OutsideUpward(g, from);
    actions := Build(cfg, pcfg, entries, from, p, out, out, s);
    SeedRelated(cfg, entries, p.rows, from, units, z, Run(cfg, s, actions));
    assert out - {} == out;
  }

  /** If everything outside the subtree was a success, a pin or a cascaded skip in the state
      the parent's run has reached, then some fresh run of the workflow executed exactly
      those units with those outcomes, and whatever happens next the rerun and that run
      agree, on a folding store or an advancing one. */
  lemma RerunIsFreshRun(cfg: Config, pcfg: Config, entries: set<nat>, history: seq<Action>, from: nat,
                        units: seq<Resolution>, z: State)
    returns (actions: seq<Action>)
    requires Valid(cfg) && pcfg.g == cfg.g && Entries(cfg, entries) && from < Size(cfg.g)
    requires var p := Run(pcfg, Init(pcfg, entries), history);
      && Settled(p.rows, Outside(cfg.g, from)) && Plannable(cfg.g, p.rows, from)
      && PlanOf(cfg.g, p.rows, from, Size(cfg.g), units)
    requires SeedOf(cfg.g, units, if Root(cfg.g, from) then {from} else {}, z)
    ensures var anew := Run(cfg, Init(cfg, Starts(cfg.g, entries, from)), actions);
      && DoneUnits(anew) == Outside(cfg.g, from) && anew.exec.Running? && Fits(cfg, z)
      && forall more: seq<Action> :: Related(Outside(cfg.g, from), Run(cfg, z, more), Run(cfg, anew, more))
  {
    var p := Run(pcfg, Init(pcfg, entries), history);
    RunFacts(pcfg, entries, history);
    actions := RerunMatches(cfg, pcfg, entries, p, from, units, z);
    var out, anew := Outside(cfg.g, from), Run(cfg, Init(cfg, Starts(cfg.g, entries, from)), actions);
    forall more: seq<Action> ensures Related(out, Run(cfg, z, more), Run(cfg, anew, more)) {
      RunRelated(cfg, out, z, anew, more);
    }
  }

  /** Naming a unit that is not a root as an entry changes no canonical cell. */
  lemma StartsOnly(cfg: Config, entries: set<nat>, from: nat, s: State)
    requires CanonicalState(cfg, Starts(cfg.g, entries, from), s)
    ensures CanonicalState(cfg, entries + {from}, s)
  {
    forall v: nat | v < Size(cfg.g) ensures CanonicalCell(cfg, entries + {from}, s, v) {
      assert CanonicalCell(cfg, Starts(cfg.g, entries, from), s, v);
    }
  }

  lemma RankedInRange(g: Graph)
    requires Acyclic(g)
    ensures InRange(g)
  {
    var rank :| Ranked(g, rank);
  }

  // ---- How the start itself is decided ----

  lemma {:induction false} RankAlong(g: Graph, rank: seq<nat>, p: seq<nat>)
    requires Ranked(g, rank) && Path(g, p) && p[0] < Size(g)
    ensures p[|p| - 1] < Size(g) && rank[p[0]] <= rank[p[|p| - 1]]
    decreases |p|
  {
    if |p| > 1 {
      assert Linked(g, p[0], p[0 + 1]);
      forall i | 0 <= i < |p[1..]| - 1 ensures Linked(g, p[1..][i], p[1..][i + 1]) {
        assert Linked(g, p[i + 1], p[i + 1 + 1]);
      }
      RankAlong(g, rank, p[1..]);
    }
  }

  /** Every source of the start is copied. */
  lemma SourcesCopied(g: Graph, from: nat)
    requires Acyclic(g) && from < Size(g)
    ensures forall i | 0 <= i < |g.edges| && g.edges[i].dst == from :: g.edges[i].src in Outside(g, from)
  {
    var rank :| Ranked(g, rank);
    forall i | 0 <= i < |g.edges| && g.edges[i].dst == from ensures g.edges[i].src in Outside(g, from) {
      if Reaches(g, from, g.edges[i].src) {
        var p :| PathBetween(g, p, from, g.edges[i].src);
        RankAlong(g, rank, p);
      }
    }
  }

  /** Some edge into `v` comes from a row whose status is in `hows` and fired it. */
  predicate FedBy(g: Graph, rows: seq<Row>, hows: set<How>, v: nat) {
    exists i | 0 <= i < |g.edges| && g.edges[i].dst == v :: var src := g.edges[i].src;
      src < |rows| && rows[src].Done? && rows[src].how in hows && g.edges[i].port in rows[src].fired
  }

  /** An edge from a copied unit is live in the seed if the copy kept its port. */
  lemma CopiedLive(g: Graph, rows: seq<Row>, from: nat, units: seq<Resolution>, start: set<nat>, z: State, i: nat)
    requires |g.modes| == Size(g) == |rows| && from < Size(g) && PlanOf(g, rows, from, Size(g), units)
    requires SeedOf(g, units, start, z)
    requires i < |g.edges| && g.edges[i].dst == from && g.edges[i].src in Outside(g, from)
    ensures forall u :: u in Outside(g, from) ==> u < |FiredBy(z)|
    ensures i in Live(g, Outside(g, from), FiredBy(z), from) <==>
      var row := rows[g.edges[i].src];
      row.Done? && row.how in {Success, Pinned} && g.edges[i].port in row.fired
  {
    var k :| 0 <= k < |units| && units[k].unit == g.edges[i].src;
    assert units[k] in units;
  }

  lemma FiresIffLive(g: Graph, rows: seq<Row>, from: nat, units: seq<Resolution>, start: set<nat>, z: State)
    requires WellFormed(g) && Size(g) == |rows| && from < Size(g) && PlanOf(g, rows, from, Size(g), units)
    requires SeedOf(g, units, start, z)
    ensures forall u :: u in Outside(g, from) ==> u < |FiredBy(z)|
    ensures FedBy(g, rows, {Success, Pinned}, from) <==> Live(g, Outside(g, from), FiredBy(z), from) != {}
    ensures Open(g, Outside(g, from), from) == {}
  {
    SourcesCopied(g, from);
    var out := Outside(g, from);
    if FedBy(g, rows, {Success, Pinned}, from) {
      var i :| 0 <= i < |g.edges| && g.edges[i].dst == from && var src := g.edges[i].src;
        src < |rows| && rows[src].Done? && rows[src].how in {Success, Pinned} && g.edges[i].port in rows[src].fired;
      CopiedLive(g, rows, from, units, start, z, i);
    } else if i :| i in Live(g, out, FiredBy(z), from) {
      CopiedLive(g, rows, from, units, start, z, i);
    }
  }

  /** The start is decided exactly once: it runs if no edge leads to it or a copied
      success or pin fires into it, and is skipped otherwise. */
  lemma StartDecidedOnce(g: Graph, rows: seq<Row>, from: nat, units: seq<Resolution>, z: State)
    requires WellFormed(g) && from < Size(g) == |rows| && PlanOf(g, rows, from, Size(g), units)
    requires SeedOf(g, units, if Root(g, from) then {from} else {}, z)
    ensures ExecTask(from) in z.log <==> SkipTask(from) !in z.log
    ensures ExecTask(from) in z.log <==> Root(g, from) || FedBy(g, rows, {Success, Pinned}, from)
  {
    PlanCopies(g, rows, from, units);
    ReachesSelf(g, from);
    FiresIffLive(g, rows, from, units, if Root(g, from) then {from} else {}, z);
    assert SeedCell(g, Outside(g, from), Outside(g, from), FiredBy(z), z.cells[from], from);
  }

  // ---- What the copy loses ----

  /** What each of the parent's units fired. */
  function FiredIn(rows: seq<Row>): seq<set<Port>> {
    seq(|rows|, u requires 0 <= u < |rows| => if rows[u].Done? then rows[u].fired else {})
  }

  /** Every copied row that fired an edge into `v` was a success or a pin. */
  ghost predicate KeptInto(g: Graph, rows: seq<Row>, from: nat, v: nat)
    requires Size(g) == |rows|
  {
    forall i | 0 <= i < |g.edges| && g.edges[i].dst == v && g.edges[i].src in Outside(g, from) ::
      var row := rows[g.edges[i].src];
      row.Done? && g.edges[i].port in row.fired ==> row.how in {Success, Pinned}
  }

  function KeptPorts(row: Row): set<Port> {
    if row.Done? && row.how in {Success, Pinned} then row.fired else {}
  }

  lemma CopiedFires(g: Graph, rows: seq<Row>, from: nat, units: seq<Resolution>, start: set<nat>, z: State, u: nat)
    requires |g.modes| == Size(g) == |rows| && PlanOf(g, rows, from, Size(g), units) && SeedOf(g, units, start, z)
    requires u in Outside(g, from)
    ensures u < |FiredBy(z)| && FiredBy(z)[u] == KeptPorts(rows[u])
  {
    CopiedRow(g, rows, from, units, start, z, u);
  }

  /** Firing fewer ports makes fewer edges live, unless none of the others led to `v`. */
  lemma LiveFewer(g: Graph, out: set<nat>, few: seq<set<Port>>, all: seq<set<Port>>, v: nat)
    requires forall u :: u in out ==> u < |few| && u < |all| && few[u] <= all[u]
    ensures |Live(g, out, few, v)| <= |Live(g, out, all, v)|
    ensures |Live(g, out, few, v)| == |Live(g, out, all, v)| <==>
      forall i | 0 <= i < |g.edges| && g.edges[i].dst == v && g.edges[i].src in out ::
        g.edges[i].port in all[g.edges[i].src] ==> g.edges[i].port in few[g.edges[i].src]
  {
    var kept, every := Live(g, out, few, v), Live(g, out, all, v);
    assert kept <= every;
    Subset(kept, every);
    if i :| i in every && i !in kept {
      Subset(kept + {i}, every);
    } else {
      assert kept == every;
      forall i | 0 <= i < |g.edges| && g.edges[i].dst == v && g.edges[i].src in out
        && g.edges[i].port in all[g.edges[i].src]
        ensures g.edges[i].port in few[g.edges[i].src]
      {
        assert i in every;
      }
    }
  }

  /** The plan promises that copied arrivals are what the units' own advances computed.
      For each unit the seeded active counter is the number of edges that the parent's
      copied rows fired into it, if and only if every row that fired one was a success or
      a pin: a disabled, failed or continued node is copied as having fired nothing. */
  lemma ReplayFaithfulIff(g: Graph, rows: seq<Row>, from: nat, units: seq<Resolution>, start: set<nat>,
                          z: State, v: nat)
    requires WellFormed(g) && from < Size(g) == |rows| && PlanOf(g, rows, from, Size(g), units)
    requires SeedOf(g, units, start, z) && v < Size(g)
    ensures z.cells[v].active <= |Live(g, Outside(g, from), FiredIn(rows), v)|
    ensures z.cells[v].active == |Live(g, Outside(g, from), FiredIn(rows), v)| <==> KeptInto(g, rows, from, v)
  {
    var out := Outside(g, from);
    SeedActive(g, rows, from, units, start, z, v);
    forall u | u in out ensures u < |FiredBy(z)| && FiredBy(z)[u] == KeptPorts(rows[u]) {
      CopiedFires(g, rows, from, units, start, z, u);
    }
    LiveFewer(g, out, FiredBy(z), FiredIn(rows), v);
  }

  lemma SeedActive(g: Graph, rows: seq<Row>, from: nat, units: seq<Resolution>, start: set<nat>, z: State, v: nat)
    requires WellFormed(g) && from < Size(g) == |rows| && PlanOf(g, rows, from, Size(g), units)
    requires SeedOf(g, units, start, z) && v < Size(g)
    ensures (forall u :: u in Outside(g, from) ==> u < |FiredBy(z)|)
    ensures z.cells[v].active == |Live(g, Outside(g, from), FiredBy(z), v)|
  {
    PlanCopies(g, rows, from, units);
    assert SeedCell(g, Outside(g, from), Outside(g, from), FiredBy(z), z.cells[v], v);
  }

  /** Of the inputs of the start itself only those of rows stored as skipped, which a
      disabled node's is, can be lost. The start is
      decided as the parent's rows dictate if and only if a success or pin fires into it
      or no disabled node does. */
  lemma StartReplayIff(g: Graph, rows: seq<Row>, from: nat, units: seq<Resolution>, z: State)
    requires WellFormed(g) && from < Size(g) == |rows| && PlanOf(g, rows, from, Size(g), units) && !Root(g, from)
    requires SeedOf(g, units, {}, z) && Plannable(g, rows, from)
    ensures KeptInto(g, rows, from, from) <==> !FedBy(g, rows, {Disabled, Skipped}, from)
    ensures (ExecTask(from) in z.log <==> FedBy(g, rows, {Success, Pinned, Disabled}, from))
       <==> (FedBy(g, rows, {Success, Pinned}, from) || !FedBy(g, rows, {Disabled}, from))
  {
    StartDecidedOnce(g, rows, from, units, z);
    SourcesCopied(g, from);
    forall i | 0 <= i < |g.edges| && g.edges[i].dst == from
      ensures g.edges[i].src in Outside(g, from) && Copyable(rows[g.edges[i].src])
    {
      assert Linked(g, g.edges[i].src, from);
      ReachesSelf(g, from);
      assert Precedes(g, g.edges[i].src, from);
    }
    if i :| 0 <= i < |g.edges| && g.edges[i].dst == from && var src := g.edges[i].src;
         src < |rows| && rows[src].Done? && rows[src].how in {Success, Pinned, Disabled}
           && g.edges[i].port in rows[src].fired {
      assert FedBy(g, rows, {Success, Pinned}, from) || FedBy(g, rows, {Disabled}, from);
    }
  }

  lemma DisabledEdges(g: Graph)
    requires g == DisabledGraph()
    ensures WellFormed(g) && Into(g, 1) == {0}
  {
    assert Ranked(g, [0, 1]);
    assert Between(g, 0, 0) == {} && Between(g, 0, 1) == {0};
    assert Between(g, 1, 0) == {} && Between(g, 1, 1) == {};
    assert SkipFaithful(g, 0) && SkipFaithful(g, 1);
  }

  /** A disabled node in front of the start: the parent ran the start, the rerun
      skips it. */
  lemma DisabledUpstreamIsLost(g: Graph, z: State)
    requires g == DisabledGraph() && SeedOf(g, [Resolution(0, Skipped, {})], {}, z)
    ensures WellFormed(g) && PlanOf(g, DisabledRows(), 1, 2, [Resolution(0, Skipped, {})])
    ensures SkipTask(1) in z.log && FedBy(g, DisabledRows(), {Disabled}, 1)
  {
    DisabledEdges(g);
    SourcesCopied(g, 1);
    ReachesSelf(g, 1);
    assert g.edges[0].dst == 1 && g.edges[0].src in Outside(g, 1);
    StartDecidedOnce(g, DisabledRows(), 1, [Resolution(0, Skipped, {})], z);
  }

  function DisabledGraph(): Graph {
    Graph([NodeUnit, NodeUnit], [0, 1], [WaitAll, WaitAll], [WaitAll, WaitAll],
          [Edge(0, 1, Exit(0, "main"))], [[1], []])
  }

  function DisabledRows(): seq<Row> { [Done(Disabled, {Exit(0, "main")}), Idle] }

  /** The start and a second root both feed a merge. */
  function MergeGraph(): Graph {
    Graph([NodeUnit, NodeUnit, NodeUnit], [0, 1, 2], [WaitAll, WaitAll, WaitAll], [WaitAll, WaitAll, WaitAll],
          [Edge(0, 2, Exit(0, "main")), Edge(1, 2, Exit(1, "main"))], [[2], [2], []])
  }

  /** The second root failed and went on under "continue", feeding the merge. */
  function ContinuedRows(): seq<Row> { [Done(Failed, {}), Done(Continued, {Exit(1, "main")}), Idle] }

  lemma MergeEdges(g: Graph)
    requires g == MergeGraph()
    ensures WellFormed(g) && Outside(g, 0) == {1} && Into(g, 2) == {0, 1}
  {
    assert Ranked(g, [0, 0, 1]);
    forall u: nat, v: nat | u < 3 && v < 3 ensures SkipCount(g, u, v) == |Between(g, u, v)| {
      assert Between(g, u, v) == if u < 2 && v == 2 then {u} else {};
    }
    ReachesSelf(g, 0);
    ReachesSelf(g, 2);
    assert g.edges[0].src == 0 && Linked(g, 0, 2);
    ReachesBack(g, 0, 2, 2);
    if Reaches(g, 0, 1) { OnlyRoot(g, 0, 1); }
  }

  lemma MergePlannable(g: Graph)
    requires g == MergeGraph()
    ensures PlanOf(g, ContinuedRows(), 0, 3, [Resolution(1, Skipped, {})]) && Plannable(g, ContinuedRows(), 0)
  {
    MergeEdges(g);
    if w :| Linked(g, 1, w) && Reaches(g, w, 0) {
      ReachesBack(g, 1, w, 0);
      OnlyRoot(g, 1, 0);
    }
    var units := [Resolution(1, Skipped, {})];
    assert units[0].unit == 1;
  }

  lemma MergeFed(g: Graph, rows: seq<Row>)
    requires g == MergeGraph() && rows == ContinuedRows()
    ensures WellFormed(g) && |Live(g, Outside(g, 0), FiredIn(rows), 2)| == 1 && !KeptInto(g, rows, 0, 2)
  {
    MergeEdges(g);
    assert Live(g, {1}, FiredIn(rows), 2) == {1};
    assert g.edges[1].dst == 2 && g.edges[1].src in Outside(g, 0);
  }

  /** A continued node beside the start: the parent's merge had one live input, the rerun's
      has none, although the plan accepts the parent. */
  lemma ContinuedIsLost(g: Graph, rows: seq<Row>, units: seq<Resolution>, z: State)
    requires g == MergeGraph() && rows == ContinuedRows() && units == [Resolution(1, Skipped, {})]
    requires SeedOf(g, units, {0}, z)
    ensures WellFormed(g) && PlanOf(g, rows, 0, 3, units) && Plannable(g, rows, 0)
    ensures |Live(g, Outside(g, 0), FiredIn(rows), 2)| == 1 && z.cells[2].active == 0
  {
    MergePlannable(g);
    MergeFed(g, rows);
    ReplayFaithfulIff(g, rows, 0, units, {0}, z, 2);
    SeedActive(g, rows, 0, units, {0}, z, 2);
  }
}
