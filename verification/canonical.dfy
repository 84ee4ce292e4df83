/** The store's scheduling state as a function of the terminal rows whose arrivals were
    applied and, for one kind of unit, of the order they were applied in. */
module Canonical {
  import opened Common
  import opened Units
  import opened Store
  import opened Runs
  import opened Schedule
  import opened Liveness

  /** The settled unit `u` fired an edge into `v`. */
  predicate Fires(g: Graph, s: State, u: nat, v: nat) {
    u < |s.rows| && s.rows[u].Done? && BetweenOn(g, u, v, s.rows[u].fired) != {}
  }

  /** The merge mode an arrival of `u` carries to `v`. */
  function Carried(g: Graph, u: nat, v: nat): Mode
    requires |g.modes| == |g.unitModes| == Size(g) && u < Size(g) && v < Size(g)
  {
    if g.kinds[u].NodeUnit? then g.modes[v] else g.unitModes[v]
  }

  predicate AnyAt(g: Graph, s: State, v: nat, k: nat)
    requires |g.modes| == |g.unitModes| == Size(g) == |s.rows| && v < Size(g) && k < |s.order|
  {
    && Fires(g, s, s.order[k], v) && Carried(g, s.order[k], v).WaitAny?
    && forall j: nat | j < k :: !Fires(g, s, s.order[j], v)
  }

  /** The first arrival that fired into `v` carried wait_any. */
  predicate FirstIsAny(g: Graph, s: State, v: nat)
    requires |g.modes| == |g.unitModes| == Size(g) == |s.rows| && v < Size(g)
  {
    exists k: nat | k < |s.order| :: AnyAt(g, s, v, k)
  }

  /** A unit runs at once if its first active arrival asked for that; otherwise it is
      decided when its counter reaches zero. */
  function Verdict(first: bool, open: int, active: int): Marker {
    if first then Execute else if open > 0 then Unset else if active > 0 then Execute else Skip
  }

  function FailedUnits(s: State): set<nat> {
    set u: nat | u < |s.rows| && s.rows[u].Done? && s.rows[u].how.Failed?
  }

  /** `entries` fixes what the roots look like from the start. */
  predicate CanonicalCell(cfg: Config, entries: set<nat>, s: State, v: nat)
    requires Fits(cfg, s) && v < Size(cfg.g)
  {
    if Root(cfg.g, v) then
      && s.cells[v].marker == (if v !in entries && cfg.g.kinds[v].NodeUnit? then Skip else Unset)
      && (ExecTask(v) in s.log <==> v in entries)
    else
      s.cells[v].marker == Verdict(FirstIsAny(cfg.g, s, v), s.cells[v].inDegree, s.cells[v].active)
  }

  predicate OrderOk(s: State) {
    (forall u :: u in s.order ==> u in s.settled) && (forall u :: u in s.settled ==> u in s.order)
  }

  predicate CanonicalState(cfg: Config, entries: set<nat>, s: State) {
    && Fits(cfg, s) && OrderOk(s)
    && (forall v: nat | v < Size(cfg.g) :: CanonicalCell(cfg, entries, s, v))
    && s.failed == |FailedUnits(s)|
  }

  lemma InitCanonical(cfg: Config, entries: set<nat>)
    requires Valid(cfg) && Entries(cfg, entries)
    ensures CanonicalState(cfg, entries, Init(cfg, entries))
  {
    var s := Init(cfg, entries);
    forall v: nat | v < Size(cfg.g) ensures CanonicalCell(cfg, entries, s, v) {
      if !Root(cfg.g, v) { var i :| i in Into(cfg.g, v); }
    }
    assert FailedUnits(s) == {};
  }

  // ---- The order and the counters ----

  /** The active counter is zero exactly while nothing applied fired into the unit. */
  lemma QuietIff(g: Graph, s: State, v: nat)
    requires CellsOk(g, s) && OrderOk(s) && v < Size(g)
    ensures s.cells[v].active == 0 <==> forall k: nat | k < |s.order| :: !Fires(g, s, s.order[k], v)
  {
    assert Tallied(g, s, v);
    var live := Live(g, s.settled, FiredBy(s), v);
    if i :| i in live {
      var u := g.edges[i].src;
      assert u in s.order;
      var k: nat :| k < |s.order| && s.order[k] == u;
      assert i in BetweenOn(g, u, v, s.rows[u].fired);
      assert Fires(g, s, s.order[k], v);
    } else {
      assert live == {};
      forall k: nat | k < |s.order| ensures !Fires(g, s, s.order[k], v) {
        assert s.order[k] in s.settled;
        assert BetweenOn(g, s.order[k], v, s.rows[s.order[k]].fired) <= live;
      }
    }
  }

  /** The same settled units in the same order, with the same rows. */
  lemma FirstSame(g: Graph, s: State, s': State, v: nat)
    requires |g.modes| == |g.unitModes| == Size(g) == |s.rows| == |s'.rows| && v < Size(g)
    requires s'.order == s.order
    requires forall k: nat | k < |s.order| :: s.order[k] < Size(g) && s'.rows[s.order[k]] == s.rows[s.order[k]]
    ensures FirstIsAny(g, s', v) == FirstIsAny(g, s, v)
  {
    forall k: nat | k < |s.order| ensures Fires(g, s', s.order[k], v) == Fires(g, s, s.order[k], v) {
    }
    forall k: nat | k < |s.order| ensures AnyAt(g, s', v, k) == AnyAt(g, s, v, k) {
    }
  }

  /** One more arrival is the first active one exactly if nothing fired before. */
  lemma FirstAfter(g: Graph, s: State, u: nat, arr: seq<Arrival>, v: nat)
    requires CellsOk(g, s) && OrderOk(s) && |arr| == |s.cells| && |g.modes| == |g.unitModes| == Size(g)
    requires u < Size(g) && v < Size(g) && s.rows[u].Done?
    ensures FirstIsAny(g, Settle(s, u, arr), v) <==>
      FirstIsAny(g, s, v) || (s.cells[v].active == 0 && Fires(g, s, u, v) && Carried(g, u, v).WaitAny?)
  {
    var s', n := Settle(s, u, arr), |s.order|;
    QuietIff(g, s, v);
    forall k: nat | k < n ensures AnyAt(g, s', v, k) == AnyAt(g, s, v, k) {
      assert s'.order[k] == s.order[k];
      assert forall j: nat | j < k :: s'.order[j] == s.order[j];
    }
    assert forall j: nat | j < n :: s'.order[j] == s.order[j];
    assert AnyAt(g, s', v, n) <==> s.cells[v].active == 0 && Fires(g, s, u, v) && Carried(g, u, v).WaitAny?;
  }

  lemma FirstMeansActive(g: Graph, s: State, v: nat)
    requires CellsOk(g, s) && OrderOk(s) && |g.modes| == |g.unitModes| == Size(g) && v < Size(g) && FirstIsAny(g, s, v)
    ensures s.cells[v].active > 0
  {
    QuietIff(g, s, v);
    assert Tallied(g, s, v);
  }

  lemma SettleCellCanonical(first: bool, first': bool, c: Cell, a: Arrival)
    requires c.active >= 0 && (a.count == 0 ==> a.active == 0) && c.marker == Verdict(first, c.inDegree, c.active)
    requires c.marker.Skip? ==> a.active == 0
    requires first ==> c.active > 0
    requires first' <==> first || (c.active == 0 && a.active > 0 && a.mode.WaitAny?)
    ensures SettleCell(c, a).marker == Verdict(first', SettleCell(c, a).inDegree, SettleCell(c, a).active)
  {
  }

  lemma CellKept(cfg: Config, entries: set<nat>, s: State, u: nat, v: nat)
    requires Valid(cfg) && CanonicalState(cfg, entries, s) && CellsOk(cfg.g, s) && TasksOk(cfg.g, s)
    requires u < Size(cfg.g) && v < Size(cfg.g) && s.rows[u].Done? && u !in s.settled
    requires s.rows[u].how.Canceled? ==> cfg.g.kinds[u].NodeUnit?
    ensures CanonicalCell(cfg, entries, Settle(s, u, Arrivals(cfg.g, u, s.rows[u].how, s.rows[u].fired)), v)
  {
    var g, arr := cfg.g, Arrivals(cfg.g, u, s.rows[u].how, s.rows[u].fired);
    assert UnitOk(g, s, u) && Tallied(g, s, v) && Decided(g, s, v) && CanonicalCell(cfg, entries, s, v);
    if Root(g, v) {
      RootUntouched(g, u, s.rows[u].how, s.rows[u].fired, v);
    } else {
      var on := BetweenOn(g, u, v, s.rows[u].fired);
      Subset(on, Between(g, u, v));
      OpenBounds(g, s.settled, u, v);
      FirstAfter(g, s, u, arr, v);
      if FirstIsAny(g, s, v) { FirstMeansActive(g, s, v); }
      SettleCellCanonical(FirstIsAny(g, s, v), FirstIsAny(g, Settle(s, u, arr), v), s.cells[v], arr[v]);
    }
  }

  lemma SettleCanonical(cfg: Config, entries: set<nat>, s: State, u: nat)
    requires Valid(cfg) && CanonicalState(cfg, entries, s) && CellsOk(cfg.g, s) && TasksOk(cfg.g, s)
    requires u < Size(cfg.g) && s.rows[u].Done? && u !in s.settled
    requires s.rows[u].how.Canceled? ==> cfg.g.kinds[u].NodeUnit?
    ensures CanonicalState(cfg, entries, Settle(s, u, Arrivals(cfg.g, u, s.rows[u].how, s.rows[u].fired)))
  {
    var s' := Settle(s, u, Arrivals(cfg.g, u, s.rows[u].how, s.rows[u].fired));
    forall v: nat | v < Size(cfg.g) ensures CanonicalCell(cfg, entries, s', v) {
      CellKept(cfg, entries, s, u, v);
    }
    assert FailedUnits(s') == FailedUnits(s);
  }

  /** Changes that touch neither counters, decisions nor what the settled units did. */
  lemma SameCanonical(cfg: Config, entries: set<nat>, s: State, s': State)
    requires CanonicalState(cfg, entries, s) && s.settled <= DoneUnits(s)
    requires Fits(cfg, s') && s'.cells == s.cells && s'.settled == s.settled && s'.order == s.order
    requires forall u: nat | u < Size(cfg.g) && s.rows[u].Done? :: s'.rows[u] == s.rows[u]
    requires forall t: Task :: t.ExecTask? ==> (t in s'.log <==> t in s.log)
    requires s'.failed == |FailedUnits(s')|
    ensures CanonicalState(cfg, entries, s')
  {
    forall k: nat | k < |s.order|
      ensures s.order[k] < Size(cfg.g) && s'.rows[s.order[k]] == s.rows[s.order[k]]
    {
      assert s.order[k] in s.settled;
    }
    forall v: nat | v < Size(cfg.g) ensures CanonicalCell(cfg, entries, s', v) {
      assert CanonicalCell(cfg, entries, s, v);
      FirstSame(cfg.g, s, s', v);
    }
  }

  lemma LandCanonical(cfg: Config, entries: set<nat>, s: State, u: nat, how: How, fired: set<Port>, fatal: bool)
    requires CanonicalState(cfg, entries, s) && s.settled <= DoneUnits(s) && u < Size(cfg.g) && !s.rows[u].Done?
    ensures CanonicalState(cfg, entries, Land(cfg, s, u, how, fired, fatal))
  {
    var s' := Land(cfg, s, u, how, fired, fatal);
    assert FailedUnits(s') == FailedUnits(s) + if how.Failed? then {u} else {};
    SameCanonical(cfg, entries, s, s');
  }

  lemma TerminalizeCanonical(cfg: Config, entries: set<nat>, s: State, u: nat, how: How, fired: set<Port>, fatal: bool)
    requires Valid(cfg) && CanonicalState(cfg, entries, s) && Inv(cfg, s)
    requires u < Size(cfg.g) && !s.rows[u].Done? && Active(s.exec)
    requires if how.Skipped? then SkipTask(u) in s.log else ExecTask(u) in s.log
    requires how.Skipped? || how.Canceled? ==> fired == {}
    requires how.Canceled? ==> cfg.g.kinds[u].NodeUnit?
    ensures CanonicalState(cfg, entries, Terminalize(cfg, s, u, how, fired, fatal))
  {
    var landed := Land(cfg, s, u, how, fired, fatal);
    LandKeeps(cfg, s, u, how, fired, fatal);
    LandCanonical(cfg, entries, s, u, how, fired, fatal);
    var s' := Terminalize(cfg, s, u, how, fired, fatal);
    if s' == landed {
    } else if s' == Write(landed, AdvanceTask(u)) {
      assert FailedUnits(s') == FailedUnits(landed);
      SameCanonical(cfg, entries, landed, s');
    } else {
      SettleCanonical(cfg, entries, landed, u);
    }
  }

  lemma MoveCanonical(cfg: Config, entries: set<nat>, s: State, a: Action)
    requires Valid(cfg) && CanonicalState(cfg, entries, s) && Inv(cfg, s)
    requires a.Lease? || a.Wait? || a.Suspend? || a.Requeue? || a.BeginCancel? || a.CancelParked? || a.FinishCancel?
             || a.Expire? || a.Drop?
    ensures CanonicalState(cfg, entries, Step(cfg, s, a))
  {
    if a.Requeue? && a.unit < Size(cfg.g) { assert UnitOk(cfg.g, s, a.unit); }
    assert FailedUnits(Step(cfg, s, a)) == FailedUnits(s);
    SameCanonical(cfg, entries, s, Step(cfg, s, a));
  }

  lemma CommitCanonical(cfg: Config, entries: set<nat>, s: State, a: Action)
    requires Valid(cfg) && CanonicalState(cfg, entries, s) && Inv(cfg, s) && a.Commit? && Step(cfg, s, a) != s
    ensures CanonicalState(cfg, entries, Step(cfg, s, a))
  {
    assert UnitOk(cfg.g, s, a.unit);
    TerminalizeCanonical(cfg, entries, s, a.unit, a.how, a.fired, a.fatal);
    TerminalizeKeeps(cfg, s, a.unit, a.how, a.fired, a.fatal);
    var t, s' := Terminalize(cfg, s, a.unit, a.how, a.fired, a.fatal), Step(cfg, s, a);
    assert FailedUnits(s') == FailedUnits(t);
    SameCanonical(cfg, entries, t, s');
  }

  lemma StepCanonical(cfg: Config, entries: set<nat>, s: State, a: Action)
    requires Valid(cfg) && CanonicalState(cfg, entries, s) && Inv(cfg, s)
    ensures CanonicalState(cfg, entries, Step(cfg, s, a))
  {
    if Step(cfg, s, a) == s {
    } else if a.HandleAdvance? {
      assert UnitOk(cfg.g, s, a.unit);
      SettleCanonical(cfg, entries, s, a.unit);
    } else if a.Commit? {
      CommitCanonical(cfg, entries, s, a);
    } else if a.ServeDisabled? || a.ServePinned? {
      var how := if a.ServeDisabled? then Disabled else Pinned;
      TerminalizeCanonical(cfg, entries, s, a.unit, how, MainPort(cfg.g, a.unit), false);
    } else if a.HandleSkip? || a.HandleMergeCancel? {
      assert UnitOk(cfg.g, s, a.unit);
      TerminalizeCanonical(cfg, entries, s, a.unit, if a.HandleSkip? then Skipped else Canceled, {}, false);
    } else {
      MoveCanonical(cfg, entries, s, a);
    }
  }

  lemma {:induction false} RunCanonical(cfg: Config, entries: set<nat>, s: State, actions: seq<Action>)
    requires Valid(cfg) && CanonicalState(cfg, entries, s) && Inv(cfg, s)
    ensures CanonicalState(cfg, entries, Run(cfg, s, actions))
    decreases |actions|
  {
    if actions != [] {
      StepKeeps(cfg, s, actions[0]);
      StepCanonical(cfg, entries, s, actions[0]);
      RunCanonical(cfg, entries, Step(cfg, s, actions[0]), actions[1..]);
    }
  }

  lemma RunFacts(cfg: Config, entries: set<nat>, actions: seq<Action>)
    requires Valid(cfg) && Entries(cfg, entries)
    ensures var s := Run(cfg, Init(cfg, entries), actions);
      Inv(cfg, s) && CanonicalState(cfg, entries, s) && Outstanding(s)
  {
    InitKeeps(cfg, entries);
    InitCanonical(cfg, entries);
    RunKeeps(cfg, Init(cfg, entries), actions);
    RunCanonical(cfg, entries, Init(cfg, entries), actions);
    RunOutstanding(cfg, Init(cfg, entries), actions);
  }

  // ---- When a unit runs before all its edges are closed ----

  /** In every reachable state with an edge into a unit still open, the unit has been
      started if and only if the first arrival that fired into it carried wait_any. */
  lemma EarlyIffFirstIsAny(cfg: Config, entries: set<nat>, actions: seq<Action>, v: nat)
    requires Valid(cfg) && Entries(cfg, entries) && v < Size(cfg.g)
    ensures var s := Run(cfg, Init(cfg, entries), actions);
      Open(cfg.g, s.settled, v) != {} ==> (ExecTask(v) in s.log <==> FirstIsAny(cfg.g, s, v))
  {
    RunFacts(cfg, entries, actions);
    var g, s := cfg.g, Run(cfg, Init(cfg, entries), actions);
    assert UnitOk(g, s, v) && Tallied(g, s, v) && Decided(g, s, v) && CanonicalCell(cfg, entries, s, v);
    if i :| i in Open(g, s.settled, v) {
      assert i in Into(g, v);
      if !s.cells[v].marker.Skip? { DriftWithin(g, s, v); }
    }
  }

  /** A unit whose arrivals all carry wait_any runs on the first edge that fires; one
      whose arrivals all carry wait_all runs only with every edge closed and counted. */
  lemma OneModeDecides(cfg: Config, entries: set<nat>, s: State, v: nat)
    requires Valid(cfg) && Inv(cfg, s) && CanonicalState(cfg, entries, s) && v < Size(cfg.g) && !Root(cfg.g, v)
    ensures cfg.g.unitModes[v].WaitAny? && s.cells[v].active > 0 ==> s.cells[v].marker.Execute?
    ensures cfg.g.modes[v].WaitAll? && s.cells[v].marker.Execute? ==>
      Open(cfg.g, s.settled, v) == {} && Drift(cfg.g, s.rows, s.settled, v, Size(cfg.g)) == 0
  {
    var g := cfg.g;
    assert UnitOk(g, s, v) && Tallied(g, s, v) && Decided(g, s, v) && CanonicalCell(cfg, entries, s, v);
    if g.unitModes[v].WaitAny? && s.cells[v].active > 0 {
      assert g.kinds[v].NodeUnit? && g.modes[v].WaitAny?;
      QuietIff(g, s, v);
      var k: nat :| k < |s.order| && Fires(g, s, s.order[k], v);
      var first := FirstFiring(g, s, v, k);
      assert AnyAt(g, s, v, first);
    }
    if g.modes[v].WaitAll? && s.cells[v].marker.Execute? {
      assert g.unitModes[v].WaitAll?;
      assert !FirstIsAny(g, s, v);
      DriftWithin(g, s, v);
    }
  }

  lemma {:induction false} FirstFiring(g: Graph, s: State, v: nat, k: nat) returns (first: nat)
    requires k < |s.order| && Fires(g, s, s.order[k], v)
    ensures first <= k && Fires(g, s, s.order[first], v) && forall j: nat | j < first :: !Fires(g, s, s.order[j], v)
  {
    if j: nat :| j < k && Fires(g, s, s.order[j], v) { first := FirstFiring(g, s, v, j); } else { first := k; }
  }

  // ---- Agreement of runs ----

  /** Terminal units and what they fired coincide. */
  predicate SameDone(s: State, s': State) {
    && |s.rows| == |s'.rows|
    && forall u: nat | u < |s.rows| && (s.rows[u].Done? || s'.rows[u].Done?) :: s'.rows[u] == s.rows[u]
  }

  predicate SameTasks(s: State, s': State, v: nat) {
    && (ExecTask(v) in s.log <==> ExecTask(v) in s'.log)
    && (SkipTask(v) in s.log <==> SkipTask(v) in s'.log)
  }

  /** States of any two runs whose applied arrivals and terminal rows coincide have the
      same counters and failure count, and they decide a unit alike if and only if it is
      a root, its counter has reached zero, or both first saw an arrival of one mode. */
  lemma CellsDetermined(cfg: Config, cfg': Config, entries: set<nat>, s: State, s': State, v: nat)
    requires Valid(cfg) && cfg'.g == cfg.g && Inv(cfg, s) && Inv(cfg', s') && v < Size(cfg.g)
    requires CanonicalState(cfg, entries, s) && CanonicalState(cfg', entries, s')
    requires s'.settled == s.settled && SameDone(s, s')
    ensures s'.cells[v].inDegree == s.cells[v].inDegree && s'.cells[v].active == s.cells[v].active
    ensures s'.failed == s.failed && LeftUnits(s') == LeftUnits(s)
    ensures s'.cells[v].marker == s.cells[v].marker <==>
      || Root(cfg.g, v) || s.cells[v].inDegree <= 0 || FirstIsAny(cfg.g, s, v) == FirstIsAny(cfg.g, s', v)
    ensures s'.cells[v].marker == s.cells[v].marker ==> SameTasks(s, s', v)
  {
    var g := cfg.g;
    assert FailedUnits(s) == FailedUnits(s') && LeftUnits(s) == LeftUnits(s');
    assert CanonicalCell(cfg, entries, s, v) && CanonicalCell(cfg', entries, s', v);
    assert Tallied(g, s, v) && Tallied(g, s', v) && UnitOk(g, s, v) && UnitOk(g, s', v);
    assert Live(g, s.settled, FiredBy(s'), v) == Live(g, s.settled, FiredBy(s), v);
    DriftSame(g, s.rows, s'.rows, s.settled, v, Size(g));
    if FirstIsAny(g, s, v) { FirstMeansActive(g, s, v); }
    if FirstIsAny(g, s', v) { FirstMeansActive(g, s', v); }
  }

  /** Every arrival at `v` carried the same mode. */
  predicate OneMode(g: Graph, s: State, v: nat)
    requires |g.modes| == |g.unitModes| == Size(g) && v < Size(g)
  {
    g.modes[v] == g.unitModes[v] || forall u :: u in s.settled ==> u < Size(g) && g.kinds[u].NodeUnit?
  }

  /** With one mode the order is irrelevant: all that matters is whether anything fired. */
  lemma OneModeFirst(g: Graph, s: State, v: nat)
    requires CellsOk(g, s) && OrderOk(s) && |g.modes| == |g.unitModes| == Size(g) && v < Size(g) && OneMode(g, s, v)
    ensures FirstIsAny(g, s, v) <==> g.modes[v].WaitAny? && s.cells[v].active > 0
  {
    QuietIff(g, s, v);
    assert Tallied(g, s, v);
    if g.modes[v].WaitAny? && s.cells[v].active > 0 {
      var k: nat :| k < |s.order| && Fires(g, s, s.order[k], v);
      var first := FirstFiring(g, s, v, k);
      assert s.order[first] in s.settled;
      assert AnyAt(g, s, v, first);
    }
    if k: nat :| k < |s.order| && AnyAt(g, s, v, k) { assert s.order[k] in s.settled; }
  }

  /** A live folding run and a live advancing run whose advances are all consumed, over
      the same terminal rows, agree on counters, totals and failures, and on the decision
      and the tasks of every unit whose arrivals carried one mode. */
  lemma DrainedRunsAgree(cfg: Config, cfg': Config, entries: set<nat>, actions: seq<Action>,
                         actions': seq<Action>, v: nat)
    requires Valid(cfg) && Valid(cfg') && cfg'.g == cfg.g && Entries(cfg, entries) && v < Size(cfg.g)
    ensures var s, s' := Run(cfg, Init(cfg, entries), actions), Run(cfg', Init(cfg', entries), actions');
      s.exec.Running? && s'.exec.Running? && SameDone(s, s')
      && (forall t :: t in s.pending + s'.pending ==> !t.AdvanceTask?)
      ==>
      && s'.cells[v].inDegree == s.cells[v].inDegree && s'.cells[v].active == s.cells[v].active
      && s'.remaining == s.remaining && s'.failed == s.failed
      && (OneMode(cfg.g, s, v) ==> s'.cells[v] == s.cells[v] && SameTasks(s, s', v))
  {
    var s, s' := Run(cfg, Init(cfg, entries), actions), Run(cfg', Init(cfg', entries), actions');
    RunFacts(cfg, entries, actions);
    RunFacts(cfg', entries, actions');
    if s.exec.Running? && s'.exec.Running? && SameDone(s, s')
       && (forall t :: t in s.pending + s'.pending ==> !t.AdvanceTask?) {
      assert DoneUnits(s) == DoneUnits(s');
      DrainedSettled(cfg, s);
      DrainedSettled(cfg', s');
      CellsDetermined(cfg, cfg', entries, s, s', v);
      if OneMode(cfg.g, s, v) {
        OneModeFirst(cfg.g, s, v);
        OneModeFirst(cfg.g, s', v);
      }
    }
  }

  lemma DrainedSettled(cfg: Config, s: State)
    requires Inv(cfg, s) && Outstanding(s) && s.exec.Running? && forall t :: t in s.pending ==> !t.AdvanceTask?
    ensures s.settled == DoneUnits(s)
  {
    forall u | u in DoneUnits(s) ensures u in s.settled {
      assert AdvanceTask(u) in s.log ==> Handled(s, AdvanceTask(u));
    }
  }

  /** An execution that succeeded has every unit terminal and none of them failed. */
  lemma SuccessMeansNoFailure(cfg: Config, entries: set<nat>, actions: seq<Action>, v: nat)
    requires Valid(cfg) && Entries(cfg, entries) && v < Size(cfg.g)
    ensures var s := Run(cfg, Init(cfg, entries), actions);
      s.exec.Succeeded? ==> s.rows[v].Done? && !s.rows[v].how.Failed?
  {
    RunFacts(cfg, entries, actions);
    var s := Run(cfg, Init(cfg, entries), actions);
    if s.exec.Succeeded? {
      assert v !in LeftUnits(s);
      assert FailedUnits(s) == {};
      assert v !in FailedUnits(s);
    }
  }

  // ---- A group entered by a wait_any node ----

  /** Leasing and committing one entry on a folding store, seen from the rows. */
  lemma RunEntry(cfg: Config, s: State, u: nat, fired: set<Port>)
    requires Fits(cfg, s) && cfg.fold && s.exec.Running? && s.remaining > 1
    requires u < Size(cfg.g) && s.rows[u].Idle? && ExecTask(u) in s.log
    ensures var s' := Run(cfg, s, [Lease(u, 0), Commit(u, 0, Success, fired, false, false)]);
      && s'.rows == s.rows[u := Done(Success, fired)] && s'.order == s.order + [u] && s'.settled == s.settled + {u}
      && s'.exec == s.exec && s'.remaining == s.remaining - 1 && s.log <= s'.log
  {
    RunSteps(cfg, s, Lease(u, 0), Commit(u, 0, Success, fired, false, false));
    var leased := Step(cfg, s, Lease(u, 0));
    CommitSettles(cfg, leased, u, 0, fired);
    assert s.rows[u := Leased(0, false)][u := Done(Success, fired)] == s.rows[u := Done(Success, fired)];
  }

  lemma RunTwoEntries(cfg: Config, entries: set<nat>, a: nat, b: nat, fa: set<Port>, fb: set<Port>)
    returns (actions: seq<Action>)
    requires Valid(cfg) && Entries(cfg, entries) && cfg.fold && a in entries && b in entries && a != b
    requires Size(cfg.g) > 2
    ensures var s := Run(cfg, Init(cfg, entries), actions);
      && s.rows == Init(cfg, entries).rows[a := Done(Success, fa)][b := Done(Success, fb)]
      && s.order == [a, b] && s.settled == {a, b} && s.exec.Running?
  {
    var s0 := Init(cfg, entries);
    var first := [Lease(a, 0), Commit(a, 0, Success, fa, false, false)];
    var second := [Lease(b, 0), Commit(b, 0, Success, fb, false, false)];
    RunEntry(cfg, s0, a, fa);
    RunEntry(cfg, Run(cfg, s0, first), b, fb);
    RunExtends(cfg, s0, first, second);
    actions := first + second;
  }

  /** Whenever a wait_any node enters a group fed by a node entry, a group entry and a
      third unit, two runs with the same rows and the same applied arrivals differ only
      in their order, and one has started the group while the other has not. */
  lemma MixedModesDependOnOrder(cfg: Config, entries: set<nat>, a: nat, b: nat, i: nat, j: nat, k: nat)
    returns (actions: seq<Action>, actions': seq<Action>)
    requires Valid(cfg) && Entries(cfg, entries) && cfg.fold && a in entries && b in entries && Size(cfg.g) > 2
    requires cfg.g.kinds[a].NodeUnit? && cfg.g.kinds[b].GroupUnit?
    requires i < |cfg.g.edges| && j < |cfg.g.edges| && k < |cfg.g.edges|
    requires cfg.g.edges[i].src == a && cfg.g.edges[j].src == b && cfg.g.edges[k].src !in {a, b}
    requires cfg.g.edges[i].dst == cfg.g.edges[j].dst == cfg.g.edges[k].dst < Size(cfg.g)
    requires cfg.g.modes[cfg.g.edges[i].dst].WaitAny? && cfg.g.unitModes[cfg.g.edges[i].dst].WaitAll?
    ensures var s, s' := Run(cfg, Init(cfg, entries), actions), Run(cfg, Init(cfg, entries), actions');
      && s.rows == s'.rows && s.settled == s'.settled && s.exec == s'.exec == Running
      && ExecTask(cfg.g.edges[i].dst) in s.log && ExecTask(cfg.g.edges[i].dst) !in s'.log
  {
    var g, v := cfg.g, cfg.g.edges[i].dst;
    var fa, fb := {g.edges[i].port}, {g.edges[j].port};
    actions := RunTwoEntries(cfg, entries, a, b, fa, fb);
    actions' := RunTwoEntries(cfg, entries, b, a, fb, fa);
    var s, s' := Run(cfg, Init(cfg, entries), actions), Run(cfg, Init(cfg, entries), actions');
    assert s.rows == s'.rows;
    assert k in Open(g, s.settled, v);
    EarlyIffFirstIsAny(cfg, entries, actions, v);
    EarlyIffFirstIsAny(cfg, entries, actions', v);
    assert i in BetweenOn(g, a, v, fa) && j in BetweenOn(g, b, v, fb);
    assert Fires(g, s, a, v) && Fires(g, s', b, v);
    assert s.order[0] == a && s'.order[0] == b && |s'.order| == 2;
    assert AnyAt(g, s, v, 0);
    assert !AnyAt(g, s', v, 0) && !AnyAt(g, s', v, 1);
  }

  /** Two node entries and a group entry feeding a group whose entry node waits for any. */
  function MixedGraph(): Graph {
    Graph([NodeUnit, GroupUnit, NodeUnit, GroupUnit], [0, 1, 2, 3], [WaitAll, WaitAll, WaitAll, WaitAny],
          [WaitAll, WaitAll, WaitAll, WaitAll],
          [Edge(0, 3, Exit(0, "main")), Edge(1, 3, Exit(1, "main")), Edge(2, 3, Exit(2, "main"))], [[3], [3], [3], []])
  }

  lemma MixedEdges(g: Graph)
    requires g == MixedGraph()
    ensures WellFormed(g) && (forall u: nat | u < 4 :: SkipFaithful(g, u)) && Root(g, 0) && Root(g, 1) && Root(g, 2)
  {
    assert Ranked(g, [0, 0, 0, 1]);
    forall u: nat, v: nat | u < 4 && v < 4 ensures SkipCount(g, u, v) == |Between(g, u, v)| {
      assert Between(g, u, v) == if u < 3 && v == 3 then {u} else {};
    }
  }

  /** Such a graph exists, and skipping any of its units keeps every counter exact. */
  lemma MixedGraphDiffers() returns (actions: seq<Action>, actions': seq<Action>)
    ensures WellFormed(MixedGraph()) && forall u: nat | u < 4 :: SkipFaithful(MixedGraph(), u)
    ensures var cfg := Config(MixedGraph(), true, Redis, {}, {});
      var s, s' := Run(cfg, Init(cfg, {0, 1, 2}), actions), Run(cfg, Init(cfg, {0, 1, 2}), actions');
      s.rows == s'.rows && s.settled == s'.settled && ExecTask(3) in s.log && ExecTask(3) !in s'.log
  {
    MixedEdges(MixedGraph());
    actions, actions' := MixedModesDependOnOrder(Config(MixedGraph(), true, Redis, {}, {}), {0, 1, 2}, 0, 1, 0, 1, 2);
  }
}
