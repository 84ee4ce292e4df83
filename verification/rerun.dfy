/** Rerunning a workflow from one node: the plan that copies everything outside
    the node's subtree, and the store transition that seeds it. */
module Rerun {
  import opened Common
  import opened Units
  import opened Store
  import opened Schedule
  import opened Reach
  import opened Canonical

  /** What the new execution records for a copied unit. */
  datatype Resolution = Resolution(unit: nat, how: How, fired: set<Port>)

  datatype Plan = Plan(units: seq<Resolution>, start: bool)

  datatype RerunError = InsideGroup | GroupOutside(unit: nat) | UpstreamIncomplete(unit: nat)

  datatype Result<T> = Ok(value: T) | Err(error: RerunError)

  /** A row whose result a rerun can copy. A disabled node's row is a skipped one. */
  predicate Copyable(row: Row) {
    row.Done? && row.how in {Success, Pinned, Skipped, Disabled}
  }

  /** The copied outcome: a success keeps its port, everything else fires nothing. */
  function Copy(u: nat, row: Row): Resolution {
    if row.Done? && row.how in {Success, Pinned} then Resolution(u, Success, row.fired) else Resolution(u, Skipped, {})
  }

  ghost function Outside(g: Graph, from: nat): set<nat> {
    set u: nat | u < Size(g) && !Reaches(g, from, u)
  }

  /** The source refuses exactly these: a start inside a group, a group among the
      copied units, and an ancestor of the start without a result. */
  ghost predicate Plannable(g: Graph, rows: seq<Row>, from: nat)
    requires from < Size(g) == |rows|
  {
    g.kinds[from].NodeUnit? && forall u :: u in Outside(g, from) ==> !Refused(g, rows, from, u)
  }

  /** The ancestor has no result: it has not ended, or it failed, was continued or canceled. */
  predicate NoResult(row: Row) { !row.Done? || row.how.Failed? || row.how.Continued? || row.how.Canceled? }

  ghost predicate Refused(g: Graph, rows: seq<Row>, from: nat, u: nat)
    requires u < Size(g) == |rows|
  {
    g.kinds[u].GroupUnit? || (Precedes(g, u, from) && NoResult(rows[u]))
  }

  /** The refusal names the first unit in index order that stands in the way, and why. */
  ghost predicate FirstRefused(g: Graph, rows: seq<Row>, from: nat, u: nat)
    requires |rows| == Size(g)
  {
    && u in Outside(g, from) && Refused(g, rows, from, u)
    && forall w: nat | w < u && w in Outside(g, from) :: !Refused(g, rows, from, w)
  }

  /** The copied units in index order, each with the outcome its row dictates. */
  ghost predicate PlanOf(g: Graph, rows: seq<Row>, from: nat, upto: nat, units: seq<Resolution>)
    requires upto <= Size(g) == |rows|
  {
    && (forall k | 0 <= k < |units| :: units[k].unit < upto && units[k].unit in Outside(g, from)
         && units[k] == Copy(units[k].unit, rows[units[k].unit]))
    && (forall j, k | 0 <= j < k < |units| :: units[j].unit < units[k].unit)
    && (forall u: nat | u < upto && u in Outside(g, from) :: exists k | 0 <= k < |units| :: units[k].unit == u)
  }

  method PlanRerun(g: Graph, rows: seq<Row>, from: nat) returns (r: Result<Plan>)
    requires InRange(g) && from < Size(g) == |rows|
    ensures r.Ok? <==> Plannable(g, rows, from)
    ensures r.Ok? ==> PlanOf(g, rows, from, Size(g), r.value.units) && (r.value.start <==> Root(g, from))
    ensures r.Err? ==> (r.error.InsideGroup? <==> g.kinds[from].GroupUnit?)
    ensures r.Err? && !r.error.InsideGroup? ==>
      FirstRefused(g, rows, from, r.error.unit) && (r.error.GroupOutside? <==> g.kinds[r.error.unit].GroupUnit?)
  {
    if g.kinds[from].GroupUnit? { return Err(InsideGroup); }
    var rerunning := Descendants(g, from);
    var closure := Ancestors(g, from);
    var units := [];
    for u := 0 to Size(g)
      invariant PlanOf(g, rows, from, u, units)
      invariant forall w: nat | w < u && w in Outside(g, from) :: !Refused(g, rows, from, w)
    {
      if rerunning[u] { continue; }
      assert u in Outside(g, from);
      if g.kinds[u].GroupUnit? { return Err(GroupOutside(u)); }
      if closure[u] && !Copyable(rows[u]) { return Err(UpstreamIncomplete(u)); }
      PlanExtends(g, rows, from, u, units);
      units := units + [Copy(u, rows[u])];
    }
    return Ok(Plan(units, |Into(g, from)| == 0));
  }

  lemma PlanExtends(g: Graph, rows: seq<Row>, from: nat, u: nat, units: seq<Resolution>)
    requires u < Size(g) == |rows| && u in Outside(g, from) && PlanOf(g, rows, from, u, units)
    ensures PlanOf(g, rows, from, u + 1, units + [Copy(u, rows[u])])
  {
    var longer := units + [Copy(u, rows[u])];
    assert longer[|units|].unit == u;
    forall w: nat | w < u + 1 && w in Outside(g, from) ensures exists k | 0 <= k < |longer| :: longer[k].unit == w {
      if w < u {
        var k :| 0 <= k < |units| && units[k].unit == w;
        assert longer[k].unit == w;
      }
    }
  }

  // ---- Seeding ----

  ghost predicate SeedCell(g: Graph, marked: set<nat>, applied: set<nat>, fired: seq<set<Port>>, c: Cell, v: nat)
    requires v < |g.modes| && forall u :: u in applied ==> u < |fired|
  {
    && c.inDegree == |Open(g, applied, v)|
    && c.active == |Live(g, applied, fired, v)|
    && c.marker == (if v in marked then Seeded else if Root(g, v) then Unset
                    else Verdict(g.modes[v].WaitAny? && c.active > 0, c.inDegree, c.active))
  }

  /** A seeded store: the copied units are terminal, settled and marked; every
      counter is the number of edges that are open or live over them; and a task
      is written for exactly the units those counters decide, plus the start. */
  ghost predicate SeedOf(g: Graph, units: seq<Resolution>, start: set<nat>, s: State)
    requires |g.modes| == Size(g)
  {
    var copied := Copied(units);
    && |s.cells| == |s.rows| == Size(g) && copied == s.settled
    && (forall r :: r in units ==> r.unit < Size(g) && s.rows[r.unit] == Done(r.how, r.fired))
    && (forall u: nat | u < Size(g) && u !in copied :: s.rows[u] == Idle)
    && (forall u :: u in copied ==> u < Size(g))
    && (forall v: nat | v < Size(g) :: SeedCell(g, copied, copied, FiredBy(s), s.cells[v], v))
    && (forall t :: t in s.log <==> SeedTask(s, start, t))
    && s.remaining == Size(g) - |units| && s.failed == 0
    && s.exec == (if s.remaining <= 0 then Succeeded else Running)
  }

  predicate SeedTask(s: State, start: set<nat>, t: Task)
  {
    || (t.ExecTask? && t.unit < |s.cells| && s.cells[t.unit].marker.Execute?)
    || (t.SkipTask? && t.unit < |s.cells| && s.cells[t.unit].marker.Skip?)
    || (t.ExecTask? && t.unit in start)
  }

  function Copied(units: seq<Resolution>): set<nat> { set r | r in units :: r.unit }

  predicate Distinct(units: seq<Resolution>) {
    forall j, k | 0 <= j < k < |units| :: units[j].unit != units[k].unit
  }

  predicate Seedable(r: Resolution) { r.how.Success? || r.how.Skipped? }

  ghost predicate SeedUnits(g: Graph, units: seq<Resolution>) {
    && Distinct(units)
    && forall r :: r in units ==> r.unit < Size(g) && g.kinds[r.unit].NodeUnit? && (r.how.Skipped? ==> r.fired == {})
  }

  /** One copied unit's arrivals move a seeded counter by the edges they stand for. */
  lemma SeedArrival(g: Graph, marked: set<nat>, applied: set<nat>, fired: seq<set<Port>>, r: Resolution,
                    c: Cell, v: nat)
    requires WellFormed(g) && v < Size(g) && r.unit < Size(g) == |fired| && g.kinds[r.unit].NodeUnit?
    requires r.unit !in applied && fired[r.unit] == r.fired && Seedable(r) && (r.how.Skipped? ==> r.fired == {})
    requires (forall u :: u in applied ==> u < |fired|) && SeedCell(g, marked, applied, fired, c, v)
    ensures SeedCell(g, marked, applied + {r.unit}, fired, SettleCell(c, Arrivals(g, r.unit, r.how, r.fired)[v]), v)
  {
    var u := r.unit;
    var a := Arrivals(g, u, r.how, r.fired)[v];
    OpenAfter(g, applied, u, v);
    LiveAfter(g, applied, fired, fired, u, v);
    OpenBounds(g, applied, u, v);
    assert SkipFaithful(g, u);
    Subset(BetweenOn(g, u, v, r.fired), Between(g, u, v));
    if r.how.Skipped? { assert BetweenOn(g, u, v, r.fired) == {}; }
    assert Between(g, u, v) <= Into(g, v);
    if v !in marked && !Root(g, v) {
      SettleCellCanonical(g.modes[v].WaitAny? && c.active > 0, g.modes[v].WaitAny? && c.active + a.active > 0, c, a);
    }
  }

  /** The cells and tasks once the arrivals of `applied` are in. */
  ghost predicate SeedStage(g: Graph, units: seq<Resolution>, applied: set<nat>, s: State)
    requires |g.modes| == Size(g)
  {
    var copied := Copied(units);
    && |s.cells| == |s.rows| == Size(g) && s.settled == applied <= copied
    && (forall r :: r in units ==> r.unit < Size(g) && s.rows[r.unit] == Done(r.how, r.fired))
    && (forall u: nat | u < Size(g) && u !in copied :: s.rows[u] == Idle)
    && (forall u :: u in copied ==> u < Size(g))
    && (forall v: nat | v < Size(g) :: SeedCell(g, copied, applied, FiredBy(s), s.cells[v], v))
    && (forall t :: t in s.log <==> SeedTask(s, {}, t))
    && s.remaining == Size(g) - |units| && s.failed == 0 && s.exec == Running
  }

  lemma SeedCells(g: Graph, marked: set<nat>, applied: set<nat>, s: State, r: Resolution, v: nat)
    requires WellFormed(g) && v < Size(g) == |s.cells| == |s.rows| && (forall u :: u in applied ==> u < Size(g))
    requires r.unit < Size(g) && g.kinds[r.unit].NodeUnit? && r.unit !in applied && Seedable(r)
    requires s.rows[r.unit] == Done(r.how, r.fired) && (r.how.Skipped? ==> r.fired == {})
    requires SeedCell(g, marked, applied, FiredBy(s), s.cells[v], v)
    ensures var s' := Settle(s, r.unit, Arrivals(g, r.unit, r.how, r.fired));
      SeedCell(g, marked, applied + {r.unit}, FiredBy(s'), s'.cells[v], v)
  {
    var s' := Settle(s, r.unit, Arrivals(g, r.unit, r.how, r.fired));
    assert FiredBy(s') == FiredBy(s);
    SeedArrival(g, marked, applied, FiredBy(s), r, s.cells[v], v);
  }

  lemma SeedTasks(g: Graph, units: seq<Resolution>, applied: set<nat>, s: State, r: Resolution, t: Task)
    requires WellFormed(g) && SeedUnits(g, units) && SeedStage(g, units, applied, s)
    requires r in units && r.unit !in applied && Seedable(r)
    ensures var s' := Settle(s, r.unit, Arrivals(g, r.unit, r.how, r.fired)); t in s'.log <==> SeedTask(s', {}, t)
  {
    SettleTask(s, r.unit, Arrivals(g, r.unit, r.how, r.fired), t);
  }

  lemma SeedSettle(g: Graph, units: seq<Resolution>, applied: set<nat>, s: State, r: Resolution)
    requires WellFormed(g) && SeedUnits(g, units) && SeedStage(g, units, applied, s)
    requires r in units && r.unit !in applied && Seedable(r)
    ensures SeedStage(g, units, applied + {r.unit}, Settle(s, r.unit, Arrivals(g, r.unit, r.how, r.fired)))
  {
    var s' := Settle(s, r.unit, Arrivals(g, r.unit, r.how, r.fired));
    forall v: nat | v < Size(g)
      ensures SeedCell(g, Copied(units), applied + {r.unit}, FiredBy(s'), s'.cells[v], v)
    {
      SeedCells(g, Copied(units), applied, s, r, v);
    }
    forall t ensures t in s'.log <==> SeedTask(s', {}, t) { SeedTasks(g, units, applied, s, r, t); }
  }

  /** Settling writes exactly the tasks of the units it decides. */
  lemma SettleTask(s: State, u: nat, arr: seq<Arrival>, t: Task)
    requires |arr| == |s.cells| && (t in s.log <==> SeedTask(s, {}, t))
    requires forall v :: 0 <= v < |s.cells| && s.cells[v].marker.Unset? ==>
      !SettleCell(s.cells[v], arr[v]).marker.Seeded?
    ensures t in Settle(s, u, arr).log <==> SeedTask(Settle(s, u, arr), {}, t)
  {
    var s' := Settle(s, u, arr);
    if t.unit < |s.cells| && s.cells[t.unit].marker.Unset? && t == TaskFor(t.unit, s'.cells[t.unit].marker)
         && !s'.cells[t.unit].marker.Unset? {
      assert t in s'.log;
    }
  }

  function EmptyStore(g: Graph): State {
    State(seq(Size(g), v requires 0 <= v => Cell(|Into(g, v)|, 0, Unset)), seq(Size(g), v => Idle), {}, [],
          Size(g), 0, Running, {}, {})
  }

  /** The first `i` copied units are recorded and marked, nothing is applied yet. */
  ghost predicate Marked(g: Graph, units: seq<Resolution>, i: nat, s: State)
    requires i <= |units| && SeedUnits(g, units)
  {
    && |s.cells| == |s.rows| == Size(g) && s.settled == {} && s.log == {} && s.failed == 0 && s.exec == Running
    && s.remaining == Size(g) - i
    && (forall k | 0 <= k < i :: units[k] in units && s.rows[units[k].unit] == Done(units[k].how, units[k].fired))
    && (forall u: nat | u < Size(g) && u !in Copied(units[..i]) :: s.rows[u] == Idle)
    && (forall v: nat | v < Size(g) ::
         s.cells[v] == Cell(|Into(g, v)|, 0, if v in Copied(units[..i]) then Seeded else Unset))
  }

  function Mark(s: State, r: Resolution): State
    requires r.unit < |s.rows| == |s.cells|
  {
    s.(rows := s.rows[r.unit := Done(r.how, r.fired)],
       cells := s.cells[r.unit := s.cells[r.unit].(marker := Seeded)],
       remaining := s.remaining - 1)
  }

  lemma MarkNext(g: Graph, units: seq<Resolution>, i: nat, s: State)
    requires SeedUnits(g, units) && i < |units| && Marked(g, units, i, s)
    ensures units[i] in units && Marked(g, units, i + 1, Mark(s, units[i]))
  {
    var r := units[i];
    assert r in units;
    assert units[..i + 1] == units[..i] + [r];
    assert Copied(units[..i + 1]) == Copied(units[..i]) + {r.unit};
  }

  lemma MarkDone(g: Graph, units: seq<Resolution>, s: State)
    requires WellFormed(g) && SeedUnits(g, units) && Marked(g, units, |units|, s)
    ensures SeedStage(g, units, {}, s)
  {
    assert units[..|units|] == units;
    forall v: nat | v < Size(g) ensures SeedCell(g, Copied(units), {}, FiredBy(s), s.cells[v], v) {
      assert Open(g, {}, v) == Into(g, v);
      assert Live(g, {}, FiredBy(s), v) == {};
    }
  }

  /** Records every copied unit before a single arrival is applied, so an arrival
      from one copied unit cannot schedule another. */
  method MarkUnits(g: Graph, units: seq<Resolution>) returns (s: State)
    requires WellFormed(g) && SeedUnits(g, units)
    ensures SeedStage(g, units, {}, s)
  {
    s := EmptyStore(g);
    for i := 0 to |units|
      invariant Marked(g, units, i, s)
    {
      MarkNext(g, units, i, s);
      s := Mark(s, units[i]);
    }
    MarkDone(g, units, s);
  }

  /** Creates the new execution around the copied units; a unit with any other
      status is refused. */
  method SeedExecution(g: Graph, units: seq<Resolution>, start: set<nat>) returns (ok: bool, s: State)
    requires WellFormed(g) && SeedUnits(g, units)
    ensures ok <==> forall r :: r in units ==> Seedable(r)
    ensures ok ==> SeedOf(g, units, start, s)
  {
    ok, s := true, EmptyStore(g);
    for i := 0 to |units|
      invariant forall k | 0 <= k < i :: Seedable(units[k])
    {
      if !Seedable(units[i]) { return false, s; }
    }
    s := MarkUnits(g, units);
    ghost var applied: set<nat> := {};
    for i := 0 to |units|
      invariant applied == Copied(units[..i]) && SeedStage(g, units, applied, s)
    {
      var r := units[i];
      assert r in units;
      assert units[..i + 1] == units[..i] + [r];
      assert Copied(units[..i + 1]) == Copied(units[..i]) + {r.unit};
      assert r.unit !in applied;
      SeedSettle(g, units, applied, s, r);
      s := Settle(s, r.unit, Arrivals(g, r.unit, r.how, r.fired));
      applied := applied + {r.unit};
    }
    assert units[..|units|] == units;
    ghost var before := s;
    s := s.(log := s.log + set u | u in start :: ExecTask(u), pending := s.pending + set u | u in start :: ExecTask(u),
            exec := if s.remaining <= 0 then Succeeded else Running);
    assert FiredBy(s) == FiredBy(before);
  }
}
