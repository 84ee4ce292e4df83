/** The loops that turn one completed node or group into arrivals, and the loop by
    which the store applies them, proved equal to the pointwise transition. */
module ArrivalLoops {
  import opened Units
  import opened Store
  import opened Topology

  /** One entry of the list a commit carries. */
  datatype Dest = Dest(node: nat, unit: nat, arrival: Arrival)

  /** What node `n` sends to node `m`: its edges there and those on the port. */
  function NodeEntry(t: Nodes, n: nat, m: nat, port: string): Arrival
    requires m < |t.modes|
  {
    Arrival(Count(t, n, m, |t.edges|), CountOn(t, n, m, port, |t.edges|), t.modes[m])
  }

  /** One entry per destination node with the number of edges to it and the number
      of those on the active port, in node order. */
  predicate NodeList(t: Nodes, n: nat, port: string, upto: nat, list: seq<Dest>)
    requires |t.modes| == |t.unitOf| && upto <= |t.unitOf|
  {
    && (forall k | 0 <= k < |list| ::
          var d := list[k];
          && d.node < upto && d.unit == t.unitOf[d.node]
          && d.arrival == NodeEntry(t, n, d.node, port)
          && d.arrival.count > 0)
    && (forall j, k | 0 <= j < k < |list| :: list[j].node < list[k].node)
    && (forall m: nat | m < upto && Count(t, n, m, |t.edges|) > 0 :: exists k | 0 <= k < |list| :: list[k].node == m)
  }

  /** The counts collected so far, keyed by destination node. */
  ghost predicate CountsByNode(t: Nodes, n: nat, port: string, upto: nat, byNode: map<nat, Arrival>)
    requires |t.modes| == |t.unitOf| && upto <= |t.edges|
  {
    && (forall m: nat :: m in byNode <==> m < |t.unitOf| && Count(t, n, m, upto) > 0)
    && (forall m: nat :: m in byNode ==>
         byNode[m] == Arrival(Count(t, n, m, upto), CountOn(t, n, m, port, upto), t.modes[m]))
    && (forall m: nat :: CountOn(t, n, m, port, upto) <= Count(t, n, m, upto))
  }

  lemma NodeCountsExtend(t: Nodes, n: nat, port: string, i: nat, byNode: map<nat, Arrival>)
    requires |t.modes| == |t.unitOf| && i < |t.edges| && t.edges[i].dst < |t.unitOf|
    requires CountsByNode(t, n, port, i, byNode)
    ensures t.edges[i].src != n ==> CountsByNode(t, n, port, i + 1, byNode)
    ensures t.edges[i].src == n ==>
      var e := t.edges[i];
      var a := if e.dst in byNode then byNode[e.dst] else Arrival(0, 0, t.modes[e.dst]);
      var active := a.active + if e.port == port then 1 else 0;
      CountsByNode(t, n, port, i + 1, byNode[e.dst := Arrival(a.count + 1, active, a.mode)])
  {
    forall m: nat
      ensures Count(t, n, m, i + 1) == Count(t, n, m, i) + if t.edges[i].src == n && t.edges[i].dst == m then 1 else 0
      ensures CountOn(t, n, m, port, i + 1)
           == CountOn(t, n, m, port, i) + if t.edges[i] == NodeEdge(n, m, port) then 1 else 0
    {
    }
  }

  method CollectByNode(t: Nodes, n: nat, port: string) returns (byNode: map<nat, Arrival>)
    requires |t.modes| == |t.unitOf| && forall i | 0 <= i < |t.edges| :: t.edges[i].dst < |t.unitOf|
    ensures CountsByNode(t, n, port, |t.edges|, byNode)
  {
    byNode := map[];
    for i := 0 to |t.edges|
      invariant CountsByNode(t, n, port, i, byNode)
    {
      var e := t.edges[i];
      NodeCountsExtend(t, n, port, i, byNode);
      if e.src == n {
        var a := if e.dst in byNode then byNode[e.dst] else Arrival(0, 0, t.modes[e.dst]);
        byNode := byNode[e.dst := Arrival(a.count + 1, a.active + if e.port == port then 1 else 0, a.mode)];
      }
    }
  }

  method DownstreamArrivals(t: Nodes, n: nat, port: string) returns (list: seq<Dest>)
    requires NodesOk(t)
    ensures NodeList(t, n, port, |t.unitOf|, list)
  {
    forall i | 0 <= i < |t.edges| ensures t.edges[i].dst < |t.unitOf| { assert EdgeOk(t, t.edges[i]); }
    var byNode := CollectByNode(t, n, port);
    list := [];
    for m := 0 to |t.unitOf|
      invariant NodeList(t, n, port, m, list)
    {
      if m in byNode {
        ghost var before := list;
        list := list + [Dest(m, t.unitOf[m], byNode[m])];
        NodeListExtends(t, n, port, m, before, list[|before|]);
      }
    }
  }

  lemma NodeListExtends(t: Nodes, n: nat, port: string, m: nat, list: seq<Dest>, d: Dest)
    requires |t.modes| == |t.unitOf| && m < |t.unitOf| && NodeList(t, n, port, m, list) && d.node == m
    requires d.unit == t.unitOf[m]
    requires d.arrival == NodeEntry(t, n, m, port)
    requires d.arrival.count > 0
    ensures NodeList(t, n, port, m + 1, list + [d])
  {
    var longer := list + [d];
    forall w: nat | w < m + 1 && Count(t, n, w, |t.edges|) > 0
      ensures exists k | 0 <= k < |longer| :: longer[k].node == w
    {
      if w == m {
        assert longer[|list|].node == w;
      } else {
        var k :| 0 <= k < |list| && list[k].node == w;
        assert longer[k].node == w;
      }
    }
  }

  /** The list holds exactly the arrivals that move a counter, one per unit. */
  predicate Delivers(list: seq<Dest>, arr: seq<Arrival>) {
    && (forall d :: d in list ==> d.unit < |arr| && d.arrival == arr[d.unit])
    && (forall j, k | 0 <= j < k < |list| :: list[j].unit != list[k].unit)
    && (forall v: nat | v < |arr| && arr[v].count > 0 :: exists k | 0 <= k < |list| :: list[k].unit == v)
  }

  /** What a node unit's arrivals amount to, edge by edge. */
  lemma NodeArrival(t: Nodes, u: nat, v: nat, port: string)
    requires NodesOk(t) && u < |t.kinds| && v < |t.kinds| && t.kinds[u].NodeUnit?
    ensures Arrivals(Compile(t), u, Success, {Exit(t.entry[u], port)})[v]
         == NodeEntry(t, t.entry[u], t.entry[v], port)
    ensures Arrivals(Compile(t), u, Skipped, {})[v]
         == NodeEntry(t, t.entry[u], t.entry[v], "")
  {
    NodeUnitFaithful(t, u, v, port);
    NoEmptyPort(t, t.entry[u], t.entry[v], |t.edges|);
  }

  lemma ListDelivers(t: Nodes, u: nat, port: string, list: seq<Dest>, arr: seq<Arrival>)
    requires NodesOk(t) && u < |t.kinds| == |arr| && t.kinds[u].NodeUnit?
    requires NodeList(t, t.entry[u], port, |t.unitOf|, list)
    requires forall v: nat | v < |arr| ::
      arr[v] == NodeEntry(t, t.entry[u], t.entry[v], port)
    ensures Delivers(list, arr)
  {
    forall k | 0 <= k < |list| ensures t.entry[list[k].unit] == list[k].node {
      EntryOnly(t, u, list[k].node, |t.edges|);
    }
    forall v: nat | v < |arr| && arr[v].count > 0 ensures exists k | 0 <= k < |list| :: list[k].unit == v {
      var k :| 0 <= k < |list| && list[k].node == t.entry[v];
      assert list[k].unit == v;
    }
  }

  /** A node unit's list stands for its edges in the unit graph, on the port it
      fired or, with the empty port, on none. */
  lemma NodeListDelivers(t: Nodes, u: nat, port: string, list: seq<Dest>)
    requires NodesOk(t) && u < |t.kinds| && t.kinds[u].NodeUnit? && NodeList(t, t.entry[u], port, |t.unitOf|, list)
    ensures Delivers(list, Arrivals(Compile(t), u, Success, {Exit(t.entry[u], port)}))
    ensures port == "" ==> Delivers(list, Arrivals(Compile(t), u, Skipped, {}))
  {
    forall v: nat | v < |t.kinds|
      ensures Arrivals(Compile(t), u, Success, {Exit(t.entry[u], port)})[v]
           == NodeEntry(t, t.entry[u], t.entry[v], port)
      ensures Arrivals(Compile(t), u, Skipped, {})[v]
           == NodeEntry(t, t.entry[u], t.entry[v], "")
    {
      NodeArrival(t, u, v, port);
    }
    ListDelivers(t, u, port, list, Arrivals(Compile(t), u, Success, {Exit(t.entry[u], port)}));
    if port == "" { ListDelivers(t, u, port, list, Arrivals(Compile(t), u, Skipped, {})); }
  }

  lemma {:induction false} EntryOnly(t: Nodes, u: nat, m: nat, upto: nat)
    requires NodesOk(t) && u < |t.kinds| && t.kinds[u].NodeUnit? && m < |t.unitOf| && upto <= |t.edges|
    requires Count(t, t.entry[u], m, upto) > 0
    ensures t.entry[t.unitOf[m]] == m
  {
    var e := t.edges[upto - 1];
    if e.src == t.entry[u] && e.dst == m { assert EdgeOk(t, e); } else { EntryOnly(t, u, m, upto - 1); }
  }

  lemma {:induction false} NoEmptyPort(t: Nodes, n: nat, m: nat, upto: nat)
    requires NodesOk(t) && upto <= |t.edges|
    ensures CountOn(t, n, m, "", upto) == 0
  {
    if upto > 0 {
      NoEmptyPort(t, n, m, upto - 1);
      assert EdgeOk(t, t.edges[upto - 1]);
    }
  }

  /** The counts collected so far, keyed by destination unit. */
  ghost predicate CountsByUnit(g: Graph, u: nat, fired: set<Port>, es: seq<Edge>, byUnit: map<nat, Arrival>)
    requires |g.unitModes| == Size(g)
  {
    && (forall v: nat :: v in byUnit <==> v < Size(g) && |Picked(es, u, v)| > 0)
    && (forall v: nat :: v in byUnit ==>
         byUnit[v] == Arrival(|Picked(es, u, v)|, |PickedOn(es, u, v, fired)|, g.unitModes[v]))
  }

  lemma CountsExtend(g: Graph, u: nat, fired: set<Port>, es: seq<Edge>, byUnit: map<nat, Arrival>, e: Edge)
    requires |g.unitModes| == Size(g) && e.dst < Size(g) && CountsByUnit(g, u, fired, es, byUnit)
    ensures e.src != u ==> CountsByUnit(g, u, fired, es + [e], byUnit)
    ensures e.src == u ==>
      var a := if e.dst in byUnit then byUnit[e.dst] else Arrival(0, 0, g.unitModes[e.dst]);
      CountsByUnit(g, u, fired, es + [e],
        byUnit[e.dst := Arrival(a.count + 1, a.active + if e.port in fired then 1 else 0, a.mode)])
  {
    forall v: nat
      ensures |Picked(es + [e], u, v)| == |Picked(es, u, v)| + if e.src == u && e.dst == v then 1 else 0
      ensures |PickedOn(es + [e], u, v, fired)|
           == |PickedOn(es, u, v, fired)| + if e.src == u && e.dst == v && e.port in fired then 1 else 0
      ensures |Picked(es, u, v)| == 0 ==> |PickedOn(es, u, v, fired)| == 0
    {
      PickedAppend(es, e, u, v, fired);
      PickedOnSubset(es, u, v, fired);
    }
  }

  method CollectByUnit(g: Graph, u: nat, fired: set<Port>) returns (byUnit: map<nat, Arrival>)
    requires |g.unitModes| == Size(g) && forall i | 0 <= i < |g.edges| :: g.edges[i].dst < Size(g)
    ensures CountsByUnit(g, u, fired, g.edges, byUnit)
  {
    byUnit := map[];
    for i := 0 to |g.edges|
      invariant CountsByUnit(g, u, fired, g.edges[..i], byUnit)
    {
      var e := g.edges[i];
      assert g.edges[..i + 1] == g.edges[..i] + [e];
      CountsExtend(g, u, fired, g.edges[..i], byUnit, e);
      if e.src == u {
        var a := if e.dst in byUnit then byUnit[e.dst] else Arrival(0, 0, g.unitModes[e.dst]);
        byUnit := byUnit[e.dst := Arrival(a.count + 1, a.active + if e.port in fired then 1 else 0, a.mode)];
      }
    }
    assert g.edges[..|g.edges|] == g.edges;
  }

  /** A group's list, keyed by destination unit: a boundary edge is active if its
      exit fired, an error edge if the failure is routed to the error output. */
  method DownstreamUnitArrivals(g: Graph, u: nat, fired: set<Port>) returns (list: seq<Dest>)
    requires |g.nodes| == |g.modes| == |g.unitModes| == |g.skips| == Size(g) && u < Size(g) && g.kinds[u].GroupUnit?
    requires forall i | 0 <= i < |g.edges| :: g.edges[i].dst < Size(g)
    ensures Delivers(list, Arrivals(g, u, Success, fired))
  {
    var byUnit := CollectByUnit(g, u, fired);
    list := [];
    for v := 0 to Size(g)
      invariant UnitList(byUnit, v, list)
    {
      if v in byUnit {
        UnitListExtends(byUnit, v, list, Dest(g.nodes[v], v, byUnit[v]));
        list := list + [Dest(g.nodes[v], v, byUnit[v])];
      }
    }
    UnitListDelivers(g, u, fired, byUnit, list);
  }

  /** One entry per collected unit below `upto`, in order. */
  ghost predicate UnitList(byUnit: map<nat, Arrival>, upto: nat, list: seq<Dest>) {
    && (forall k | 0 <= k < |list| :: list[k].unit < upto && list[k].unit in byUnit
         && list[k].arrival == byUnit[list[k].unit])
    && (forall j, k | 0 <= j < k < |list| :: list[j].unit < list[k].unit)
    && (forall w: nat | w < upto && w in byUnit :: exists k | 0 <= k < |list| :: list[k].unit == w)
  }

  lemma UnitListExtends(byUnit: map<nat, Arrival>, v: nat, list: seq<Dest>, d: Dest)
    requires UnitList(byUnit, v, list) && v in byUnit && d.unit == v && d.arrival == byUnit[v]
    ensures UnitList(byUnit, v + 1, list + [d])
  {
    var longer := list + [d];
    assert longer[|list|].unit == v;
    forall w: nat | w < v + 1 && w in byUnit ensures exists k | 0 <= k < |longer| :: longer[k].unit == w {
      if w < v {
        var k :| 0 <= k < |list| && list[k].unit == w;
        assert longer[k].unit == w;
      }
    }
  }

  lemma UnitListDelivers(g: Graph, u: nat, fired: set<Port>, byUnit: map<nat, Arrival>, list: seq<Dest>)
    requires |g.modes| == |g.unitModes| == |g.skips| == Size(g) && u < Size(g) && g.kinds[u].GroupUnit?
    requires CountsByUnit(g, u, fired, g.edges, byUnit)
    requires UnitList(byUnit, Size(g), list)
    ensures Delivers(list, Arrivals(g, u, Success, fired))
  {
    forall v: nat | v < Size(g)
      ensures Between(g, u, v) == Picked(g.edges, u, v) && BetweenOn(g, u, v, fired) == PickedOn(g.edges, u, v, fired)
    {
    }
  }

  lemma PickedOnSubset(es: seq<Edge>, u: nat, v: nat, fired: set<Port>)
    ensures Picked(es, u, v) == {} ==> PickedOn(es, u, v, fired) == {}
    ensures Picked(es, u, v) == {} <==> |Picked(es, u, v)| == 0
  {
    if Picked(es, u, v) == {} {
      forall i | 0 <= i < |es| ensures i !in PickedOn(es, u, v, fired) { assert i !in Picked(es, u, v); }
    }
  }

  /** The store's loop over the list: counters first, then at most one decision
      per unit, each with its task. */
  method ApplyArrivals(cells: seq<Cell>, list: seq<Dest>) returns (cells': seq<Cell>, tasks: set<Task>)
    requires forall d :: d in list ==> d.unit < |cells|
    requires forall j, k | 0 <= j < k < |list| :: list[j].unit != list[k].unit
    ensures |cells'| == |cells|
    ensures forall d :: d in list ==> cells'[d.unit] == SettleCell(cells[d.unit], d.arrival)
    ensures forall v: nat | v < |cells| && (forall d :: d in list ==> d.unit != v) :: cells'[v] == cells[v]
    ensures tasks == set v: nat | v < |cells| && cells[v].marker.Unset? && !cells'[v].marker.Unset? ::
      TaskFor(v, cells'[v].marker)
  {
    cells', tasks := cells, {};
    for i := 0 to |list|
      invariant |cells'| == |cells|
      invariant forall k | 0 <= k < i :: cells'[list[k].unit] == SettleCell(cells[list[k].unit], list[k].arrival)
      invariant forall v: nat | v < |cells| && (forall k | 0 <= k < i :: list[k].unit != v) :: cells'[v] == cells[v]
      invariant forall x :: x in tasks <==>
        exists v: nat | v < |cells| ::
          x == TaskFor(v, cells'[v].marker) && cells[v].marker.Unset? && !cells'[v].marker.Unset?
    {
      var d := list[i];
      assert d in list;
      var c := cells'[d.unit];
      assert c == cells[d.unit];
      if d.arrival.count > 0 {
        var previous := c.active;
        c := c.(inDegree := c.inDegree - d.arrival.count, active := c.active + d.arrival.active);
        if c.marker.Unset? {
          if d.arrival.mode.WaitAny? && d.arrival.active > 0 && previous == 0 {
            c := c.(marker := Execute);
          } else if c.inDegree <= 0 {
            c := c.(marker := if c.active > 0 then Execute else Skip);
          }
          if !c.marker.Unset? { tasks := tasks + {TaskFor(d.unit, c.marker)}; }
        }
      }
      assert c == SettleCell(cells[d.unit], d.arrival);
      ghost var before := cells';
      cells' := cells'[d.unit := c];
      assert forall v: nat | v < |cells| && v != d.unit :: cells'[v] == before[v];
    }
  }

  /** Applying a delivered list is the pointwise transition of the state machine. */
  lemma ApplyIsSettle(s: State, u: nat, list: seq<Dest>, arr: seq<Arrival>, cells': seq<Cell>, tasks: set<Task>)
    requires |arr| == |s.cells| == |cells'| && Delivers(list, arr)
    requires forall d :: d in list ==> cells'[d.unit] == SettleCell(s.cells[d.unit], d.arrival)
    requires forall v: nat | v < |s.cells| && (forall d :: d in list ==> d.unit != v) :: cells'[v] == s.cells[v]
    requires tasks == set v: nat | v < |s.cells| && s.cells[v].marker.Unset? && !cells'[v].marker.Unset? ::
      TaskFor(v, cells'[v].marker)
    ensures Settle(s, u, arr).cells == cells' && Settle(s, u, arr).log == s.log + tasks
  {
    forall v: nat | v < |s.cells| ensures SettleCell(s.cells[v], arr[v]) == cells'[v] {
      if k :| 0 <= k < |list| && list[k].unit == v {
        assert list[k] in list;
      } else {
        assert arr[v].count == 0;
      }
    }
  }

  /** What a folding commit of a node unit does to the counters, from its out-edges to the
      tasks it writes: exactly the transition of the state machine. */
  method FoldNodeArrivals(t: Nodes, s: State, u: nat, port: string) returns (cells: seq<Cell>, tasks: set<Task>)
    requires NodesOk(t) && u < |t.kinds| == |s.cells| && t.kinds[u].NodeUnit?
    ensures var s' := Settle(s, u, Arrivals(Compile(t), u, Success, {Exit(t.entry[u], port)}));
      cells == s'.cells && s.log + tasks == s'.log
    ensures port == "" ==>
      var s' := Settle(s, u, Arrivals(Compile(t), u, Skipped, {})); cells == s'.cells && s.log + tasks == s'.log
  {
    var list := DownstreamArrivals(t, t.entry[u], port);
    NodeListDelivers(t, u, port, list);
    cells, tasks := ApplyArrivals(s.cells, list);
    ApplyIsSettle(s, u, list, Arrivals(Compile(t), u, Success, {Exit(t.entry[u], port)}), cells, tasks);
    if port == "" { ApplyIsSettle(s, u, list, Arrivals(Compile(t), u, Skipped, {}), cells, tasks); }
  }

  /** The same for a group commit, from the exits it reports. */
  method FoldGroupArrivals(g: Graph, s: State, u: nat, fired: set<Port>) returns (cells: seq<Cell>, tasks: set<Task>)
    requires |g.nodes| == |g.modes| == |g.unitModes| == |g.skips| == |s.cells| == Size(g) && u < Size(g)
    requires g.kinds[u].GroupUnit?
    requires forall i | 0 <= i < |g.edges| :: g.edges[i].dst < Size(g)
    ensures var s' := Settle(s, u, Arrivals(g, u, Success, fired)); cells == s'.cells && s.log + tasks == s'.log
  {
    var list := DownstreamUnitArrivals(g, u, fired);
    cells, tasks := ApplyArrivals(s.cells, list);
    ApplyIsSettle(s, u, list, Arrivals(g, u, Success, fired), cells, tasks);
  }

  /** Starting at one entry: a skip for every other root that is a node unit, which
      is what an initial state holds. */
  method UnselectedRootSkips(g: Graph, selected: nat) returns (tasks: seq<Task>)
    ensures forall x :: x in tasks <==> x.SkipTask? && x in Init(Config(g, true, Redis, {}, {}), {selected}).log
    ensures forall j, k | 0 <= j < k < |tasks| :: tasks[j].unit < tasks[k].unit
  {
    tasks := [];
    for u := 0 to Size(g)
      invariant forall x :: x in tasks <==>
        x.SkipTask? && x.unit < u && x.unit != selected && Root(g, x.unit) && g.kinds[x.unit].NodeUnit?
      invariant forall j, k | 0 <= j < k < |tasks| :: tasks[j].unit < tasks[k].unit
    {
      if u == selected || |Into(g, u)| != 0 || g.kinds[u].GroupUnit? { continue; }
      tasks := tasks + [SkipTask(u)];
    }
  }
}
