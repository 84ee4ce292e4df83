/** The compiled graph at node level and the unit graph built from it. */
module Topology {
  import opened Units

  datatype NodeEdge = NodeEdge(src: nat, dst: nat, port: string)

  datatype ErrorEdge = ErrorEdge(group: nat, dst: nat)

  /** `unitOf[n]` is node `n`'s unit and `entry[u]` the node standing for unit `u`:
      its only member, or the group's entry member. `errors` holds one edge per
      declared error output of a group. */
  datatype Nodes = Nodes(
    unitOf: seq<nat>,
    kinds: seq<Kind>,
    entry: seq<nat>,
    modes: seq<Mode>,
    edges: seq<NodeEdge>,
    errors: seq<ErrorEdge>)

  predicate NodesOk(t: Nodes) {
    && |t.entry| == |t.kinds| && |t.modes| == |t.unitOf|
    && (forall n | 0 <= n < |t.unitOf| :: t.unitOf[n] < |t.kinds|)
    && (forall u | 0 <= u < |t.kinds| :: t.entry[u] < |t.unitOf| && t.unitOf[t.entry[u]] == u)
    && (forall n | 0 <= n < |t.unitOf| && t.kinds[t.unitOf[n]].NodeUnit? :: t.entry[t.unitOf[n]] == n)
    && (forall i | 0 <= i < |t.edges| :: EdgeOk(t, t.edges[i]))
    && (forall i | 0 <= i < |t.errors| ::
         t.errors[i].group < |t.kinds| && t.errors[i].dst < |t.unitOf| && t.kinds[t.errors[i].group].GroupUnit?)
  }

  /** An edge that enters another unit enters it at its entry, no edge of a node
      unit returns to it, and no edge has an empty source port. */
  predicate EdgeOk(t: Nodes, e: NodeEdge)
    requires |t.entry| == |t.kinds| && forall n | 0 <= n < |t.unitOf| :: t.unitOf[n] < |t.kinds|
  {
    && e.src < |t.unitOf| && e.dst < |t.unitOf| && e.port != ""
    && (t.unitOf[e.src] != t.unitOf[e.dst] ==> t.entry[t.unitOf[e.dst]] == e.dst)
    && (t.kinds[t.unitOf[e.src]].NodeUnit? ==> t.unitOf[e.src] != t.unitOf[e.dst])
  }

  function CrossEdges(t: Nodes, upto: nat): seq<Edge>
    requires NodesOk(t) && upto <= |t.edges|
  {
    if upto == 0 then []
    else
      var e := t.edges[upto - 1];
      CrossEdges(t, upto - 1) +
      if t.unitOf[e.src] == t.unitOf[e.dst] then [] else [Edge(t.unitOf[e.src], t.unitOf[e.dst], Exit(e.src, e.port))]
  }

  function ErrorEdges(t: Nodes, upto: nat): seq<Edge>
    requires NodesOk(t) && upto <= |t.errors|
  {
    if upto == 0 then []
    else ErrorEdges(t, upto - 1) + [Edge(t.errors[upto - 1].group, t.unitOf[t.errors[upto - 1].dst], ErrorExit)]
  }

  /** The units a skip commit naming node `n` sends an arrival to, per out-edge. */
  function SkipTargets(t: Nodes, n: nat, upto: nat): seq<nat>
    requires NodesOk(t) && upto <= |t.edges|
  {
    if upto == 0 then []
    else
      var e := t.edges[upto - 1];
      SkipTargets(t, n, upto - 1) + if e.src == n then [t.unitOf[e.dst]] else []
  }

  function Compile(t: Nodes): Graph
    requires NodesOk(t)
  {
    Graph(t.kinds, t.entry,
          seq(|t.kinds|, v requires 0 <= v < |t.kinds| => t.modes[t.entry[v]]),
          seq(|t.kinds|, v requires 0 <= v < |t.kinds| =>
            if t.kinds[v].GroupUnit? then WaitAll else t.modes[t.entry[v]]),
          CrossEdges(t, |t.edges|) + ErrorEdges(t, |t.errors|),
          seq(|t.kinds|, u requires 0 <= u < |t.kinds| => SkipTargets(t, t.entry[u], |t.edges|)))
  }

  // ---- Counting edges ----

  /** How many of the first `upto` edges lead from `src` to `dst`. */
  function Count(t: Nodes, src: nat, dst: nat, upto: nat): nat
    requires upto <= |t.edges|
  {
    if upto == 0 then 0
    else Count(t, src, dst, upto - 1) + if t.edges[upto - 1].src == src && t.edges[upto - 1].dst == dst then 1 else 0
  }

  function CountOn(t: Nodes, src: nat, dst: nat, port: string, upto: nat): nat
    requires upto <= |t.edges|
  {
    if upto == 0 then 0
    else CountOn(t, src, dst, port, upto - 1) + (if t.edges[upto - 1] == NodeEdge(src, dst, port) then 1 else 0)
  }

  ghost function Picked(es: seq<Edge>, u: nat, v: nat): set<nat> {
    set i | 0 <= i < |es| && es[i].src == u && es[i].dst == v
  }

  ghost function PickedOn(es: seq<Edge>, u: nat, v: nat, fired: set<Port>): set<nat> {
    set i | 0 <= i < |es| && es[i].src == u && es[i].dst == v && es[i].port in fired
  }

  lemma PickedAppend(es: seq<Edge>, e: Edge, u: nat, v: nat, fired: set<Port>)
    ensures |Picked(es + [e], u, v)| == |Picked(es, u, v)| + if e.src == u && e.dst == v then 1 else 0
    ensures |PickedOn(es + [e], u, v, fired)|
         == |PickedOn(es, u, v, fired)| + if e.src == u && e.dst == v && e.port in fired then 1 else 0
  {
    PickedNext(es, e, u, v);
    PickedOnNext(es, e, u, v, fired);
  }

  lemma PickedNext(es: seq<Edge>, e: Edge, u: nat, v: nat)
    ensures |Picked(es + [e], u, v)| == |Picked(es, u, v)| + if e.src == u && e.dst == v then 1 else 0
  {
    var before, after := Picked(es, u, v), Picked(es + [e], u, v);
    assert |es| !in before;
    if e.src == u && e.dst == v { assert after == before + {|es|}; } else { assert after == before; }
  }

  lemma PickedOnNext(es: seq<Edge>, e: Edge, u: nat, v: nat, fired: set<Port>)
    ensures |PickedOn(es + [e], u, v, fired)|
         == |PickedOn(es, u, v, fired)| + if e.src == u && e.dst == v && e.port in fired then 1 else 0
  {
    var before, after := PickedOn(es, u, v, fired), PickedOn(es + [e], u, v, fired);
    assert |es| !in before;
    if e.src == u && e.dst == v && e.port in fired { assert after == before + {|es|}; } else { assert after == before; }
  }

  /** An edge leaves a node unit for `v` exactly if it leads from the unit's node to
      the entry of `v`. */
  lemma EdgeEnds(t: Nodes, e: NodeEdge, u: nat, v: nat)
    requires NodesOk(t) && EdgeOk(t, e) && u < |t.kinds| && v < |t.kinds| && t.kinds[u].NodeUnit?
    ensures t.unitOf[e.src] == u <==> e.src == t.entry[u]
    ensures e.src == t.entry[u] ==> t.unitOf[e.src] != t.unitOf[e.dst]
    ensures e.src == t.entry[u] ==> (t.unitOf[e.dst] == v <==> e.dst == t.entry[v])
  {
  }

  /** A node unit's edges to a unit are its node's edges to that unit's entry. */
  lemma {:induction false} NodeUnitCounts(t: Nodes, u: nat, v: nat, port: string, upto: nat)
    requires NodesOk(t) && u < |t.kinds| && v < |t.kinds| && t.kinds[u].NodeUnit? && upto <= |t.edges|
    ensures |Picked(CrossEdges(t, upto), u, v)| == Count(t, t.entry[u], t.entry[v], upto)
    ensures |PickedOn(CrossEdges(t, upto), u, v, {Exit(t.entry[u], port)})|
      == CountOn(t, t.entry[u], t.entry[v], port, upto)
  {
    if upto > 0 {
      NodeUnitCounts(t, u, v, port, upto - 1);
      var e := t.edges[upto - 1];
      EdgeEnds(t, e, u, v);
      var es := CrossEdges(t, upto - 1);
      if t.unitOf[e.src] == t.unitOf[e.dst] {
        assert CrossEdges(t, upto) == es;
      } else {
        var x := Edge(t.unitOf[e.src], t.unitOf[e.dst], Exit(e.src, e.port));
        assert CrossEdges(t, upto) == es + [x];
        PickedAppend(es, x, u, v, {Exit(t.entry[u], port)});
      }
    }
  }

  lemma CountSnoc(list: seq<nat>, last: nat, v: nat)
    ensures multiset(list + [last])[v] == multiset(list)[v] + if last == v then 1 else 0
  {
  }

  /** Of the first `upto` edges those a skip that names `n` counts towards `v`. */
  function Hits(t: Nodes, n: nat, v: nat, upto: nat): nat
    requires NodesOk(t) && upto <= |t.edges|
  {
    if upto == 0 then 0
    else
      var e := t.edges[upto - 1];
      Hits(t, n, v, upto - 1) + (if e.src == n && t.unitOf[e.dst] == v then 1 else 0)
  }

  function Occurs(list: seq<nat>, v: nat): nat {
    if list == [] then 0
    else Occurs(list[..|list| - 1], v) + if list[|list| - 1] == v then 1 else 0
  }

  lemma OccursSnoc(list: seq<nat>, last: nat, v: nat)
    ensures Occurs(list + [last], v) == Occurs(list, v) + if last == v then 1 else 0
  {
    assert (list + [last])[..|list|] == list;
  }

  lemma {:induction false} OccursIsCount(list: seq<nat>, v: nat)
    ensures multiset(list)[v] == Occurs(list, v)
    decreases |list|
  {
    if list != [] {
      var init, last := list[..|list| - 1], list[|list| - 1];
      OccursIsCount(init, v);
      CountSnoc(init, last, v);
      assert list == init + [last];
    }
  }

  lemma {:induction false} HitsCount(t: Nodes, n: nat, v: nat, upto: nat)
    requires NodesOk(t) && upto <= |t.edges|
    ensures Occurs(SkipTargets(t, n, upto), v) == Hits(t, n, v, upto)
  {
    if upto > 0 {
      HitsCount(t, n, v, upto - 1);
      var before, e := SkipTargets(t, n, upto - 1), t.edges[upto - 1];
      if e.src == n {
        OccursSnoc(before, t.unitOf[e.dst], v);
      } else {
        assert SkipTargets(t, n, upto) == before;
      }
    }
  }

  /** A node unit's skip counts the node's edges to the destination's entry. */
  lemma {:induction false} HitsAreEdges(t: Nodes, u: nat, v: nat, upto: nat)
    requires NodesOk(t) && u < |t.kinds| && v < |t.kinds| && t.kinds[u].NodeUnit? && upto <= |t.edges|
    ensures Hits(t, t.entry[u], v, upto) == Count(t, t.entry[u], t.entry[v], upto)
  {
    if upto > 0 {
      HitsAreEdges(t, u, v, upto - 1);
      EdgeEnds(t, t.edges[upto - 1], u, v);
    }
  }

  lemma SkipTargetCounts(t: Nodes, u: nat, v: nat)
    requires NodesOk(t) && u < |t.kinds| && v < |t.kinds| && t.kinds[u].NodeUnit?
    ensures multiset(SkipTargets(t, t.entry[u], |t.edges|))[v] == Count(t, t.entry[u], t.entry[v], |t.edges|)
  {
    HitsAreEdges(t, u, v, |t.edges|);
    HitsCount(t, t.entry[u], v, |t.edges|);
    OccursIsCount(SkipTargets(t, t.entry[u], |t.edges|), v);
  }

  /** Error edges leave groups only. */
  lemma {:induction false} ErrorsLeaveGroups(t: Nodes, es: seq<Edge>, u: nat, v: nat, fired: set<Port>, upto: nat)
    requires NodesOk(t) && u < |t.kinds| && t.kinds[u].NodeUnit? && upto <= |t.errors|
    ensures |Picked(es + ErrorEdges(t, upto), u, v)| == |Picked(es, u, v)|
    ensures |PickedOn(es + ErrorEdges(t, upto), u, v, fired)| == |PickedOn(es, u, v, fired)|
  {
    if upto == 0 {
      assert es + [] == es;
    } else {
      ErrorsLeaveGroups(t, es, u, v, fired, upto - 1);
      var e := Edge(t.errors[upto - 1].group, t.unitOf[t.errors[upto - 1].dst], ErrorExit);
      PickedAppend(es + ErrorEdges(t, upto - 1), e, u, v, fired);
      assert es + ErrorEdges(t, upto) == es + ErrorEdges(t, upto - 1) + [e];
    }
  }

  /** Between a node unit and any unit, the unit graph has exactly the node's own
      edges, and a skip of the unit consumes exactly those. */
  lemma NodeUnitFaithful(t: Nodes, u: nat, v: nat, port: string)
    requires NodesOk(t) && u < |t.kinds| && v < |t.kinds| && t.kinds[u].NodeUnit?
    ensures var g := Compile(t);
      && |Between(g, u, v)| == Count(t, t.entry[u], t.entry[v], |t.edges|) == SkipCount(g, u, v)
      && |BetweenOn(g, u, v, {Exit(t.entry[u], port)})| == CountOn(t, t.entry[u], t.entry[v], port, |t.edges|)
  {
    var g := Compile(t);
    NodeUnitCounts(t, u, v, port, |t.edges|);
    SkipTargetCounts(t, u, v);
    ErrorsLeaveGroups(t, CrossEdges(t, |t.edges|), u, v, {Exit(t.entry[u], port)}, |t.errors|);
    assert Between(g, u, v) == Picked(g.edges, u, v);
    assert BetweenOn(g, u, v, {Exit(t.entry[u], port)}) == PickedOn(g.edges, u, v, {Exit(t.entry[u], port)});
  }

  // ---- Skipping a group ----

  /** The unit's edges to `v` among the first `upto` leave it from its entry. */
  predicate FromEntry(t: Nodes, u: nat, v: nat, upto: nat)
    requires NodesOk(t) && u < |t.kinds| && upto <= |t.edges|
  {
    forall i | 0 <= i < upto && t.unitOf[t.edges[i].src] == u && t.unitOf[t.edges[i].dst] == v ::
      t.edges[i].src == t.entry[u]
  }

  predicate NoErrorTo(t: Nodes, u: nat, v: nat, upto: nat)
    requires NodesOk(t) && upto <= |t.errors|
  {
    forall i | 0 <= i < upto && t.errors[i].group == u :: t.unitOf[t.errors[i].dst] != v
  }

  lemma CrossNext(t: Nodes, u: nat, v: nat, upto: nat)
    requires NodesOk(t) && 0 < upto <= |t.edges| && u != v
    ensures |Picked(CrossEdges(t, upto), u, v)| == |Picked(CrossEdges(t, upto - 1), u, v)|
      + if t.unitOf[t.edges[upto - 1].src] == u && t.unitOf[t.edges[upto - 1].dst] == v then 1 else 0
  {
    var e, es := t.edges[upto - 1], CrossEdges(t, upto - 1);
    if t.unitOf[e.src] == t.unitOf[e.dst] {
      assert CrossEdges(t, upto) == es;
    } else {
      PickedNext(es, Edge(t.unitOf[e.src], t.unitOf[e.dst], Exit(e.src, e.port)), u, v);
    }
  }

  lemma FromEntryNext(t: Nodes, u: nat, v: nat, upto: nat)
    requires NodesOk(t) && u < |t.kinds| && 0 < upto <= |t.edges|
    ensures FromEntry(t, u, v, upto) <==>
      && FromEntry(t, u, v, upto - 1)
      && var e := t.edges[upto - 1];
         (t.unitOf[e.src] == u && t.unitOf[e.dst] == v ==> e.src == t.entry[u])
  {
  }

  /** A skip's count against the edges there are, and when the two agree. */
  predicate Within(skipped: nat, edges: nat, all: bool) { skipped <= edges && (skipped == edges <==> all) }

  /** Of the first `upto` edges those from `u` to `v`. */
  function Crossings(t: Nodes, u: nat, v: nat, upto: nat): nat
    requires NodesOk(t) && upto <= |t.edges|
  {
    if upto == 0 then 0
    else
      var e := t.edges[upto - 1];
      Crossings(t, u, v, upto - 1) + (if t.unitOf[e.src] == u && t.unitOf[e.dst] == v then 1 else 0)
  }

  lemma {:induction false} CrossingsCount(t: Nodes, u: nat, v: nat, upto: nat)
    requires NodesOk(t) && upto <= |t.edges| && u != v
    ensures |Picked(CrossEdges(t, upto), u, v)| == Crossings(t, u, v, upto)
  {
    if upto > 0 {
      CrossingsCount(t, u, v, upto - 1);
      CrossNext(t, u, v, upto);
    }
  }

  /** Of the edges to another unit a skip consumes those of the entry. */
  lemma {:induction false} HitsWithin(t: Nodes, u: nat, v: nat, upto: nat)
    requires NodesOk(t) && u < |t.kinds| && upto <= |t.edges|
    ensures Within(Hits(t, t.entry[u], v, upto), Crossings(t, u, v, upto), FromEntry(t, u, v, upto))
  {
    if upto > 0 {
      HitsWithin(t, u, v, upto - 1);
      FromEntryNext(t, u, v, upto);
    }
  }

  lemma {:induction false} ErrorsAdd(t: Nodes, es: seq<Edge>, u: nat, v: nat, upto: nat)
    requires NodesOk(t) && upto <= |t.errors|
    ensures |Picked(es + ErrorEdges(t, upto), u, v)| >= |Picked(es, u, v)|
    ensures |Picked(es + ErrorEdges(t, upto), u, v)| == |Picked(es, u, v)| <==> NoErrorTo(t, u, v, upto)
  {
    if upto == 0 {
      assert es + [] == es;
    } else {
      ErrorsAdd(t, es, u, v, upto - 1);
      var e := Edge(t.errors[upto - 1].group, t.unitOf[t.errors[upto - 1].dst], ErrorExit);
      PickedNext(es + ErrorEdges(t, upto - 1), e, u, v);
      assert es + ErrorEdges(t, upto) == es + ErrorEdges(t, upto - 1) + [e];
    }
  }

  /** A skip never consumes more than a unit's edges to another unit, and it consumes all
      of them if and only if they all leave from the entry and none is an error output. */
  lemma SkipMatchesIff(t: Nodes, u: nat, v: nat)
    requires NodesOk(t) && u < |t.kinds| && v < |t.kinds| && u != v
    ensures SkipCount(Compile(t), u, v) <= |Between(Compile(t), u, v)|
    ensures SkipCount(Compile(t), u, v) == |Between(Compile(t), u, v)| <==>
      FromEntry(t, u, v, |t.edges|) && NoErrorTo(t, u, v, |t.errors|)
  {
    HitsCount(t, t.entry[u], v, |t.edges|);
    OccursIsCount(SkipTargets(t, t.entry[u], |t.edges|), v);
    CrossingsCount(t, u, v, |t.edges|);
    HitsWithin(t, u, v, |t.edges|);
    ErrorsAdd(t, CrossEdges(t, |t.edges|), u, v, |t.errors|);
    assert Between(Compile(t), u, v) == Picked(Compile(t).edges, u, v);
  }

  /** The compiled graph meets the scheduler's hypotheses as soon as it is acyclic: a skip
      stays within the unit's own edges, node units propagate skips faithfully and groups
      merge as wait_all. */
  lemma CompiledWellFormed(t: Nodes)
    requires NodesOk(t) && |t.kinds| > 0 && Acyclic(Compile(t))
    ensures WellFormed(Compile(t))
  {
    var g := Compile(t);
    forall u: nat, v: nat | u < Size(g) && v < Size(g) && g.kinds[u].NodeUnit?
      ensures SkipCount(g, u, v) == |Between(g, u, v)|
    {
      NodeUnitFaithful(t, u, v, "main");
    }
    forall u: nat, v: nat | u < Size(g) && v < Size(g) && u != v
      ensures SkipCount(g, u, v) <= |Between(g, u, v)|
    {
      SkipMatchesIff(t, u, v);
    }
  }
}
