/** The compiled workflow as the scheduler sees it: scheduling units, the edges
    between them, and how each unit merges its inputs. */
module Units {
  import opened Common

  datatype Kind = NodeUnit | GroupUnit

  datatype Mode = WaitAll | WaitAny

  /** What a source has to fire for an edge to carry data: a port of one of its
      nodes, or a group's own error output. */
  datatype Port = Exit(node: nat, port: string) | ErrorExit

  datatype Edge = Edge(src: nat, dst: nat, port: Port)

  /** `modes[v]` is the merge mode of the node an edge into `v` enters, which is
      what an arrival from a node unit carries; `unitModes[v]` is the merge mode
      of the unit, which is what an arrival from a group unit carries.
      `skips[u]` lists, edge by edge, the destination units of the out-edges of
      the one node that a skip commit of unit `u` names, `nodes[u]`. */
  datatype Graph = Graph(
    kinds: seq<Kind>,
    nodes: seq<nat>,
    modes: seq<Mode>,
    unitModes: seq<Mode>,
    edges: seq<Edge>,
    skips: seq<seq<nat>>)

  function Size(g: Graph): nat { |g.kinds| }

  function Into(g: Graph, v: nat): set<nat> {
    set i | 0 <= i < |g.edges| && g.edges[i].dst == v
  }

  function Between(g: Graph, u: nat, v: nat): set<nat> {
    set i | 0 <= i < |g.edges| && g.edges[i].src == u && g.edges[i].dst == v
  }

  function BetweenOn(g: Graph, u: nat, v: nat, fired: set<Port>): set<nat> {
    set i | 0 <= i < |g.edges| && g.edges[i].src == u && g.edges[i].dst == v && g.edges[i].port in fired
  }

  /** The edges into `v` whose source is not in `done`. */
  function Open(g: Graph, done: set<nat>, v: nat): set<nat> {
    set i | 0 <= i < |g.edges| && g.edges[i].dst == v && g.edges[i].src !in done
  }

  /** The edges into `v` whose source is in `done` and fired that edge. */
  function Live(g: Graph, done: set<nat>, fired: seq<set<Port>>, v: nat): set<nat>
    requires forall u :: u in done ==> u < |fired|
  {
    set i | 0 <= i < |g.edges| && g.edges[i].dst == v && g.edges[i].src in done
            && g.edges[i].port in fired[g.edges[i].src]
  }

  predicate Root(g: Graph, u: nat) { Into(g, u) == {} }

  function SkipCount(g: Graph, u: nat, v: nat): nat
    requires u < |g.skips|
  {
    multiset(g.skips[u])[v]
  }

  /** A skip of `u` consumes exactly the edges that leave the unit. */
  predicate SkipFaithful(g: Graph, u: nat)
    requires u < |g.skips|
  {
    forall v: nat | v < Size(g) :: SkipCount(g, u, v) == |Between(g, u, v)|
  }

  ghost predicate Ranked(g: Graph, rank: seq<nat>) {
    && |rank| == Size(g)
    && forall i | 0 <= i < |g.edges| ::
         && g.edges[i].src < Size(g) && g.edges[i].dst < Size(g)
         && rank[g.edges[i].src] < rank[g.edges[i].dst]
  }

  ghost predicate Acyclic(g: Graph) { exists rank :: Ranked(g, rank) }

  ghost predicate WellFormed(g: Graph) {
    && |g.nodes| == |g.modes| == |g.unitModes| == |g.skips| == Size(g)
    && Size(g) > 0
    && Acyclic(g)
    && SkipWithin(g)
    && (forall u: nat | u < Size(g) && g.kinds[u].NodeUnit? :: SkipFaithful(g, u) && g.unitModes[u] == g.modes[u])
    && (forall u: nat | u < Size(g) && g.kinds[u].GroupUnit? :: g.unitModes[u] == WaitAll)
  }

  /** The node a skip names is a member of the unit, so of the edges to another unit it
      consumes at most those the unit has. */
  ghost predicate SkipWithin(g: Graph)
    requires |g.skips| == Size(g)
  {
    forall u: nat, v: nat | u < Size(g) && v < Size(g) && u != v :: SkipCount(g, u, v) <= |Between(g, u, v)|
  }

  predicate UniformModes(g: Graph)
    requires |g.modes| == |g.unitModes| == Size(g)
  {
    forall u: nat | u < Size(g) :: g.modes[u] == g.unitModes[u]
  }

  /** No unit has an edge to itself. */
  lemma NoSelfEdge(g: Graph, u: nat)
    requires Acyclic(g)
    ensures Between(g, u, u) == {}
  {
    var rank :| Ranked(g, rank);
  }

  /** Closing one more source takes exactly its edges off what is still open. */
  lemma OpenAfter(g: Graph, done: set<nat>, u: nat, v: nat)
    requires u !in done
    ensures |Open(g, done + {u}, v)| == |Open(g, done, v)| - |Between(g, u, v)|
  {
    var after, arrived := Open(g, done + {u}, v), Between(g, u, v);
    assert Open(g, done, v) == after + arrived;
    assert after !! arrived;
  }

  /** Closing one more source adds exactly the edges it fired. */
  lemma LiveAfter(g: Graph, done: set<nat>, fired: seq<set<Port>>, fired': seq<set<Port>>, u: nat, v: nat)
    requires u !in done && u < |fired'| == |fired|
    requires forall w :: w in done ==> w < |fired| && fired'[w] == fired[w]
    ensures |Live(g, done + {u}, fired', v)| == |Live(g, done, fired, v)| + |BetweenOn(g, u, v, fired'[u])|
  {
    var before, arrived := Live(g, done, fired, v), BetweenOn(g, u, v, fired'[u]);
    assert Live(g, done + {u}, fired', v) == before + arrived;
    assert before !! arrived;
  }

  lemma OpenBounds(g: Graph, done: set<nat>, u: nat, v: nat)
    requires u !in done
    ensures Between(g, u, v) <= Open(g, done, v) && |Between(g, u, v)| <= |Open(g, done, v)|
  {
    Subset(Between(g, u, v), Open(g, done, v));
  }
}
