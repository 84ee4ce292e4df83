/** The two worklist walks a rerun partitions the graph with. */
module Reach {
  import opened Units

  predicate Linked(g: Graph, u: nat, v: nat) {
    exists i | 0 <= i < |g.edges| :: g.edges[i].src == u && g.edges[i].dst == v
  }

  ghost predicate Path(g: Graph, p: seq<nat>) {
    |p| > 0 && forall i | 0 <= i < |p| - 1 :: Linked(g, p[i], p[i + 1])
  }

  ghost predicate PathBetween(g: Graph, p: seq<nat>, u: nat, v: nat) {
    Path(g, p) && p[0] == u && p[|p| - 1] == v
  }

  ghost predicate Reaches(g: Graph, u: nat, v: nat) { exists p :: PathBetween(g, p, u, v) }

  /** Reachable by at least one edge. */
  ghost predicate Precedes(g: Graph, u: nat, v: nat) { exists w :: Linked(g, u, w) && Reaches(g, w, v) }

  predicate InRange(g: Graph) {
    forall i | 0 <= i < |g.edges| :: g.edges[i].src < Size(g) && g.edges[i].dst < Size(g)
  }

  lemma ReachesSelf(g: Graph, u: nat)
    ensures Reaches(g, u, u)
  {
    assert PathBetween(g, [u], u, u);
  }

  lemma ReachesOn(g: Graph, u: nat, v: nat, w: nat)
    requires Reaches(g, u, v) && Linked(g, v, w)
    ensures Reaches(g, u, w)
  {
    var p :| PathBetween(g, p, u, v);
    assert PathBetween(g, p + [w], u, w);
  }

  lemma ReachesBack(g: Graph, u: nat, v: nat, w: nat)
    requires Linked(g, u, v) && Reaches(g, v, w)
    ensures Reaches(g, u, w)
  {
    var p :| PathBetween(g, p, v, w);
    assert PathBetween(g, [u] + p, u, w);
  }

  /** A set closed under edges holds everything reachable from its members. */
  lemma {:induction false} ClosedHolds(g: Graph, s: set<nat>, p: seq<nat>)
    requires Path(g, p) && p[0] in s && forall u, v :: u in s && Linked(g, u, v) ==> v in s
    ensures p[|p| - 1] in s
    decreases |p|
  {
    if |p| > 1 {
      assert Linked(g, p[0], p[1]);
      forall i | 0 <= i < |p[1..]| - 1 ensures Linked(g, p[1..][i], p[1..][i + 1]) {
        assert Linked(g, p[i + 1], p[i + 1 + 1]);
      }
      ClosedHolds(g, s, p[1..]);
    }
  }

  /** A set closed under reversed edges holds everything that reaches a member. */
  lemma {:induction false} ClosedBack(g: Graph, s: set<nat>, p: seq<nat>)
    requires Path(g, p) && p[|p| - 1] in s && forall u, v :: v in s && Linked(g, u, v) ==> u in s
    ensures p[0] in s
    decreases |p|
  {
    if |p| > 1 {
      assert Linked(g, p[|p| - 2], p[|p| - 2 + 1]);
      ClosedBack(g, s, p[..|p| - 1]);
    }
  }

  ghost function Unmarked(marked: seq<bool>): set<nat> {
    set u: nat | u < |marked| && !marked[u]
  }

  lemma MarkShrinks(marked: seq<bool>, u: nat)
    requires u < |marked| && !marked[u]
    ensures |Unmarked(marked[u := true])| < |Unmarked(marked)|
  {
    assert Unmarked(marked) == Unmarked(marked[u := true]) + {u};
  }

  /** The breadth-first walk marks exactly what the start reaches. */
  method Descendants(g: Graph, from: nat) returns (marked: seq<bool>)
    requires InRange(g) && from < Size(g)
    ensures |marked| == Size(g)
    ensures forall v: nat | v < Size(g) :: marked[v] <==> Reaches(g, from, v)
  {
    marked := seq(Size(g), _ => false)[from := true];
    var queue: seq<nat> := [from];
    ReachesSelf(g, from);
    while queue != []
      invariant |marked| == Size(g) && marked[from]
      invariant forall v: nat :: v in queue ==> v < Size(g) && marked[v]
      invariant forall v: nat | v < Size(g) && marked[v] :: Reaches(g, from, v)
      invariant forall u: nat, v: nat | u < Size(g) && marked[u] && u !in queue && Linked(g, u, v) ::
        v < Size(g) && marked[v]
      decreases |Unmarked(marked)|, |queue|
    {
      var u := queue[0];
      ghost var before := queue;
      assert u in before;
      queue := queue[1..];
      assert forall w: nat :: w in queue ==> w in before;
      ghost var marked0, queue0 := marked, queue;
      for i := 0 to |g.edges|
        invariant |marked| == Size(g) && marked[from]
        invariant forall v: nat :: v in queue ==> v < Size(g) && marked[v]
        invariant queue0 <= queue
        invariant forall v: nat | v < Size(g) && marked[v] :: Reaches(g, from, v)
        invariant forall v: nat | v < Size(g) && marked[v] :: marked0[v] || v in queue
        invariant forall v: nat | v < Size(g) && marked0[v] :: marked[v]
        invariant forall j | 0 <= j < i && g.edges[j].src == u :: marked[g.edges[j].dst]
        invariant (marked == marked0 && queue == queue0) || |Unmarked(marked)| < |Unmarked(marked0)|
      {
        var e := g.edges[i];
        if e.src == u && !marked[e.dst] {
          assert Linked(g, u, e.dst);
          ReachesOn(g, from, u, e.dst);
          MarkShrinks(marked, e.dst);
          marked := marked[e.dst := true];
          queue := queue + [e.dst];
        }
      }
      assert forall w :: w in before ==> w == u || w in queue0;
    }
    ghost var s := set u: nat | u < Size(g) && marked[u];
    forall v: nat | v < Size(g) && Reaches(g, from, v) ensures marked[v] {
      var p :| PathBetween(g, p, from, v);
      ClosedHolds(g, s, p);
    }
  }

  /** The predecessor lists, one entry per edge. */
  method Predecessors(g: Graph) returns (preds: seq<seq<nat>>)
    requires InRange(g)
    ensures |preds| == Size(g)
    ensures forall v: nat | v < Size(g) :: forall u :: u in preds[v] <==> Linked(g, u, v)
  {
    preds := seq(Size(g), _ => []);
    for i := 0 to |g.edges|
      invariant |preds| == Size(g)
      invariant forall v: nat | v < Size(g) :: forall u :: u in preds[v] <==>
        exists j | 0 <= j < i :: g.edges[j].src == u && g.edges[j].dst == v
    {
      var e := g.edges[i];
      ghost var before := preds;
      preds := preds[e.dst := preds[e.dst] + [e.src]];
      forall v: nat, u | v < Size(g)
        ensures u in preds[v] <==> exists j | 0 <= j < i + 1 :: g.edges[j].src == u && g.edges[j].dst == v
      {
        assert u in before[v] <==> exists j | 0 <= j < i :: g.edges[j].src == u && g.edges[j].dst == v;
      }
    }
  }

  /** Half-way through the reversed walk: only ancestors are marked or queued, and every
      predecessor of the start or of a marked unit is one or the other. */
  ghost predicate Walking(g: Graph, from: nat, marked: seq<bool>, queue: seq<nat>) {
    && |marked| == Size(g)
    && (forall u: nat :: u in queue ==> u < Size(g) && Precedes(g, u, from))
    && (forall u: nat | u < Size(g) && marked[u] :: Precedes(g, u, from))
    && (forall u: nat :: Linked(g, u, from) ==> u < Size(g) && (marked[u] || u in queue))
    && (forall u: nat, v: nat | v < Size(g) && marked[v] && Linked(g, u, v) :: u < Size(g) && (marked[u] || u in queue))
  }

  lemma WalkSkips(g: Graph, from: nat, marked: seq<bool>, queue: seq<nat>)
    requires Walking(g, from, marked, queue) && queue != [] && queue[0] < Size(g) && marked[queue[0]]
    ensures Walking(g, from, marked, queue[1..])
  {
    RestIn(queue);
  }

  lemma RestIn(queue: seq<nat>)
    requires queue != []
    ensures queue[0] in queue
    ensures forall u :: u in queue ==> u == queue[0] || u in queue[1..]
    ensures forall u :: u in queue[1..] ==> u in queue
  {
    assert queue == [queue[0]] + queue[1..];
  }

  lemma WalkMarks(g: Graph, from: nat, marked: seq<bool>, queue: seq<nat>, preds: seq<nat>)
    requires InRange(g) && Walking(g, from, marked, queue) && queue != [] && queue[0] < Size(g) && !marked[queue[0]]
    requires forall u: nat :: u in preds <==> Linked(g, u, queue[0])
    ensures Walking(g, from, marked[queue[0] := true], queue[1..] + preds)
  {
    var u := queue[0];
    RestIn(queue);
    PrecedesReaches(g, u, from);
    forall w: nat | w in preds ensures w < Size(g) && Precedes(g, w, from) {
      assert Linked(g, w, u);
    }
    var marked', queue' := marked[u := true], queue[1..] + preds;
    assert forall w :: w in queue' <==> w in queue[1..] || w in preds;
    forall w: nat, v: nat | v < Size(g) && marked'[v] && Linked(g, w, v)
      ensures w < Size(g) && (marked'[w] || w in queue')
    {
      if v == u { assert w in preds; }
    }
  }

  lemma WalkDone(g: Graph, from: nat, marked: seq<bool>)
    requires from < Size(g) && Walking(g, from, marked, [])
    ensures forall u: nat | u < Size(g) :: marked[u] <==> Precedes(g, u, from)
  {
    var s := {from} + set u: nat | u < Size(g) && marked[u];
    forall u: nat | u < Size(g) && Precedes(g, u, from) ensures marked[u] {
      var w :| Linked(g, u, w) && Reaches(g, w, from);
      var p :| PathBetween(g, p, w, from);
      ClosedBack(g, s, p);
    }
  }

  /** The reversed walk, which may queue a unit many times, marks exactly the
      strict ancestors. */
  method Ancestors(g: Graph, from: nat) returns (marked: seq<bool>)
    requires InRange(g) && from < Size(g)
    ensures |marked| == Size(g)
    ensures forall u: nat | u < Size(g) :: marked[u] <==> Precedes(g, u, from)
  {
    var preds := Predecessors(g);
    marked := seq(Size(g), _ => false);
    var queue: seq<nat> := preds[from];
    ReachesSelf(g, from);
    while queue != []
      invariant Walking(g, from, marked, queue)
      decreases |Unmarked(marked)|, |queue|
    {
      var u := queue[0];
      assert u in queue;
      if marked[u] {
        WalkSkips(g, from, marked, queue);
        queue := queue[1..];
        continue;
      }
      WalkMarks(g, from, marked, queue, preds[u]);
      MarkShrinks(marked, u);
      marked := marked[u := true];
      queue := queue[1..] + preds[u];
    }
    WalkDone(g, from, marked);
  }

  lemma PrecedesReaches(g: Graph, u: nat, v: nat)
    requires Precedes(g, u, v)
    ensures Reaches(g, u, v)
  {
    var w :| Linked(g, u, w) && Reaches(g, w, v);
    ReachesBack(g, u, w, v);
  }
}
