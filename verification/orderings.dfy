/** Which executions can succeed whatever the merge modes: exactly those whose units can be
    put in an order that decides each of them. */
module Orderings {
  import opened Units
  import opened Store
  import opened Schedule
  import opened Safety
  import opened Liveness
  import opened Cascade
  import opened Confluence
  import opened Canonical
  import opened Completion

  /** Under these outcomes `n` runs and fires an edge into `x`. */
  ghost predicate Feeds(g: Graph, rank: seq<nat>, entries: set<nat>, outcome: seq<set<Port>>, n: nat, x: nat)
    requires Ranked(g, rank) && |outcome| == Size(g)
  {
    n < Size(g) && Executes(g, rank, entries, outcome, n) && BetweenOn(g, n, x, outcome[n]) != {}
  }

  /** The unit comes after all its sources, and no skip misses it. */
  ghost predicate Last(g: Graph, rank: seq<nat>, entries: set<nat>, outcome: seq<set<Port>>, place: seq<nat>, x: nat)
    requires Ranked(g, rank) && |outcome| == |place| == |g.skips| == Size(g) && x < Size(g)
  {
    && !Misses(g, rank, entries, outcome, x)
    && forall u: nat | u < Size(g) && Between(g, u, x) != {} :: place[u] < place[x]
  }

  /** The unit comes after a source whose arrival carries wait_any, and that source before
      every one that feeds it an arrival carrying wait_all. */
  ghost predicate EarlyAfter(
    g: Graph, rank: seq<nat>, entries: set<nat>, outcome: seq<set<Port>>, place: seq<nat>, x: nat, n: nat)
    requires Ranked(g, rank) && |outcome| == |place| == |g.modes| == |g.unitModes| == Size(g)
    requires x < Size(g) && n < Size(g)
  {
    && Feeds(g, rank, entries, outcome, n, x) && Carried(g, n, x).WaitAny? && place[n] < place[x]
    && forall q: nat | q < Size(g) && Feeds(g, rank, entries, outcome, q, x) && Carried(g, q, x).WaitAll? ::
         place[n] < place[q]
  }

  ghost predicate Early(g: Graph, rank: seq<nat>, entries: set<nat>, outcome: seq<set<Port>>, place: seq<nat>, x: nat)
    requires Ranked(g, rank) && |outcome| == |place| == |g.modes| == |g.unitModes| == Size(g) && x < Size(g)
  {
    exists n: nat | n < Size(g) :: EarlyAfter(g, rank, entries, outcome, place, x, n)
  }

  /** The order decides every unit. */
  ghost predicate Timely(g: Graph, rank: seq<nat>, entries: set<nat>, outcome: seq<set<Port>>, place: seq<nat>)
    requires Ranked(g, rank) && |outcome| == |g.modes| == |g.unitModes| == |g.skips| == Size(g)
  {
    && |place| == Size(g)
    && forall x: nat | x < Size(g) ::
         Root(g, x) || Last(g, rank, entries, outcome, place, x) || Early(g, rank, entries, outcome, place, x)
  }

  // ---- A successful run gives an order ----

  /** Every edge into `x` had been closed and counted by the first `p` arrivals. */
  predicate ClosedBy(g: Graph, s: State, x: nat, p: nat)
    requires |g.skips| == Size(g) == |s.rows| && p <= |s.order|
  {
    forall u: nat | u < Size(g) && Between(g, u, x) != {} ::
      u in s.order[..p] && s.rows[u].Done? && Sent(g, s.rows[u].how, u, x) == |Between(g, u, x)|
  }

  predicate FirstBy(g: Graph, s: State, x: nat, p: nat)
    requires |g.modes| == |g.unitModes| == Size(g) == |s.rows| && x < Size(g) && p <= |s.order|
  {
    exists j: nat | j < p :: AnyAt(g, s, x, j)
  }

  /** What the first `p` arrivals had done for the decision of `x`. */
  predicate DecidedBy(g: Graph, s: State, x: nat, p: nat)
    requires |g.modes| == |g.unitModes| == |g.skips| == Size(g) == |s.rows| && x < Size(g) && p <= |s.order|
  {
    Root(g, x) || ClosedBy(g, s, x, p) || FirstBy(g, s, x, p)
  }

  /** Each unit's arrivals were applied after those that decided it. */
  predicate InOrder(g: Graph, s: State)
    requires |g.modes| == |g.unitModes| == |g.skips| == Size(g) == |s.rows|
  {
    forall p: nat | p < |s.order| :: s.order[p] < Size(g) && DecidedBy(g, s, s.order[p], p)
  }

  /** A decision is on record with what decided it. */
  lemma DecisionOnRecord(cfg: Config, entries: set<nat>, s: State, x: nat)
    requires Valid(cfg) && Inv(cfg, s) && CanonicalState(cfg, entries, s) && x < Size(cfg.g) && x !in s.settled
    requires ExecTask(x) in s.log || SkipTask(x) in s.log
    ensures DecidedBy(cfg.g, s, x, |s.order|)
  {
    var g := cfg.g;
    assert UnitOk(g, s, x) && Tallied(g, s, x) && Decided(g, s, x) && CanonicalCell(cfg, entries, s, x);
    if !Root(g, x) && !FirstIsAny(g, s, x) {
      DriftWithin(g, s, x);
      forall u: nat | u < Size(g) && Between(g, u, x) != {}
        ensures u in s.order[..|s.order|] && s.rows[u].Done? && Sent(g, s.rows[u].how, u, x) == |Between(g, u, x)|
      {
        var i :| i in Between(g, u, x);
        assert i !in Open(g, s.settled, x);
        assert u in s.order && s.order[..|s.order|] == s.order;
      }
    }
  }

  lemma DecidedStays(g: Graph, s: State, s': State, x: nat, p: nat)
    requires |g.modes| == |g.unitModes| == |g.skips| == Size(g) == |s.rows| == |s'.rows|
    requires p <= |s.order| <= |s'.order| && s'.order[..|s.order|] == s.order && x < Size(g)
    requires forall u: nat | u < Size(g) && u in s.order :: s.rows[u].Done? && s'.rows[u] == s.rows[u]
    requires DecidedBy(g, s, x, p)
    ensures DecidedBy(g, s', x, p)
  {
    assert s'.order[..p] == s.order[..p];
    if ClosedBy(g, s, x, p) {
      forall u: nat | u < Size(g) && Between(g, u, x) != {}
        ensures u in s'.order[..p] && s'.rows[u].Done? && Sent(g, s'.rows[u].how, u, x) == |Between(g, u, x)|
      {
        assert u in s.order[..p] && u in s.order;
      }
    } else if !Root(g, x) {
      var j: nat :| j < p && AnyAt(g, s, x, j);
      FirstStays(g, s, s', x, j);
    }
  }

  lemma FirstStays(g: Graph, s: State, s': State, x: nat, j: nat)
    requires |g.modes| == |g.unitModes| == Size(g) == |s.rows| == |s'.rows| && x < Size(g)
    requires j < |s.order| <= |s'.order| && s'.order[..|s.order|] == s.order && AnyAt(g, s, x, j)
    requires forall u: nat | u < Size(g) && u in s.order :: s.rows[u].Done? && s'.rows[u] == s.rows[u]
    ensures AnyAt(g, s', x, j)
  {
    forall k: nat | k <= j
      ensures s'.order[k] == s.order[k] && Fires(g, s', s'.order[k], x) == Fires(g, s, s.order[k], x)
    {
      assert s'.order[..|s.order|][k] == s.order[k];
      assert s.order[k] in s.order;
    }
  }

  /** The unit a step may settle: it has been decided before. */
  lemma StepExtends(cfg: Config, s: State, a: Action) returns (u: nat)
    requires Inv(cfg, s)
    ensures Step(cfg, s, a).order == s.order ||
      (&& Extends(s, Step(cfg, s, a), u) && u < Size(cfg.g)
       && (ExecTask(u) in s.log || SkipTask(u) in s.log))
  {
    u := 0;
    if a.Commit? || a.ServeDisabled? || a.ServePinned? || a.HandleSkip? || a.HandleAdvance? || a.HandleMergeCancel? {
      u := a.unit;
      if u < Size(cfg.g) { assert UnitOk(cfg.g, s, u); }
    }
  }

  lemma StepInOrder(cfg: Config, entries: set<nat>, s: State, a: Action)
    requires Valid(cfg) && Inv(cfg, s) && CanonicalState(cfg, entries, s) && InOrder(cfg.g, s)
    ensures InOrder(cfg.g, Step(cfg, s, a))
  {
    var g, s' := cfg.g, Step(cfg, s, a);
    var u := StepExtends(cfg, s, a);
    StepGrows(cfg, s, a);
    forall v: nat | v < Size(g) && v in s.order ensures s.rows[v].Done? && s'.rows[v] == s.rows[v] {
      assert v in s.settled;
    }
    assert s'.order[..|s.order|] == s.order;
    forall p: nat | p < |s'.order| ensures s'.order[p] < Size(g) && DecidedBy(g, s', s'.order[p], p) {
      if p < |s.order| {
        assert s'.order[p] == s.order[p];
        DecidedStays(g, s, s', s.order[p], p);
      } else {
        DecisionOnRecord(cfg, entries, s, u);
        DecidedStays(g, s, s', u, p);
      }
    }
  }

  lemma {:induction false} RunInOrder(cfg: Config, entries: set<nat>, s: State, actions: seq<Action>)
    requires Valid(cfg) && Inv(cfg, s) && CanonicalState(cfg, entries, s) && InOrder(cfg.g, s)
    ensures InOrder(cfg.g, Run(cfg, s, actions))
    decreases |actions|
  {
    if actions != [] {
      StepKeeps(cfg, s, actions[0]);
      StepCanonical(cfg, entries, s, actions[0]);
      StepInOrder(cfg, entries, s, actions[0]);
      RunInOrder(cfg, entries, Step(cfg, s, actions[0]), actions[1..]);
    }
  }

  /** Where a unit stands in the order; one that is not in it comes last. */
  function PlaceOf(order: seq<nat>, u: nat): (p: nat)
    ensures p <= |order| && (p < |order| ==> order[p] == u) && (p == |order| ==> u !in order)
    ensures forall k: nat | k < p :: order[k] != u
  {
    if order == [] then 0 else if order[0] == u then 0 else 1 + PlaceOf(order[1..], u)
  }

  function Places(order: seq<nat>, n: nat): (place: seq<nat>)
    ensures |place| == n && forall u: nat | u < n :: place[u] == PlaceOf(order, u)
  {
    seq(n, u requires 0 <= u < n => PlaceOf(order, u))
  }

  /** A complete state: every unit is terminal and ran or was skipped as the graph says. */
  ghost predicate Complete(cfg: Config, rank: seq<nat>, entries: set<nat>, outcome: seq<set<Port>>, s: State) {
    && Valid(cfg) && Ranked(cfg.g, rank) && |outcome| == Size(cfg.g)
    && Inv(cfg, s) && CanonicalState(cfg, entries, s) && Follows(cfg, entries, outcome, s) && LeftUnits(s) == {}
  }

  /** A settled unit fired its outcome if it ran and nothing otherwise. */
  lemma SettledFired(cfg: Config, rank: seq<nat>, entries: set<nat>, outcome: seq<set<Port>>, s: State, u: nat)
    requires Complete(cfg, rank, entries, outcome, s) && u in s.settled
    ensures u < Size(cfg.g) && s.rows[u].Done?
    ensures s.rows[u].how.Skipped? <==> !Executes(cfg.g, rank, entries, outcome, u)
    ensures !s.rows[u].how.Canceled?
    ensures s.rows[u].fired == if Executes(cfg.g, rank, entries, outcome, u) then outcome[u] else {}
  {
    assert u in DoneUnits(s);
    assert UnitOk(cfg.g, s, u) && RowFollows(outcome, s, u);
    DecisionsMatch(cfg, rank, entries, outcome, s, u);
  }

  lemma ClosedIsLast(cfg: Config, rank: seq<nat>, entries: set<nat>, outcome: seq<set<Port>>, s: State, x: nat, p: nat)
    requires Complete(cfg, rank, entries, outcome, s) && x < Size(cfg.g)
    requires p == PlaceOf(s.order, x) && ClosedBy(cfg.g, s, x, p)
    ensures Last(cfg.g, rank, entries, outcome, Places(s.order, Size(cfg.g)), x)
  {
    var g := cfg.g;
    forall u: nat | u < Size(g) && Between(g, u, x) != {}
      ensures PlaceOf(s.order, u) < p
      ensures Executes(g, rank, entries, outcome, u) || SkipCount(g, u, x) == |Between(g, u, x)|
    {
      assert u in s.order[..p];
      var k :| 0 <= k < p && s.order[k] == u;
      assert u in s.settled;
      SettledFired(cfg, rank, entries, outcome, s, u);
    }
  }

  /** The first arrival comes before every other source that feeds the unit. */
  lemma FirstComesFirst(cfg: Config, rank: seq<nat>, entries: set<nat>, outcome: seq<set<Port>>, s: State, x: nat,
                        j: nat, q: nat)
    requires Complete(cfg, rank, entries, outcome, s) && x < Size(cfg.g) && q < Size(cfg.g)
    requires j < |s.order| && AnyAt(cfg.g, s, x, j)
    requires Feeds(cfg.g, rank, entries, outcome, q, x) && q != s.order[j]
    ensures j < PlaceOf(s.order, q)
  {
    var k := PlaceOf(s.order, q);
    if k < |s.order| {
      assert s.order[k] == q && q in s.order && q in s.settled;
      SettledFired(cfg, rank, entries, outcome, s, q);
      assert Fires(cfg.g, s, s.order[k], x);
    }
  }

  lemma FirstFeeds(cfg: Config, rank: seq<nat>, entries: set<nat>, outcome: seq<set<Port>>, s: State, x: nat, j: nat)
    requires Complete(cfg, rank, entries, outcome, s) && x < Size(cfg.g)
    requires j < |s.order| && AnyAt(cfg.g, s, x, j)
    ensures Feeds(cfg.g, rank, entries, outcome, s.order[j], x) && PlaceOf(s.order, s.order[j]) <= j
  {
    var n := s.order[j];
    assert n in s.order && n in s.settled;
    SettledFired(cfg, rank, entries, outcome, s, n);
  }

  lemma FirstIsEarly(cfg: Config, rank: seq<nat>, entries: set<nat>, outcome: seq<set<Port>>, s: State, x: nat, p: nat)
    requires Complete(cfg, rank, entries, outcome, s) && x < Size(cfg.g)
    requires p == PlaceOf(s.order, x) && FirstBy(cfg.g, s, x, p)
    ensures Early(cfg.g, rank, entries, outcome, Places(s.order, Size(cfg.g)), x)
  {
    var g, place := cfg.g, Places(s.order, Size(cfg.g));
    var j: nat :| j < p && AnyAt(g, s, x, j);
    var n := s.order[j];
    FirstFeeds(cfg, rank, entries, outcome, s, x, j);
    forall q: nat | q < Size(g) && Feeds(g, rank, entries, outcome, q, x) && Carried(g, q, x).WaitAll?
      ensures place[n] < place[q]
    {
      FirstComesFirst(cfg, rank, entries, outcome, s, x, j, q);
    }
    assert EarlyAfter(g, rank, entries, outcome, place, x, n);
  }

  /** The order in which a successful run settled its units decides every one of them. */
  lemma SuccessIsTimely(cfg: Config, rank: seq<nat>, entries: set<nat>, outcome: seq<set<Port>>, run: seq<Action>)
    returns (place: seq<nat>)
    requires Valid(cfg) && Entries(cfg, entries) && Ranked(cfg.g, rank) && |outcome| == Size(cfg.g)
    requires Succeeds(cfg, entries, outcome, run)
    ensures Timely(cfg.g, rank, entries, outcome, place)
  {
    var g, s := cfg.g, Run(cfg, Init(cfg, entries), run);
    RunFacts(cfg, entries, run);
    InitKeeps(cfg, entries);
    InitCanonical(cfg, entries);
    InitFollows(cfg, entries, outcome);
    RunFollows(cfg, entries, outcome, Init(cfg, entries), run);
    RunInOrder(cfg, entries, Init(cfg, entries), run);
    place := Places(s.order, Size(g));
    forall x: nat | x < Size(g)
      ensures Root(g, x) || Last(g, rank, entries, outcome, place, x) || Early(g, rank, entries, outcome, place, x)
    {
      UnitIsTimely(cfg, rank, entries, outcome, s, x);
    }
  }

  lemma UnitIsTimely(cfg: Config, rank: seq<nat>, entries: set<nat>, outcome: seq<set<Port>>, s: State, x: nat)
    requires Complete(cfg, rank, entries, outcome, s) && InOrder(cfg.g, s) && x < Size(cfg.g)
    ensures var place := Places(s.order, Size(cfg.g));
      || Root(cfg.g, x) || Last(cfg.g, rank, entries, outcome, place, x)
      || Early(cfg.g, rank, entries, outcome, place, x)
  {
    var g, p := cfg.g, PlaceOf(s.order, x);
    if p == |s.order| {
      assert x !in LeftUnits(s) && UnitOk(g, s, x) && x !in s.settled;
      DecisionOnRecord(cfg, entries, s, x);
    }
    assert DecidedBy(g, s, x, p);
    if ClosedBy(g, s, x, p) {
      ClosedIsLast(cfg, rank, entries, outcome, s, x, p);
    } else if !Root(g, x) {
      FirstIsEarly(cfg, rank, entries, outcome, s, x, p);
    }
  }

  // ---- An order gives a successful run ----

  /** Units are settled by their place. */
  predicate Sorted(g: Graph, place: seq<nat>, s: State)
    requires |place| == Size(g)
  {
    && (forall k: nat | k < |s.order| :: s.order[k] < Size(g))
    && (forall j: nat, k: nat | j < k < |s.order| :: place[s.order[j]] <= place[s.order[k]])
    && (forall k: nat, u: nat | k < |s.order| && u < Size(g) && u !in s.order :: place[s.order[k]] <= place[u])
  }

  /** The next unit to settle: one of those left with the smallest place. */
  predicate Next(g: Graph, place: seq<nat>, s: State, v: nat)
    requires |place| == Size(g)
  {
    v < Size(g) && v !in s.order && forall u: nat | u < Size(g) && u !in s.order :: place[v] <= place[u]
  }

  lemma {:induction false} Smallest(place: seq<nat>, order: seq<nat>, n: nat, w: nat) returns (v: nat)
    requires w < n <= |place| && w !in order
    ensures v < n && v !in order && forall u: nat | u < n && u !in order :: place[v] <= place[u]
    decreases place[w]
  {
    if u: nat :| u < n && u !in order && place[u] < place[w] { v := Smallest(place, order, n, u); } else { v := w; }
  }

  lemma SortedAfter(g: Graph, place: seq<nat>, s: State, s': State, v: nat)
    requires |place| == Size(g) && Sorted(g, place, s) && Next(g, place, s, v) && Extends(s, s', v)
    ensures Sorted(g, place, s')
  {
    if s'.order != s.order {
      forall k: nat | k < |s'.order| ensures s'.order[k] == if k < |s.order| then s.order[k] else v {}
      assert forall u: nat | u !in s'.order :: u !in s.order;
    }
  }

  /** The sources of a unit that comes last are settled, and its counter is exact. */
  lemma LastIsDecided(cfg: Config, rank: seq<nat>, entries: set<nat>, outcome: seq<set<Port>>, done: seq<Action>,
                      s: State, place: seq<nat>, v: nat)
    requires Healthy(cfg, entries, outcome, done, s) && Ranked(cfg.g, rank) && |place| == Size(cfg.g)
    requires Next(cfg.g, place, s, v) && Last(cfg.g, rank, entries, outcome, place, v) && !Root(cfg.g, v)
    ensures !s.cells[v].marker.Unset?
  {
    var g := cfg.g;
    HealthyFacts(cfg, entries, outcome, done, s);
    if s.cells[v].marker.Unset? {
      forall i | i in Into(g, v) ensures i !in Open(g, s.settled, v) {
        var u := g.edges[i].src;
        assert i in Between(g, u, v) && u in s.order;
      }
      assert Open(g, s.settled, v) == {};
      UndecidedIsMissed(cfg, rank, entries, outcome, s, v);
    }
  }

  /** A settled source that runs fires its outcome. */
  lemma SourceFires(cfg: Config, rank: seq<nat>, entries: set<nat>, outcome: seq<set<Port>>, s: State, n: nat, v: nat)
    requires Valid(cfg) && Inv(cfg, s) && Follows(cfg, entries, outcome, s) && Ranked(cfg.g, rank)
    requires n < Size(cfg.g) && n in s.settled
    ensures Feeds(cfg.g, rank, entries, outcome, n, v) <==> Fires(cfg.g, s, n, v)
  {
    assert n in DoneUnits(s);
    assert UnitOk(cfg.g, s, n) && RowFollows(outcome, s, n);
    DecisionsMatch(cfg, rank, entries, outcome, s, n);
  }

  /** The first source that fired into a unit that comes early carried wait_any. */
  lemma EarlyIsFirst(cfg: Config, rank: seq<nat>, entries: set<nat>, outcome: seq<set<Port>>, s: State,
                     place: seq<nat>, v: nat, k: nat)
    requires Valid(cfg) && Inv(cfg, s) && Follows(cfg, entries, outcome, s) && OrderOk(s) && Ranked(cfg.g, rank)
    requires |place| == Size(cfg.g) && Sorted(cfg.g, place, s) && v < Size(cfg.g) && k < |s.order|
    requires EarlyAfter(cfg.g, rank, entries, outcome, place, v, s.order[k])
    ensures FirstIsAny(cfg.g, s, v)
  {
    var g, n := cfg.g, s.order[k];
    assert n in s.order && n in s.settled;
    SourceFires(cfg, rank, entries, outcome, s, n, v);
    var first := FirstFiring(g, s, v, k);
    var m := s.order[first];
    assert m in s.order && m in s.settled;
    SourceFires(cfg, rank, entries, outcome, s, m, v);
    assert place[m] <= place[n];
    assert AnyAt(g, s, v, first);
  }

  lemma EarlyIsDecided(cfg: Config, rank: seq<nat>, entries: set<nat>, outcome: seq<set<Port>>, done: seq<Action>,
                       s: State, place: seq<nat>, v: nat, n: nat)
    requires Healthy(cfg, entries, outcome, done, s) && Ranked(cfg.g, rank) && |place| == Size(cfg.g)
    requires n < Size(cfg.g) && Next(cfg.g, place, s, v) && Sorted(cfg.g, place, s) && !Root(cfg.g, v)
    requires EarlyAfter(cfg.g, rank, entries, outcome, place, v, n)
    ensures !s.cells[v].marker.Unset?
  {
    HealthyFacts(cfg, entries, outcome, done, s);
    assert n in s.order;
    var k: nat :| k < |s.order| && s.order[k] == n;
    EarlyIsFirst(cfg, rank, entries, outcome, s, place, v, k);
    assert CanonicalCell(cfg, entries, s, v);
  }

  lemma NextIsDecided(cfg: Config, rank: seq<nat>, entries: set<nat>, outcome: seq<set<Port>>, done: seq<Action>,
                      s: State, place: seq<nat>, v: nat)
    requires Healthy(cfg, entries, outcome, done, s) && Ranked(cfg.g, rank)
    requires Timely(cfg.g, rank, entries, outcome, place) && Sorted(cfg.g, place, s) && Next(cfg.g, place, s, v)
    ensures ExecTask(v) in s.log || SkipTask(v) in s.log
  {
    var g := cfg.g;
    assert UnitOk(g, s, v) && Decided(g, s, v);
    if !Root(g, v) {
      if Last(g, rank, entries, outcome, place, v) {
        LastIsDecided(cfg, rank, entries, outcome, done, s, place, v);
      } else {
        var n: nat :| n < Size(g) && EarlyAfter(g, rank, entries, outcome, place, v, n);
        EarlyIsDecided(cfg, rank, entries, outcome, done, s, place, v, n);
      }
    }
  }

  lemma SettleNext(cfg: Config, rank: seq<nat>, entries: set<nat>, outcome: seq<set<Port>>, done: seq<Action>,
                   s: State, place: seq<nat>)
    returns (run: seq<Action>, s': State)
    requires Healthy(cfg, entries, outcome, done, s) && s.exec.Running? && Ranked(cfg.g, rank) && Served(cfg, outcome)
    requires Timely(cfg.g, rank, entries, outcome, place) && Sorted(cfg.g, place, s)
    ensures Healthy(cfg, entries, outcome, run, s') && Closer(s, s') && Sorted(cfg.g, place, s')
  {
    HealthyFacts(cfg, entries, outcome, done, s);
    var w :| w in LeftUnits(s);
    assert w !in s.settled && w !in s.order;
    var v := Smallest(place, s.order, Size(cfg.g), w);
    NextIsDecided(cfg, rank, entries, outcome, done, s, place, v);
    if s.rows[v].Done? {
      run, s' := AdvanceCloser(cfg, entries, outcome, done, s, v);
    } else if ExecTask(v) in s.log {
      run, s' := ExecuteCloser(cfg, entries, outcome, done, s, v);
    } else {
      run, s' := SkipCloser(cfg, entries, outcome, done, s, v);
    }
    SortedAfter(cfg.g, place, s, s', v);
  }

  lemma {:induction false} SettleAll(cfg: Config, rank: seq<nat>, entries: set<nat>, outcome: seq<set<Port>>,
                                     done: seq<Action>, s: State, place: seq<nat>)
    returns (run: seq<Action>, s': State)
    requires Healthy(cfg, entries, outcome, done, s) && s.exec.Running? && Ranked(cfg.g, rank) && Served(cfg, outcome)
    requires Timely(cfg.g, rank, entries, outcome, place) && Sorted(cfg.g, place, s)
    ensures Healthy(cfg, entries, outcome, run, s') && s'.exec.Succeeded?
    decreases Weight(s)
  {
    run, s' := SettleNext(cfg, rank, entries, outcome, done, s, place);
    if !s'.exec.Succeeded? { run, s' := SettleAll(cfg, rank, entries, outcome, run, s', place); }
  }

  /** Settling the units by their place succeeds. */
  lemma TimelySucceeds(cfg: Config, rank: seq<nat>, entries: set<nat>, outcome: seq<set<Port>>, place: seq<nat>)
    returns (run: seq<Action>)
    requires Valid(cfg) && Entries(cfg, entries) && RootsCovered(cfg.g, entries) && Ranked(cfg.g, rank)
    requires |outcome| == Size(cfg.g) && Served(cfg, outcome) && Timely(cfg.g, rank, entries, outcome, place)
    ensures Succeeds(cfg, entries, outcome, run)
  {
    var s := Init(cfg, entries);
    RunReached(cfg, entries, []);
    assert Run(cfg, s, []) == s && Covered(cfg.g, s);
    var last: State;
    run, last := SettleAll(cfg, rank, entries, outcome, [], s, place);
  }

  /** Some run under the given outcomes succeeds if and only if every root left out is a
      node unit and the units can be ordered so that each comes after all its sources and
      is missed by no skip, or after a source that starts it at once and is the first to
      feed it. */
  lemma SucceedsIff(cfg: Config, rank: seq<nat>, entries: set<nat>, outcome: seq<set<Port>>)
    requires Valid(cfg) && Entries(cfg, entries) && Ranked(cfg.g, rank) && |outcome| == Size(cfg.g)
    requires Served(cfg, outcome)
    ensures (exists run :: Succeeds(cfg, entries, outcome, run)) <==>
      RootsCovered(cfg.g, entries) && exists place :: Timely(cfg.g, rank, entries, outcome, place)
  {
    if run :| Succeeds(cfg, entries, outcome, run) {
      SuccessMeansPassable(cfg, rank, entries, outcome, run);
      var place := SuccessIsTimely(cfg, rank, entries, outcome, run);
    }
    if RootsCovered(cfg.g, entries) && exists place :: Timely(cfg.g, rank, entries, outcome, place) {
      var place :| Timely(cfg.g, rank, entries, outcome, place);
      var run := TimelySucceeds(cfg, rank, entries, outcome, place);
    }
  }
}
