/** When a live run can be stuck: only behind a skipped group, or behind a group root
    that no entry selects. */
module Liveness {
  import opened Common
  import opened Units
  import opened Store
  import opened Schedule
  import opened Safety

  /** A lease is held, a node is parked on a signal, or a task that still has
      something to do is outstanding. */
  predicate Progressing(s: State) {
    || (exists u: nat | u < |s.rows| :: s.rows[u].Leased? || s.rows[u].Parked?)
    || (exists t :: t in s.pending && !Handled(s, t))
  }

  predicate Outstanding(s: State) {
    forall t :: t in s.log ==> Handled(s, t) || t in s.pending
  }

  predicate Covered(g: Graph, s: State) {
    forall u: nat | u < Size(g) && Root(g, u) :: ExecTask(u) in s.log || SkipTask(u) in s.log
  }

  /** Every root that is not an entry is a node unit, so a skip is written for it. */
  predicate RootsCovered(g: Graph, entries: set<nat>) {
    forall u: nat | u < Size(g) && Root(g, u) && u !in entries :: g.kinds[u].NodeUnit?
  }

  lemma SettleOutstanding(s: State, u: nat, arr: seq<Arrival>)
    requires |arr| == |s.cells| && (forall t :: t in s.log && t != AdvanceTask(u) ==> Handled(s, t) || t in s.pending)
    ensures Outstanding(Settle(s, u, arr))
  {
  }

  lemma TerminalizeOutstanding(cfg: Config, s: State, u: nat, how: How, fired: set<Port>, fatal: bool)
    requires Fits(cfg, s) && u < Size(cfg.g) && Outstanding(s) && !s.rows[u].Done?
    ensures Outstanding(Terminalize(cfg, s, u, how, fired, fatal))
  {
    var landed := Land(cfg, s, u, how, fired, fatal);
    assert Outstanding(landed);
    SettleOutstanding(landed, u, Arrivals(cfg.g, u, how, fired));
  }

  lemma StepOutstanding(cfg: Config, s: State, a: Action)
    requires Fits(cfg, s) && Outstanding(s)
    ensures Outstanding(Step(cfg, s, a))
  {
    var s' := Step(cfg, s, a);
    if s' == s {
    } else if a.HandleAdvance? {
      SettleOutstanding(s, a.unit, Arrivals(cfg.g, a.unit, s.rows[a.unit].how, s.rows[a.unit].fired));
    } else if a.Commit? {
      TerminalizeOutstanding(cfg, s, a.unit, a.how, a.fired, a.fatal);
    } else if a.ServeDisabled? || a.ServePinned? {
      var how := if a.ServeDisabled? then Disabled else Pinned;
      TerminalizeOutstanding(cfg, s, a.unit, how, MainPort(cfg.g, a.unit), false);
    } else if a.HandleSkip? || a.HandleMergeCancel? {
      TerminalizeOutstanding(cfg, s, a.unit, if a.HandleSkip? then Skipped else Canceled, {}, false);
    }
  }

  lemma {:induction false} RunOutstanding(cfg: Config, s: State, actions: seq<Action>)
    requires Fits(cfg, s) && Outstanding(s)
    ensures Outstanding(Run(cfg, s, actions))
    decreases |actions|
  {
    if actions != [] {
      StepOutstanding(cfg, s, actions[0]);
      RunOutstanding(cfg, Step(cfg, s, actions[0]), actions[1..]);
    }
  }

  /** Some unit that is left has only terminal sources. */
  lemma Frontier(g: Graph, rank: seq<nat>, s: State) returns (v: nat)
    requires Ranked(g, rank) && |s.rows| == Size(g) && LeftUnits(s) != {}
    ensures v in LeftUnits(s)
    ensures forall i | 0 <= i < |g.edges| && g.edges[i].dst == v :: g.edges[i].src in DoneUnits(s)
  {
    v :| v in LeftUnits(s);
    while exists w: nat :: w in LeftUnits(s) && rank[w] < rank[v]
      invariant v in LeftUnits(s)
      decreases rank[v]
    {
      var w: nat :| w in LeftUnits(s) && rank[w] < rank[v];
      v := w;
    }
  }

  /** A positive drift comes from a settled unit whose skip fell short. */
  lemma {:induction false} DriftSource(g: Graph, s: State, v: nat, n: nat) returns (u: nat)
    requires WellFormed(g) && |s.rows| == Size(g) && v < Size(g) && n <= Size(g)
    requires forall u :: u in s.settled && u < Size(g) && s.rows[u].Done? && s.rows[u].how.Canceled? ==>
      g.kinds[u].NodeUnit?
    requires Drift(g, s.rows, s.settled, v, n) > 0
    ensures u < Size(g) && u in s.settled && s.rows[u].Done? && s.rows[u].how.Skipped?
    ensures SkipCount(g, u, v) < |Between(g, u, v)|
  {
    u := n - 1;
    if u !in s.settled || !s.rows[u].Done? || Sent(g, s.rows[u].how, u, v) >= |Between(g, u, v)| {
      u := DriftSource(g, s, v, n - 1);
    } else if s.rows[u].how.Canceled? {
      assert SkipFaithful(g, u);
    }
  }

  /** Unit `v` is left undecided behind a skipped unit whose skip missed an edge to it. */
  predicate Starved(g: Graph, s: State, v: nat)
    requires |g.skips| == Size(g) == |s.rows|
  {
    && v in LeftUnits(s) && s.rows[v].Idle?
    && exists u: nat :: u in s.settled && u < Size(g) && s.rows[u].Done? && s.rows[u].how.Skipped?
                        && SkipCount(g, u, v) < |Between(g, u, v)|
  }

  /** In every reachable live state something can still move, or a unit is starved by the
      skip of a group that missed an edge to it. */
  lemma NeverStuck(cfg: Config, entries: set<nat>, actions: seq<Action>)
    requires Valid(cfg) && Entries(cfg, entries) && RootsCovered(cfg.g, entries)
    ensures var s := Run(cfg, Init(cfg, entries), actions);
      && (s.exec.Running? ==> Progressing(s) || exists v: nat :: Starved(cfg.g, s, v))
      && (s.exec.Running? && Clean(cfg.g, s) ==> Progressing(s))
  {
    var g, s0 := cfg.g, Init(cfg, entries);
    InitKeeps(cfg, entries);
    RunKeeps(cfg, s0, actions);
    RunOutstanding(cfg, s0, actions);
    RunGrows(cfg, s0, actions);
    var s := Run(cfg, s0, actions);
    if s.exec.Running? {
      assert Covered(g, s0);
      var rank :| Ranked(g, rank);
      var v := Frontier(g, rank, s);
      FrontierMoves(cfg, s, v);
    }
  }

  lemma FrontierMoves(cfg: Config, s: State, v: nat)
    requires Valid(cfg) && Inv(cfg, s) && Outstanding(s) && Covered(cfg.g, s) && s.exec.Running? && v in LeftUnits(s)
    requires forall i | 0 <= i < |cfg.g.edges| && cfg.g.edges[i].dst == v :: cfg.g.edges[i].src in DoneUnits(s)
    ensures Progressing(s) || (Starved(cfg.g, s, v) && !Clean(cfg.g, s))
  {
    var g := cfg.g;
    assert UnitOk(g, s, v) && Tallied(g, s, v) && Decided(g, s, v);
    if i :| i in Open(g, s.settled, v) {
      var src := g.edges[i].src;
      assert AdvanceTask(src) in s.log && !Handled(s, AdvanceTask(src));
    } else if s.rows[v].Idle? {
      if ExecTask(v) in s.log || SkipTask(v) in s.log {
        assert !Handled(s, ExecTask(v)) && !Handled(s, SkipTask(v));
      } else {
        var u := DriftSource(g, s, v, Size(g));
        assert !SkipFaithful(g, u);
      }
    }
  }

  // ---- A group root that no entry selects ----

  predicate Untouched(g: Graph, s: State, r: nat) {
    && r < |s.rows| == |s.cells| && s.rows[r].Idle? && s.cells[r].marker.Unset?
    && ExecTask(r) !in s.log && SkipTask(r) !in s.log && !s.exec.Succeeded?
  }

  lemma StepUntouched(cfg: Config, s: State, a: Action, r: nat)
    requires Valid(cfg) && Inv(cfg, s) && Root(cfg.g, r) && Untouched(cfg.g, s, r)
    ensures Untouched(cfg.g, Step(cfg, s, a), r)
  {
    var s' := Step(cfg, s, a);
    if s' == s {
    } else if a.HandleAdvance? {
      SettleUntouched(cfg.g, s, a.unit, s.rows[a.unit].how, s.rows[a.unit].fired, r);
    } else if a.Commit? {
      TerminalizeUntouched(cfg, s, a.unit, a.how, a.fired, a.fatal, r);
    } else if a.ServeDisabled? || a.ServePinned? {
      var how := if a.ServeDisabled? then Disabled else Pinned;
      TerminalizeUntouched(cfg, s, a.unit, how, MainPort(cfg.g, a.unit), false, r);
    } else if a.HandleSkip? || a.HandleMergeCancel? {
      TerminalizeUntouched(cfg, s, a.unit, if a.HandleSkip? then Skipped else Canceled, {}, false, r);
    }
  }

  lemma SettleUntouched(g: Graph, s: State, u: nat, how: How, fired: set<Port>, r: nat)
    requires WellFormed(g) && |s.cells| == Size(g) && u < Size(g) && u != r && Root(g, r) && Untouched(g, s, r)
    ensures Untouched(g, Settle(s, u, Arrivals(g, u, how, fired)), r)
  {
    RootUntouched(g, u, how, fired, r);
  }

  lemma TerminalizeUntouched(cfg: Config, s: State, u: nat, how: How, fired: set<Port>, fatal: bool, r: nat)
    requires Valid(cfg) && Inv(cfg, s) && Root(cfg.g, r) && Untouched(cfg.g, s, r)
    requires u < Size(cfg.g) && u != r && !s.rows[u].Done?
    ensures Untouched(cfg.g, Terminalize(cfg, s, u, how, fired, fatal), r)
  {
    var left := LeftUnits(s);
    assert {u, r} <= left;
    Subset({u, r}, left);
    var landed := Land(cfg, s, u, how, fired, fatal);
    LandUntouched(cfg, s, u, how, fired, fatal, r);
    var s' := Terminalize(cfg, s, u, how, fired, fatal);
    if s' == landed {
    } else if s' == Write(landed, AdvanceTask(u)) {
    } else {
      SettleUntouched(cfg.g, landed, u, how, fired, r);
    }
  }

  lemma LandUntouched(cfg: Config, s: State, u: nat, how: How, fired: set<Port>, fatal: bool, r: nat)
    requires Untouched(cfg.g, s, r) && u < |s.rows| && u != r && s.remaining > 1
    ensures Untouched(cfg.g, Land(cfg, s, u, how, fired, fatal), r)
  {
  }

  /** If an unselected root is a group, no run ever succeeds: the unit is never
      scheduled, so the remaining-unit counter cannot reach zero. */
  lemma UnselectedGroupRootNeverSucceeds(cfg: Config, entries: set<nat>, actions: seq<Action>, r: nat)
    requires Valid(cfg) && Entries(cfg, entries)
    requires r < Size(cfg.g) && Root(cfg.g, r) && r !in entries && cfg.g.kinds[r].GroupUnit?
    ensures var s := Run(cfg, Init(cfg, entries), actions);
      s.rows[r].Idle? && !s.exec.Succeeded?
  {
    InitKeeps(cfg, entries);
    RunUntouched(cfg, Init(cfg, entries), actions, r);
  }

  lemma {:induction false} RunUntouched(cfg: Config, s: State, actions: seq<Action>, r: nat)
    requires Valid(cfg) && Inv(cfg, s) && Root(cfg.g, r) && Untouched(cfg.g, s, r)
    ensures Untouched(cfg.g, Run(cfg, s, actions), r)
    decreases |actions|
  {
    if actions != [] {
      StepKeeps(cfg, s, actions[0]);
      StepUntouched(cfg, s, actions[0], r);
      RunUntouched(cfg, Step(cfg, s, actions[0]), actions[1..], r);
    }
  }
}
