/** Deleting a transient output as soon as its only consumer has committed. */
module Reclaim {
  import opened Common
  import opened Units
  import opened Store
  import opened Runs
  import opened Schedule
  import opened Safety
  import opened Canonical
  import opened Topology

  /** Per node: the nodes its expressions name, whether it also computes names, and the
      same for the body it may carry. */
  datatype Refs = Refs(named: seq<set<nat>>, computed: seq<bool>, body: seq<set<nat>>, bodyComputed: seq<bool>)

  predicate RefsOk(t: Nodes, refs: Refs) {
    |refs.named| == |refs.computed| == |refs.body| == |refs.bodyComputed| == |t.unitOf|
  }

  /** Node `n` may read the output of `src` when it runs: through an in-edge, a named or
      computed reference, or an outer reference of its body. */
  predicate Reads(t: Nodes, refs: Refs, n: nat, src: nat)
    requires RefsOk(t, refs) && n < |t.unitOf|
  {
    || (exists e | e in t.edges :: e.src == src && e.dst == n)
    || refs.computed[n] || refs.bodyComputed[n] || src in refs.body[n] || src in refs.named[n]
  }

  /** The planner's criterion: a node unit fed by a single exit node of a group, which
      feeds nothing else, and no reference to it outside the group and the consumer. */
  predicate Reclaimable(t: Nodes, refs: Refs, transient: bool, n: nat, src: nat)
    requires NodesOk(t) && RefsOk(t, refs) && n < |t.unitOf| && src < |t.unitOf|
  {
    && transient && t.kinds[t.unitOf[n]].NodeUnit? && t.kinds[t.unitOf[src]].GroupUnit?
    && (exists i | 0 <= i < |t.edges| :: t.edges[i].dst == n)
    && (forall i | 0 <= i < |t.edges| && t.edges[i].dst == n :: t.edges[i].src == src)
    && |OutOf(t, src)| == 1
    && (forall m: nat | m < |t.unitOf| && m != n && t.unitOf[m] != t.unitOf[src] ::
          !refs.computed[m] && !refs.bodyComputed[m] && src !in refs.body[m] && src !in refs.named[m])
  }

  function OutOf(t: Nodes, src: nat): set<nat> {
    set i | 0 <= i < |t.edges| && t.edges[i].src == src
  }

  method HasExternalReference(t: Nodes, refs: Refs, src: nat, consumer: nat) returns (found: bool)
    requires NodesOk(t) && RefsOk(t, refs) && src < |t.unitOf| && consumer < |t.unitOf|
    ensures !found <==> forall m: nat | m < |t.unitOf| && m != consumer && t.unitOf[m] != t.unitOf[src] ::
      !refs.computed[m] && !refs.bodyComputed[m] && src !in refs.body[m] && src !in refs.named[m]
  {
    for m := 0 to |t.unitOf|
      invariant forall k: nat | k < m && k != consumer && t.unitOf[k] != t.unitOf[src] ::
        !refs.computed[k] && !refs.bodyComputed[k] && src !in refs.body[k] && src !in refs.named[k]
    {
      if m == consumer || t.unitOf[m] == t.unitOf[src] { continue; }
      if refs.computed[m] || refs.bodyComputed[m] { return true; }
      if src in refs.body[m] || src in refs.named[m] { return true; }
    }
    return false;
  }

  method ReclaimForCommit(t: Nodes, refs: Refs, transient: bool, n: nat) returns (r: Option<nat>)
    requires NodesOk(t) && RefsOk(t, refs) && n < |t.unitOf|
    ensures r.Some? ==> r.value < |t.unitOf| && Reclaimable(t, refs, transient, n, r.value)
    ensures r.None? ==> forall src: nat | src < |t.unitOf| :: !Reclaimable(t, refs, transient, n, src)
  {
    if !transient || t.kinds[t.unitOf[n]].GroupUnit? { return None; }
    var source: Option<nat> := None;
    for i := 0 to |t.edges|
      invariant source.None? ==> forall k | 0 <= k < i :: t.edges[k].dst != n
      invariant source.Some? ==>
        && source.value < |t.unitOf| && t.kinds[t.unitOf[source.value]].GroupUnit?
        && (exists k | 0 <= k < i :: t.edges[k].dst == n)
        && (forall k | 0 <= k < i && t.edges[k].dst == n :: t.edges[k].src == source.value)
    {
      var e := t.edges[i];
      assert EdgeOk(t, e);
      if e.dst != n { continue; }
      if t.kinds[t.unitOf[e.src]].NodeUnit? { return None; }
      if source.Some? && source.value != e.src { return None; }
      source := Some(e.src);
    }
    if source.None? || |OutOf(t, source.value)| != 1 { return None; }
    var external := HasExternalReference(t, refs, source.value, n);
    if external { return None; }
    return source;
  }

  /** Once the output is deleted, no node outside the producing group and the committing
      consumer reads it through any route. */
  lemma DeletedOutputUnread(t: Nodes, refs: Refs, transient: bool, n: nat, src: nat, m: nat)
    requires NodesOk(t) && RefsOk(t, refs) && n < |t.unitOf| && src < |t.unitOf| && m < |t.unitOf|
    requires Reclaimable(t, refs, transient, n, src) && m != n && t.unitOf[m] != t.unitOf[src]
    ensures !Reads(t, refs, m, src)
  {
    var k :| 0 <= k < |t.edges| && t.edges[k].dst == n;
    assert t.edges[k].src == src;
    if i :| 0 <= i < |t.edges| && t.edges[i].src == src && t.edges[i].dst == m {
      Subset({i, k}, OutOf(t, src));
    }
  }

  /** Every node edge into the consumer is a unit edge from the producing group. */
  lemma {:induction false} OnlyFromSource(t: Nodes, n: nat, src: nat, upto: nat, i: nat)
    requires NodesOk(t) && n < |t.unitOf| && t.kinds[t.unitOf[n]].NodeUnit? && src < |t.unitOf| && upto <= |t.edges|
    requires forall k | 0 <= k < |t.edges| && t.edges[k].dst == n :: t.edges[k].src == src
    requires i < |CrossEdges(t, upto)| && CrossEdges(t, upto)[i].dst == t.unitOf[n]
    ensures CrossEdges(t, upto)[i].src == t.unitOf[src]
  {
    var e := t.edges[upto - 1];
    assert EdgeOk(t, e);
    if i < |CrossEdges(t, upto - 1)| { OnlyFromSource(t, n, src, upto - 1, i); }
  }

  /** Another group names the consumer as its error output. */
  predicate ForeignErrorAt(t: Nodes, n: nat, src: nat, k: nat)
    requires NodesOk(t) && n < |t.unitOf| && src < |t.unitOf| && k < |t.errors|
  {
    t.unitOf[t.errors[k].dst] == t.unitOf[n] && t.errors[k].group != t.unitOf[src]
  }

  lemma {:induction false} ErrorSource(t: Nodes, upto: nat, i: nat) returns (k: nat)
    requires NodesOk(t) && upto <= |t.errors| && i < |ErrorEdges(t, upto)|
    ensures k < upto && ErrorEdges(t, upto)[i] == Edge(t.errors[k].group, t.unitOf[t.errors[k].dst], ErrorExit)
  {
    if i < |ErrorEdges(t, upto - 1)| { k := ErrorSource(t, upto - 1, i); } else { k := upto - 1; }
  }

  lemma {:induction false} ErrorIndex(t: Nodes, upto: nat, k: nat)
    requires NodesOk(t) && k < upto <= |t.errors|
    ensures k < |ErrorEdges(t, upto)|
    ensures ErrorEdges(t, upto)[k] == Edge(t.errors[k].group, t.unitOf[t.errors[k].dst], ErrorExit)
    ensures |ErrorEdges(t, upto)| == upto
  {
    if upto > 1 { ErrorIndex(t, upto - 1, if k < upto - 1 then k else 0); }
  }

  /** An edge into the consumer that is not the producer's is such an error output. */
  lemma ForeignSource(t: Nodes, n: nat, src: nat, i: nat) returns (k: nat)
    requires NodesOk(t) && n < |t.unitOf| && t.kinds[t.unitOf[n]].NodeUnit? && src < |t.unitOf|
    requires forall k | 0 <= k < |t.edges| && t.edges[k].dst == n :: t.edges[k].src == src
    requires i < |Compile(t).edges| && Compile(t).edges[i].dst == t.unitOf[n]
    requires Compile(t).edges[i].src != t.unitOf[src]
    ensures k < |t.errors| && ForeignErrorAt(t, n, src, k) && Compile(t).edges[i].src == t.errors[k].group
  {
    var cross := CrossEdges(t, |t.edges|);
    if i < |cross| {
      assert Compile(t).edges[i] == cross[i];
      OnlyFromSource(t, n, src, |t.edges|, i);
    } else {
      assert Compile(t).edges[i] == ErrorEdges(t, |t.errors|)[i - |cross|];
      k := ErrorSource(t, |t.errors|, i - |cross|);
    }
  }

  /** A node edge between two units appears among the unit edges. */
  lemma {:induction false} CrossIndex(t: Nodes, k: nat, upto: nat) returns (j: nat)
    requires NodesOk(t) && k < upto <= |t.edges| && t.unitOf[t.edges[k].src] != t.unitOf[t.edges[k].dst]
    ensures j < |CrossEdges(t, upto)| && CrossEdges(t, upto)[j].dst == t.unitOf[t.edges[k].dst]
    ensures CrossEdges(t, upto)[j].src == t.unitOf[t.edges[k].src]
  {
    if k == upto - 1 { j := |CrossEdges(t, upto - 1)|; } else { j := CrossIndex(t, k, upto - 1); }
  }

  /** The producer has an edge to the consumer. */
  lemma ProducerEdge(t: Nodes, refs: Refs, n: nat, src: nat) returns (j: nat)
    requires NodesOk(t) && RefsOk(t, refs) && n < |t.unitOf| && src < |t.unitOf| && Reclaimable(t, refs, true, n, src)
    ensures j in Between(Compile(t), t.unitOf[src], t.unitOf[n])
  {
    var k :| 0 <= k < |t.edges| && t.edges[k].dst == n;
    j := CrossIndex(t, k, |t.edges|);
    assert Compile(t).edges[j] == CrossEdges(t, |t.edges|)[j];
  }

  // ---- An error output of another group ----

  /** The consumer has been started and the producer has not ended. */
  ghost predicate StartedEarly(cfg: Config, entries: set<nat>, actions: seq<Action>, consumer: nat, producer: nat)
    requires Valid(cfg) && consumer < Size(cfg.g) && producer < Size(cfg.g)
  {
    var s := Run(cfg, Init(cfg, entries), actions);
    ExecTask(consumer) in s.log && !s.rows[producer].Done?
  }

  ghost predicate CommittedEarly(cfg: Config, entries: set<nat>, actions: seq<Action>, consumer: nat, producer: nat)
    requires Valid(cfg) && consumer < Size(cfg.g) && producer < Size(cfg.g)
  {
    var s := Run(cfg, Init(cfg, entries), actions);
    s.rows[consumer].Done? && s.rows[consumer].how.Success? && !s.rows[producer].Done?
  }

  /** The group has been started and neither it nor the two others have ended; only the
      in-memory store still applies a group's arrivals during a cancel. */
  predicate MayFail(cfg: Config, s: State, q: nat, consumer: nat, producer: nat)
    requires q < |s.rows| && consumer < |s.rows| && producer < |s.rows|
  {
    && ExecTask(q) in s.log && (s.exec.Running? || (s.exec.Canceling? && cfg.backend.Memory?))
    && !s.rows[q].Done? && !s.rows[consumer].Done? && !s.rows[producer].Done?
  }

  /** Some run starts that other group while the producing one has not ended. */
  ghost predicate ForeignStarts(t: Nodes, cfg: Config, entries: set<nat>, n: nat, src: nat, k: nat)
    requires NodesOk(t) && n < |t.unitOf| && src < |t.unitOf| && k < |t.errors| && cfg.g == Compile(t) && Valid(cfg)
  {
    && ForeignErrorAt(t, n, src, k)
    && var q, consumer, producer := t.errors[k].group, t.unitOf[n], t.unitOf[src];
       exists history :: MayFail(cfg, Run(cfg, Init(cfg, entries), history), q, consumer, producer)
  }

  ghost predicate SomeForeignStarts(t: Nodes, cfg: Config, entries: set<nat>, n: nat, src: nat)
    requires NodesOk(t) && n < |t.unitOf| && src < |t.unitOf| && cfg.g == Compile(t) && Valid(cfg)
  {
    exists k: nat | k < |t.errors| :: ForeignStarts(t, cfg, entries, n, src, k)
  }

  /** A started unit can be held: it is leased, or already was. */
  lemma Hold(cfg: Config, entries: set<nat>, history: seq<Action>, u: nat) returns (held: seq<Action>, token: nat)
    requires Valid(cfg) && Entries(cfg, entries) && u < Size(cfg.g)
    requires var s := Run(cfg, Init(cfg, entries), history);
      ExecTask(u) in s.log && Active(s.exec) && !s.rows[u].Done?
    ensures var s, s' := Run(cfg, Init(cfg, entries), history), Run(cfg, Init(cfg, entries), held);
      Holds(s', u, token) && s' == s.(rows := s.rows[u := Leased(token, s'.rows[u].waiting)])
  {
    var s := Run(cfg, Init(cfg, entries), history);
    if s.rows[u].Leased? {
      held, token := history, s.rows[u].token;
    } else {
      held, token := history + [Lease(u, 0)], 0;
      RunOne(cfg, Init(cfg, entries), history, Lease(u, 0));
    }
  }

  lemma CommitRows(cfg: Config, s: State, u: nat, token: nat, fired: set<Port>)
    requires Fits(cfg, s) && Active(s.exec) && Holds(s, u, token)
    ensures Step(cfg, s, Commit(u, token, Success, fired, false, false)).rows == s.rows[u := Done(Success, fired)]
  {
    CommitTerminalizes(cfg, s, u, token, fired);
  }

  lemma ThreeLeft(cfg: Config, s: State, a: nat, b: nat, c: nat)
    requires Inv(cfg, s) && {a, b, c} <= LeftUnits(s) && a != b && a != c && b != c
    ensures s.remaining >= 3
  {
    Subset({a, b, c}, LeftUnits(s));
  }

  /** A group whose failure is routed to its error output commits as a success on that
      output, and its arrivals are applied with the commit. */
  lemma GroupFails(cfg: Config, s: State, q: nat, token: nat)
    requires Fits(cfg, s) && Holds(s, q, token) && cfg.g.kinds[q].GroupUnit? && s.remaining > 1
    requires s.exec.Running? || (s.exec.Canceling? && cfg.backend.Memory?)
    ensures var s' := Step(cfg, s, Commit(q, token, Success, {ErrorExit}, false, false));
      q in s'.settled && s'.exec == s.exec && s'.rows == s.rows[q := Done(Success, {ErrorExit})]
  {
    CommitTerminalizes(cfg, s, q, token, {ErrorExit});
  }

  /** That starts a unit behind the error output that waits for any input. */
  lemma FailureStarts(cfg: Config, entries: set<nat>, s: State, q: nat, u: nat, i: nat)
    requires Valid(cfg) && Inv(cfg, s) && CanonicalState(cfg, entries, s) && u < Size(cfg.g)
    requires cfg.g.unitModes[u].WaitAny? && i in BetweenOn(cfg.g, q, u, {ErrorExit})
    requires q in s.settled && q < Size(cfg.g) && s.rows[q] == Done(Success, {ErrorExit})
    ensures ExecTask(u) in s.log
  {
    assert i in Into(cfg.g, u) && i in Live(cfg.g, s.settled, FiredBy(s), u);
    assert Tallied(cfg.g, s, u) && UnitOk(cfg.g, s, u);
    OneModeDecides(cfg, entries, s, u);
  }

  lemma RunFails(cfg: Config, entries: set<nat>, history: seq<Action>, p: nat, q: nat, u: nat, i: nat)
    returns (failed: seq<Action>)
    requires Valid(cfg) && Entries(cfg, entries) && p < Size(cfg.g) && q < Size(cfg.g) && u < Size(cfg.g)
    requires p != q && p != u && q != u && cfg.g.kinds[q].GroupUnit? && cfg.g.unitModes[u].WaitAny?
    requires i in BetweenOn(cfg.g, q, u, {ErrorExit})
    requires MayFail(cfg, Run(cfg, Init(cfg, entries), history), q, u, p)
    ensures var s := Run(cfg, Init(cfg, entries), failed);
      ExecTask(u) in s.log && Active(s.exec) && !s.rows[u].Done? && !s.rows[p].Done?
  {
    var held, token := Hold(cfg, entries, history, q);
    var s := Run(cfg, Init(cfg, entries), held);
    RunFacts(cfg, entries, held);
    ThreeLeft(cfg, s, p, q, u);
    GroupFails(cfg, s, q, token);
    var commit := Commit(q, token, Success, {ErrorExit}, false, false);
    failed := held + [commit];
    RunOne(cfg, Init(cfg, entries), held, commit);
    RunFacts(cfg, entries, failed);
    FailureStarts(cfg, entries, Run(cfg, Init(cfg, entries), failed), q, u, i);
  }

  lemma StartedCommits(cfg: Config, entries: set<nat>, history: seq<Action>, u: nat, p: nat)
    returns (actions: seq<Action>)
    requires Valid(cfg) && Entries(cfg, entries) && p < Size(cfg.g) && u < Size(cfg.g) && p != u
    requires var s := Run(cfg, Init(cfg, entries), history);
      ExecTask(u) in s.log && Active(s.exec) && !s.rows[u].Done? && !s.rows[p].Done?
    ensures CommittedEarly(cfg, entries, actions, u, p)
  {
    var held, token := Hold(cfg, entries, history, u);
    var commit := Commit(u, token, Success, {}, false, false);
    CommitRows(cfg, Run(cfg, Init(cfg, entries), held), u, token, {});
    RunOne(cfg, Init(cfg, entries), held, commit);
    actions := held + [commit];
  }

  lemma ErrorEdgeAt(t: Nodes, k: nat) returns (i: nat)
    requires NodesOk(t) && k < |t.errors|
    ensures i in BetweenOn(Compile(t), t.errors[k].group, t.unitOf[t.errors[k].dst], {ErrorExit})
  {
    ErrorIndex(t, |t.errors|, k);
    i := |CrossEdges(t, |t.edges|)| + k;
    assert Compile(t).edges[i] == ErrorEdges(t, |t.errors|)[k];
  }

  /** The failure of the other group starts a consumer that waits for any input. */
  lemma EarlyCommit(t: Nodes, refs: Refs, cfg: Config, entries: set<nat>, n: nat, src: nat, k: nat)
    returns (actions: seq<Action>)
    requires NodesOk(t) && RefsOk(t, refs) && n < |t.unitOf| && src < |t.unitOf| && cfg.g == Compile(t)
    requires Valid(cfg) && Entries(cfg, entries) && Reclaimable(t, refs, true, n, src)
    requires k < |t.errors| && ForeignStarts(t, cfg, entries, n, src, k) && t.modes[n].WaitAny?
    ensures CommittedEarly(cfg, entries, actions, t.unitOf[n], t.unitOf[src])
  {
    var u, p, q := t.unitOf[n], t.unitOf[src], t.errors[k].group;
    var history :| MayFail(cfg, Run(cfg, Init(cfg, entries), history), q, u, p);
    var i := ErrorEdgeAt(t, k);
    var failed := RunFails(cfg, entries, history, p, q, u, i);
    actions := StartedCommits(cfg, entries, failed, u, p);
  }

  /** The step of a run that starts a unit. */
  lemma {:induction false} FirstStart(cfg: Config, s: State, actions: seq<Action>, u: nat) returns (k: nat)
    requires Fits(cfg, s) && ExecTask(u) !in s.log && ExecTask(u) in Run(cfg, s, actions).log
    ensures k < |actions| && ExecTask(u) !in Run(cfg, s, actions[..k]).log
    ensures ExecTask(u) in Step(cfg, Run(cfg, s, actions[..k]), actions[k]).log
    ensures Run(cfg, s, actions) == Run(cfg, Step(cfg, Run(cfg, s, actions[..k]), actions[k]), actions[k + 1..])
    decreases |actions|
  {
    if ExecTask(u) in Step(cfg, s, actions[0]).log {
      k := 0;
      assert actions[..0] == [];
    } else {
      var j := FirstStart(cfg, Step(cfg, s, actions[0]), actions[1..], u);
      k := j + 1;
      assert actions[1..][..j] == actions[..k][1..] && actions[..k][0] == actions[0];
      assert actions[1..][j + 1..] == actions[k + 1..];
    }
  }

  /** A unit that waits for any input is started by the step that applies the first firing
      arrival; if that comes from a group, the step is the group's commit. */
  lemma StartedByCommit(cfg: Config, entries: set<nat>, s: State, a: Action, u: nat) returns (i: nat)
    requires Valid(cfg) && Inv(cfg, s) && CanonicalState(cfg, entries, s) && u < Size(cfg.g) && !Root(cfg.g, u)
    requires cfg.g.unitModes[u].WaitAny? && ExecTask(u) !in s.log && ExecTask(u) in Step(cfg, s, a).log
    ensures i in Into(cfg.g, u) && cfg.g.edges[i].src < Size(cfg.g) && cfg.g.edges[i].src in Step(cfg, s, a).settled
    ensures Step(cfg, s, a).rows[cfg.g.edges[i].src].Done?
    ensures var q := cfg.g.edges[i].src;
      cfg.g.kinds[q].GroupUnit? ==>
        && ExecTask(q) in s.log && !s.rows[q].Done?
        && (s.exec.Running? || (s.exec.Canceling? && cfg.backend.Memory?))
  {
    var g, s' := cfg.g, Step(cfg, s, a);
    StepKeeps(cfg, s, a);
    assert UnitOk(g, s', u) && Tallied(g, s', u) && Decided(g, s', u);
    i :| i in Live(g, s'.settled, FiredBy(s'), u);
    var q := g.edges[i].src;
    NotYetFed(cfg, entries, s, u);
    if g.kinds[q].GroupUnit? { GroupSettles(cfg, s, a, u, i); }
  }

  lemma NotYetFed(cfg: Config, entries: set<nat>, s: State, u: nat)
    requires Valid(cfg) && Inv(cfg, s) && CanonicalState(cfg, entries, s) && u < Size(cfg.g) && !Root(cfg.g, u)
    requires cfg.g.unitModes[u].WaitAny? && ExecTask(u) !in s.log
    ensures Live(cfg.g, s.settled, FiredBy(s), u) == {}
  {
    assert UnitOk(cfg.g, s, u) && Tallied(cfg.g, s, u);
    OneModeDecides(cfg, entries, s, u);
  }

  /** A group that fires is settled by its own commit. */
  lemma GroupSettles(cfg: Config, s: State, a: Action, u: nat, i: nat)
    requires Valid(cfg) && Inv(cfg, s) && Inv(cfg, Step(cfg, s, a)) && Live(cfg.g, s.settled, FiredBy(s), u) == {}
    requires i in Live(cfg.g, Step(cfg, s, a).settled, FiredBy(Step(cfg, s, a)), u)
    requires cfg.g.kinds[cfg.g.edges[i].src].GroupUnit?
    ensures var q := cfg.g.edges[i].src;
      && ExecTask(q) in s.log && !s.rows[q].Done?
      && (s.exec.Running? || (s.exec.Canceling? && cfg.backend.Memory?))
  {
    var q, s' := cfg.g.edges[i].src, Step(cfg, s, a);
    assert UnitOk(cfg.g, s, q) && UnitOk(cfg.g, s', q) && q in DoneUnits(s');
    if q in s.settled { LiveBefore(cfg, s, a, u, i); }
    GroupSettledBy(cfg, s, a, q);
  }

  lemma GroupSettledBy(cfg: Config, s: State, a: Action, q: nat)
    requires Inv(cfg, s) && q < Size(cfg.g) && cfg.g.kinds[q].GroupUnit? && q !in s.settled
    requires q in Step(cfg, s, a).settled && Step(cfg, s, a).rows[q].Done? && !Step(cfg, s, a).rows[q].how.Skipped?
    ensures ExecTask(q) in s.log && !s.rows[q].Done?
    ensures s.exec.Running? || (s.exec.Canceling? && cfg.backend.Memory?)
  {
    assert UnitOk(cfg.g, s, q);
  }

  lemma LiveBefore(cfg: Config, s: State, a: Action, u: nat, i: nat)
    requires Inv(cfg, s) && Inv(cfg, Step(cfg, s, a))
    requires i in Live(cfg.g, Step(cfg, s, a).settled, FiredBy(Step(cfg, s, a)), u)
    requires cfg.g.edges[i].src in s.settled
    ensures i in Live(cfg.g, s.settled, FiredBy(s), u)
  {
    assert cfg.g.edges[i].src in DoneUnits(s);
    StepGrows(cfg, s, a);
  }

  lemma NotDoneBefore(cfg: Config, s: State, a: Action, rest: seq<Action>, p: nat)
    requires Valid(cfg) && Inv(cfg, s) && p < Size(cfg.g) && !Run(cfg, Step(cfg, s, a), rest).rows[p].Done?
    ensures !s.rows[p].Done? && !Step(cfg, s, a).rows[p].Done?
  {
    StepKeeps(cfg, s, a);
    StepGrows(cfg, s, a);
    RunGrows(cfg, Step(cfg, s, a), rest);
  }

  /** What starts a unit that waits for any input before `p` has ended. */
  lemma StartMayFail(cfg: Config, entries: set<nat>, s: State, a: Action, rest: seq<Action>, u: nat, p: nat)
    returns (i: nat)
    requires Valid(cfg) && Inv(cfg, s) && CanonicalState(cfg, entries, s) && u < Size(cfg.g) && p < Size(cfg.g)
    requires !Root(cfg.g, u) && cfg.g.unitModes[u].WaitAny? && !Run(cfg, Step(cfg, s, a), rest).rows[p].Done?
    requires ExecTask(u) !in s.log && ExecTask(u) in Step(cfg, s, a).log
    ensures i in Into(cfg.g, u) && cfg.g.edges[i].src < Size(cfg.g) && cfg.g.edges[i].src != p
    ensures cfg.g.kinds[cfg.g.edges[i].src].GroupUnit? ==> MayFail(cfg, s, cfg.g.edges[i].src, u, p)
  {
    i := StartedByCommit(cfg, entries, s, a, u);
    NotDoneBefore(cfg, s, a, rest, p);
    UnfedNotDone(cfg, s, a, u);
  }

  lemma UnfedNotDone(cfg: Config, s: State, a: Action, u: nat)
    requires Valid(cfg) && Inv(cfg, s) && u < Size(cfg.g) && !Root(cfg.g, u)
    requires ExecTask(u) !in s.log && ExecTask(u) in Step(cfg, s, a).log
    ensures !s.rows[u].Done?
  {
    StepKeeps(cfg, s, a);
    assert UnitOk(cfg.g, s, u) && UnitOk(cfg.g, Step(cfg, s, a), u);
    StepGrows(cfg, s, a);
  }

  lemma NotStartedYet(cfg: Config, entries: set<nat>, u: nat)
    requires Entries(cfg, entries) && u < Size(cfg.g) && !Root(cfg.g, u)
    ensures ExecTask(u) !in Init(cfg, entries).log
  {
  }

  lemma EarlyHasSource(cfg: Config, entries: set<nat>, actions: seq<Action>, u: nat, p: nat)
    returns (history: seq<Action>, i: nat)
    requires Valid(cfg) && Entries(cfg, entries) && u < Size(cfg.g) && p < Size(cfg.g) && !Root(cfg.g, u)
    requires cfg.g.unitModes[u].WaitAny? && StartedEarly(cfg, entries, actions, u, p)
    ensures i in Into(cfg.g, u) && cfg.g.edges[i].src < Size(cfg.g) && cfg.g.edges[i].src != p
    ensures cfg.g.kinds[cfg.g.edges[i].src].GroupUnit? ==>
      MayFail(cfg, Run(cfg, Init(cfg, entries), history), cfg.g.edges[i].src, u, p)
  {
    NotStartedYet(cfg, entries, u);
    var at := FirstStart(cfg, Init(cfg, entries), actions, u);
    history := actions[..at];
    RunFacts(cfg, entries, history);
    i := StartMayFail(cfg, entries, Run(cfg, Init(cfg, entries), history), actions[at], actions[at + 1..], u, p);
  }

  /** Whatever starts the consumer before the producer has ended is another group that
      names it as its error output. */
  lemma EarlyHasForeign(t: Nodes, refs: Refs, cfg: Config, entries: set<nat>, n: nat, src: nat, actions: seq<Action>)
    returns (k: nat)
    requires NodesOk(t) && RefsOk(t, refs) && n < |t.unitOf| && src < |t.unitOf| && cfg.g == Compile(t)
    requires Valid(cfg) && Entries(cfg, entries) && Reclaimable(t, refs, true, n, src) && t.modes[n].WaitAny?
    requires StartedEarly(cfg, entries, actions, t.unitOf[n], t.unitOf[src])
    ensures k < |t.errors| && ForeignStarts(t, cfg, entries, n, src, k)
  {
    var j := ProducerEdge(t, refs, n, src);
    assert j in Into(cfg.g, t.unitOf[n]);
    var history, i := EarlyHasSource(cfg, entries, actions, t.unitOf[n], t.unitOf[src]);
    k := ForeignSource(t, n, src, i);
  }

  /** In every reachable state in which the consumer has been started, the producing group
      is terminal, unless the consumer waits for any input and another group that names it
      as its error output can be started before. */
  lemma ProducerIsDone(t: Nodes, refs: Refs, cfg: Config, entries: set<nat>, actions: seq<Action>, n: nat, src: nat)
    requires NodesOk(t) && RefsOk(t, refs) && n < |t.unitOf| && src < |t.unitOf| && cfg.g == Compile(t)
    requires Valid(cfg) && Entries(cfg, entries) && Reclaimable(t, refs, true, n, src)
    requires t.modes[n].WaitAll? || !SomeForeignStarts(t, cfg, entries, n, src)
    ensures !StartedEarly(cfg, entries, actions, t.unitOf[n], t.unitOf[src])
  {
    if StartedEarly(cfg, entries, actions, t.unitOf[n], t.unitOf[src]) {
      if t.modes[n].WaitAll? {
        AllClosed(t, refs, cfg, entries, actions, n, src);
      } else {
        var k := EarlyHasForeign(t, refs, cfg, entries, n, src, actions);
      }
    }
  }

  /** A consumer that waits for all its inputs is started after the producer has ended. */
  lemma AllClosed(t: Nodes, refs: Refs, cfg: Config, entries: set<nat>, actions: seq<Action>, n: nat, src: nat)
    requires NodesOk(t) && RefsOk(t, refs) && n < |t.unitOf| && src < |t.unitOf| && cfg.g == Compile(t)
    requires Valid(cfg) && Entries(cfg, entries) && Reclaimable(t, refs, true, n, src) && t.modes[n].WaitAll?
    ensures !StartedEarly(cfg, entries, actions, t.unitOf[n], t.unitOf[src])
  {
    var g, u, s := cfg.g, t.unitOf[n], Run(cfg, Init(cfg, entries), actions);
    RunFacts(cfg, entries, actions);
    var j := ProducerEdge(t, refs, n, src);
    assert j in Into(g, u);
    assert UnitOk(g, s, u) && g.modes[u] == t.modes[n];
    if ExecTask(u) in s.log {
      OneModeDecides(cfg, entries, s, u);
      assert j !in Open(g, s.settled, u);
    }
  }

  /** Once the consumer has been committed and the output deleted, no node that can still
      run reads it, in any reachable state. */
  lemma NothingReadsDeleted(t: Nodes, refs: Refs, cfg: Config, entries: set<nat>, actions: seq<Action>, n: nat,
                            src: nat, m: nat)
    requires NodesOk(t) && RefsOk(t, refs) && n < |t.unitOf| && src < |t.unitOf| && m < |t.unitOf|
    requires cfg.g == Compile(t)
    requires Valid(cfg) && Entries(cfg, entries) && Reclaimable(t, refs, true, n, src)
    requires t.modes[n].WaitAll? || !SomeForeignStarts(t, cfg, entries, n, src)
    ensures var s := Run(cfg, Init(cfg, entries), actions);
      s.rows[t.unitOf[n]].Done? && !s.rows[t.unitOf[n]].how.Skipped? && !s.rows[t.unitOf[m]].Done? ==>
        !Reads(t, refs, m, src)
  {
    var s := Run(cfg, Init(cfg, entries), actions);
    RunFacts(cfg, entries, actions);
    assert UnitOk(cfg.g, s, t.unitOf[n]);
    ProducerIsDone(t, refs, cfg, entries, actions, n, src);
    if s.rows[t.unitOf[n]].Done? && !s.rows[t.unitOf[n]].how.Skipped? && !s.rows[t.unitOf[m]].Done? {
      DeletedOutputUnread(t, refs, true, n, src, m);
    }
  }

  /** Some run commits the consumer before the producing group has ended if and only if the
      consumer waits for any input and another group that names it as its error output can
      be started while the producing group has not ended. */
  lemma EarlyIffForeignStarts(t: Nodes, refs: Refs, cfg: Config, entries: set<nat>, n: nat, src: nat)
    requires NodesOk(t) && RefsOk(t, refs) && n < |t.unitOf| && src < |t.unitOf| && cfg.g == Compile(t)
    requires Valid(cfg) && Entries(cfg, entries) && Reclaimable(t, refs, true, n, src)
    ensures (exists actions :: CommittedEarly(cfg, entries, actions, t.unitOf[n], t.unitOf[src])) <==>
      t.modes[n].WaitAny? && SomeForeignStarts(t, cfg, entries, n, src)
  {
    if actions :| CommittedEarly(cfg, entries, actions, t.unitOf[n], t.unitOf[src]) {
      RunFacts(cfg, entries, actions);
      assert UnitOk(cfg.g, Run(cfg, Init(cfg, entries), actions), t.unitOf[n]);
      if t.modes[n].WaitAll? || !SomeForeignStarts(t, cfg, entries, n, src) {
        ProducerIsDone(t, refs, cfg, entries, actions, n, src);
      }
    }
    if t.modes[n].WaitAny? && SomeForeignStarts(t, cfg, entries, n, src) {
      var k: nat :| k < |t.errors| && ForeignStarts(t, cfg, entries, n, src, k);
      var actions := EarlyCommit(t, refs, cfg, entries, n, src, k);
    }
  }
}
