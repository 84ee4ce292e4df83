/** The merge cancel: a wait_any merge that has fired retires the branches it no longer
    needs. */
module MergeCancels {
  import opened Units
  import opened Store
  import opened Runs
  import opened Schedule
  import opened Canonical

  /** Started, not ended, not waiting on children; a root that has not been leased yet is
      not touched, because its marker is never set. */
  predicate Retirable(s: State, u: nat)
    requires u < |s.rows| == |s.cells|
  {
    match s.rows[u]
    case Idle => s.cells[u].marker.Execute?
    case Parked => !s.cells[u].marker.Skip?
    case Leased(_, waiting) => !waiting && !s.cells[u].marker.Skip?
    case Done(_, _) => false
  }

  /** With the merge's intent written and the execution active, the cancel of a node unit
      ends it as canceled if and only if it is retirable, and changes nothing otherwise. */
  lemma RetiresIff(cfg: Config, s: State, m: nat, u: nat)
    requires Fits(cfg, s) && MergeCancelTask(m) in s.log && Active(s.exec) && u < Size(cfg.g)
    requires cfg.g.kinds[u].NodeUnit? && !s.rows[u].Done?
    ensures var s' := Step(cfg, s, HandleMergeCancel(m, u));
      && (s'.rows == s.rows[u := Done(Canceled, {})] <==> Retirable(s, u))
      && (!Retirable(s, u) ==> s' == s)
  {
  }

  /** In a reachable state that is a unit that was started and is neither ended nor waiting
      on children, except a root that nobody has leased. */
  lemma RetirableIffStarted(cfg: Config, s: State, u: nat)
    requires Inv(cfg, s) && u < Size(cfg.g)
    ensures Retirable(s, u) <==>
      && ExecTask(u) in s.log && !s.rows[u].Done? && !(s.rows[u].Leased? && s.rows[u].waiting)
      && !(s.rows[u].Idle? && Root(cfg.g, u) && !s.cells[u].marker.Execute?)
  {
    assert UnitOk(cfg.g, s, u);
  }

  /** On a folding store that goes on, a retired branch closes its edges without data: every
      successor's counter drops by the edges from it and its active count stays; it counts
      as ended and not as failed. */
  lemma RetiredClosesEdges(cfg: Config, s: State, m: nat, u: nat, v: nat)
    requires Valid(cfg) && Fits(cfg, s) && cfg.fold && s.exec.Running? && s.remaining > 1
    requires MergeCancelTask(m) in s.log && u < Size(cfg.g) && v < Size(cfg.g)
    requires cfg.g.kinds[u].NodeUnit? && Retirable(s, u)
    ensures var s' := Step(cfg, s, HandleMergeCancel(m, u));
      && s'.cells[v].inDegree == s.cells[v].inDegree - |Between(cfg.g, u, v)|
      && s'.cells[v].active == s.cells[v].active
      && s'.settled == s.settled + {u} && s'.remaining == s.remaining - 1 && s'.failed == s.failed
      && s'.exec.Running?
  {
    assert SkipFaithful(cfg.g, u);
  }

  // ---- Who writes the intent ----

  /** The commit of a merge that asks for it. */
  predicate AsksForCancel(cfg: Config, s: State, a: Action, m: nat) {
    && a.Commit? && a.unit == m && a.cancels && a.how.Success? && !a.fatal && cfg.fold
    && m < Size(cfg.g) == |s.rows| && cfg.g.kinds[m].NodeUnit? && Holds(s, m, a.token)
    && s.exec.Running? && s.remaining != 1
  }

  /** A step writes the intent if and only if it is a successful commit of that node, under
      its lease, that asks for it and does not end the execution. */
  lemma IntentIffAsked(cfg: Config, s: State, a: Action, m: nat)
    requires Fits(cfg, s) && MergeCancelTask(m) !in s.log
    ensures MergeCancelTask(m) in Step(cfg, s, a).log <==> AsksForCancel(cfg, s, a, m)
  {
    if a.Commit? {
      if a.unit < Size(cfg.g) { TerminalWritesNone(cfg, s, a.unit, a.how, a.fired, a.fatal, m); }
    } else if a.ServeDisabled? || a.ServePinned? {
      if a.unit < Size(cfg.g) {
        var how := if a.ServeDisabled? then Disabled else Pinned;
        TerminalWritesNone(cfg, s, a.unit, how, MainPort(cfg.g, a.unit), false, m);
      }
    } else if a.HandleSkip? || a.HandleMergeCancel? {
      if a.unit < Size(cfg.g) {
        TerminalWritesNone(cfg, s, a.unit, if a.HandleSkip? then Skipped else Canceled, {}, false, m);
      }
    }
  }

  lemma TerminalWritesNone(cfg: Config, s: State, u: nat, how: How, fired: set<Port>, fatal: bool, m: nat)
    requires Fits(cfg, s) && u < Size(cfg.g) && MergeCancelTask(m) !in s.log
    ensures MergeCancelTask(m) !in Terminalize(cfg, s, u, how, fired, fatal).log
  {
  }

  // ---- A run that retires a branch ----

  /** Leasing and committing a started unit on a folding store, with the merge's request. */
  lemma RunUnit(cfg: Config, s: State, u: nat, fired: set<Port>, cancels: bool)
    requires Fits(cfg, s) && cfg.fold && s.exec.Running? && s.remaining > 1
    requires u < Size(cfg.g) && s.rows[u].Idle? && ExecTask(u) in s.log
    ensures var s' := Run(cfg, s, [Lease(u, 0), Commit(u, 0, Success, fired, false, cancels)]);
      && s'.rows == s.rows[u := Done(Success, fired)] && s'.settled == s.settled + {u}
      && s'.exec.Running? && s'.remaining == s.remaining - 1 && s.log <= s'.log
      && (cancels && cfg.g.kinds[u].NodeUnit? ==> MergeCancelTask(u) in s'.log)
  {
    RunSteps(cfg, s, Lease(u, 0), Commit(u, 0, Success, fired, false, cancels));
    var leased := Step(cfg, s, Lease(u, 0));
    assert s.rows[u := Leased(0, false)][u := Done(Success, fired)] == s.rows[u := Done(Success, fired)];
  }

  lemma ThreeUnits(cfg: Config, entries: set<nat>, a: nat, b: nat, m: nat)
    requires Entries(cfg, entries) && a in entries && b in entries && a != b && m < Size(cfg.g) && !Root(cfg.g, m)
    ensures a != m && b != m && Size(cfg.g) >= 3
  {
  }

  /** A wait_any node fed by a settled entry has been started. */
  lemma FedStarts(cfg: Config, entries: set<nat>, s: State, a: nat, m: nat, i: nat)
    requires Valid(cfg) && Inv(cfg, s) && CanonicalState(cfg, entries, s) && a < Size(cfg.g) && m < Size(cfg.g)
    requires i in Between(cfg.g, a, m) && cfg.g.unitModes[m].WaitAny? && a in s.settled
    requires s.rows[a].Done? && cfg.g.edges[i].port in s.rows[a].fired
    ensures ExecTask(m) in s.log
  {
    assert i in Into(cfg.g, m) && i in Live(cfg.g, s.settled, FiredBy(s), m);
    assert Tallied(cfg.g, s, m) && UnitOk(cfg.g, s, m);
    OneModeDecides(cfg, entries, s, m);
  }

  /** An entry is leased and another one commits on the edge. */
  function Fed(cfg: Config, a: nat, b: nat, i: nat): seq<Action>
    requires i < |cfg.g.edges|
  {
    [Lease(b, 0)] + [Lease(a, 0), Commit(a, 0, Success, {cfg.g.edges[i].port}, false, false)]
  }

  lemma BranchHeld(cfg: Config, entries: set<nat>, b: nat)
    requires Valid(cfg) && Entries(cfg, entries) && b in entries
    ensures var s0 := Init(cfg, entries); Run(cfg, s0, [Lease(b, 0)]) == s0.(rows := s0.rows[b := Leased(0, false)])
  {
    RunSteps(cfg, Init(cfg, entries), Lease(b, 0), Lease(b, 0));
  }

  lemma MergeFed(cfg: Config, entries: set<nat>, a: nat, b: nat, m: nat, i: nat)
    requires Valid(cfg) && Entries(cfg, entries) && cfg.fold && a in entries && b in entries && a != b
    requires m < Size(cfg.g) && cfg.g.unitModes[m].WaitAny? && i in Between(cfg.g, a, m)
    ensures var s := Run(cfg, Init(cfg, entries), Fed(cfg, a, b, i));
      && a != m && b != m && s.exec.Running? && s.remaining > 1 && ExecTask(m) in s.log && s.rows[m].Idle?
      && s.rows[b] == Leased(0, false)
  {
    var s0 := Init(cfg, entries);
    assert i in Into(cfg.g, m);
    ThreeUnits(cfg, entries, a, b, m);
    BranchHeld(cfg, entries, b);
    var fired := {cfg.g.edges[i].port};
    var s1 := Run(cfg, s0, [Lease(b, 0)]);
    RunExtends(cfg, s0, [Lease(b, 0)], [Lease(a, 0), Commit(a, 0, Success, fired, false, false)]);
    RunUnit(cfg, s1, a, fired, false);
    RunFacts(cfg, entries, Fed(cfg, a, b, i));
    FedStarts(cfg, entries, Run(cfg, s0, Fed(cfg, a, b, i)), a, m, i);
  }

  lemma MergeFires(cfg: Config, entries: set<nat>, fed: seq<Action>, b: nat, m: nat) returns (actions: seq<Action>)
    requires Valid(cfg) && Entries(cfg, entries) && cfg.fold && b < Size(cfg.g) && b != m
    requires m < Size(cfg.g) && cfg.g.kinds[m].NodeUnit?
    requires var s := Run(cfg, Init(cfg, entries), fed);
      && s.exec.Running? && s.remaining > 1 && ExecTask(m) in s.log && s.rows[m].Idle? && s.rows[b] == Leased(0, false)
    ensures var s := Run(cfg, Init(cfg, entries), actions);
      && s.exec.Running? && MergeCancelTask(m) in s.log && s.rows[b] == Leased(0, false)
      && s.rows[m].Done? && s.rows[m].how.Success?
  {
    var merge := [Lease(m, 0), Commit(m, 0, Success, {}, false, true)];
    actions := fed + merge;
    RunExtends(cfg, Init(cfg, entries), fed, merge);
    RunUnit(cfg, Run(cfg, Init(cfg, entries), fed), m, {}, true);
  }

  /** For every wait_any merge fed by two entries there is a run in which one of them feeds
      it, it fires, and its intent then retires the other, which was at work. */
  lemma MergeRetiresBranch(cfg: Config, entries: set<nat>, a: nat, b: nat, m: nat, i: nat)
    returns (actions: seq<Action>)
    requires Valid(cfg) && Entries(cfg, entries) && cfg.fold && a in entries && b in entries && a != b
    requires cfg.g.kinds[b].NodeUnit? && m < Size(cfg.g) && cfg.g.kinds[m].NodeUnit? && cfg.g.modes[m].WaitAny?
    requires i in Between(cfg.g, a, m) && Between(cfg.g, b, m) != {}
    ensures var s := Run(cfg, Init(cfg, entries), actions);
      && s.exec.Running? && MergeCancelTask(m) in s.log && s.rows[b] == Leased(0, false)
      && s.rows[m].Done? && s.rows[m].how.Success?
      && Step(cfg, s, HandleMergeCancel(m, b)).rows[b] == Done(Canceled, {})
  {
    MergeFed(cfg, entries, a, b, m, i);
    actions := MergeFires(cfg, entries, Fed(cfg, a, b, i), b, m);
    var s := Run(cfg, Init(cfg, entries), actions);
    RunFacts(cfg, entries, actions);
    assert UnitOk(cfg.g, s, b);
    RetiresIff(cfg, s, m, b);
  }
}
