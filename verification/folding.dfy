/** A store that folds a commit's arrivals into the commit refines one that leaves an
    advance task for them. */
module Folding {
  import opened Units
  import opened Store
  import opened Schedule
  import opened Runs

  // ---- Folding refines advancing ----

  /** Equal up to the carriers' own tasks and the delivery bookkeeping. */
  predicate Same(s: State, t: State) {
    && t.cells == s.cells && t.rows == s.rows && t.settled == s.settled && t.order == s.order
    && t.remaining == s.remaining && t.failed == s.failed && t.exec == s.exec
    && (forall x :: x in s.log && !x.MergeCancelTask? ==> x in t.log && !x.AdvanceTask?)
    && (forall x :: x in t.log && !x.AdvanceTask? ==> x in s.log)
    && (s.exec.Running? ==> forall x :: x in t.log && x.AdvanceTask? ==> x.unit in s.settled)
  }

  /** What the advancing store does for one action of the folding store: a
      terminal commit of a live execution is followed by its advance. */
  function Carry(s: State, a: Action): seq<Action> {
    if a.HandleAdvance? then []
    else if s.exec.Running? && (a.Commit? || a.ServeDisabled? || a.ServePinned? || a.HandleSkip?)
    then [a, HandleAdvance(a.unit)] else [a]
  }

  function Advancing(cfg: Config): Config { cfg.(fold := false) }

  lemma SettleSame(s: State, t: State, u: nat, arr: seq<Arrival>)
    requires |arr| == |s.cells| && t.cells == s.cells && t.rows == s.rows && t.settled == s.settled
    requires t.order == s.order && t.remaining == s.remaining && t.failed == s.failed && t.exec == s.exec
    requires forall x :: x in s.log && !x.MergeCancelTask? ==> x in t.log && !x.AdvanceTask?
    requires forall x :: x in t.log && !x.AdvanceTask? ==> x in s.log
    requires s.exec.Running? ==> forall x :: x in t.log && x.AdvanceTask? ==> x.unit in s.settled || x.unit == u
    ensures Same(Settle(s, u, arr), Settle(t, u, arr))
  {
  }

  lemma LandSame(cfg: Config, s: State, t: State, u: nat, how: How, fired: set<Port>, fatal: bool)
    requires Fits(cfg, s) && Same(s, t) && u < Size(cfg.g) && Active(s.exec)
    ensures Same(Land(cfg, s, u, how, fired, fatal), Land(Advancing(cfg), t, u, how, fired, fatal))
  {
  }

  /** The advance of a settled unit, or of an ended execution, changes nothing. */
  lemma AdvanceIdle(cfg: Config, t: State, u: nat)
    requires Fits(cfg, t) && (u in t.settled || !Active(t.exec))
    ensures Step(cfg, t, HandleAdvance(u)) == t
  {
  }

  lemma TerminalizeSame(cfg: Config, s: State, t: State, u: nat, how: How, fired: set<Port>, fatal: bool)
    requires cfg.fold && Fits(cfg, s) && Same(s, t) && u < Size(cfg.g) && u !in s.settled && Active(s.exec)
    requires !how.Canceled?
    ensures var t1 := Terminalize(Advancing(cfg), t, u, how, fired, fatal);
      var t2 := if s.exec.Running? then Step(Advancing(cfg), t1, HandleAdvance(u)) else t1;
      Same(Terminalize(cfg, s, u, how, fired, fatal), t2)
  {
    var acfg, arr := Advancing(cfg), Arrivals(cfg.g, u, how, fired);
    var s1, t1 := Land(cfg, s, u, how, fired, fatal), Land(acfg, t, u, how, fired, fatal);
    LandSame(cfg, s, t, u, how, fired, fatal);
    if cfg.g.kinds[u].GroupUnit? && !how.Skipped? {
      SettleSame(s1, t1, u, arr);
      AdvanceIdle(acfg, Settle(t1, u, arr), u);
      if Terminalize(cfg, s, u, how, fired, fatal) == s1 && s.exec.Running? { AdvanceIdle(acfg, t1, u); }
    } else if fatal || Ends(cfg, s, fatal) {
      if s.exec.Running? { AdvanceIdle(acfg, t1, u); }
    } else if s.exec.Running? {
      SettleSame(s1, Write(t1, AdvanceTask(u)), u, arr);
      AdvanceSettles(acfg, Write(t1, AdvanceTask(u)), u);
    }
  }

  predicate Terminal(a: Action) { a.Commit? || a.ServeDisabled? || a.ServePinned? || a.HandleSkip? }

  /** The terminal write an action performs when its guard holds. */
  lemma TerminalStep(cfg: Config, s: State, a: Action) returns (how: How, fired: set<Port>, fatal: bool)
    requires Fits(cfg, s) && Terminal(a) && !(a.Commit? && a.cancels) && Step(cfg, s, a) != s
    ensures a.unit < Size(cfg.g) && Active(s.exec) && !how.Canceled? && !s.rows[a.unit].Done?
    ensures Step(cfg, s, a) == Terminalize(cfg, s, a.unit, how, fired, fatal)
    ensures forall t :: Same(s, t) ==>
      Step(Advancing(cfg), t, a) == Terminalize(Advancing(cfg), t, a.unit, how, fired, fatal)
  {
    match a
    case Commit(u, _, h, f, ft, _) => how, fired, fatal := h, f, ft;
    case ServeDisabled(u) => how, fired, fatal := Disabled, MainPort(cfg.g, u), false;
    case ServePinned(u) => how, fired, fatal := Pinned, MainPort(cfg.g, u), false;
    case HandleSkip(u) => how, fired, fatal := Skipped, {}, false;
  }

  lemma PlainSame(cfg: Config, s: State, t: State, a: Action)
    requires cfg.fold && Inv(cfg, s) && Same(s, t)
    requires !Terminal(a) && !a.HandleAdvance? && !a.HandleMergeCancel? && !a.Drop?
    ensures Same(Step(cfg, s, a), Step(Advancing(cfg), t, a))
  {
    if a.Requeue? && a.unit < Size(cfg.g) { assert UnitOk(cfg.g, s, a.unit); }
  }

  lemma DropSame(cfg: Config, s: State, t: State, x: Task)
    requires Fits(cfg, s) && Same(s, t)
    ensures Same(Step(cfg, s, Drop(x)), Step(Advancing(cfg), t, Drop(x)))
  {
  }

  lemma StepSame(cfg: Config, s: State, t: State, a: Action)
    requires cfg.fold && Inv(cfg, s) && Same(s, t) && !a.HandleMergeCancel? && !(a.Commit? && a.cancels)
    ensures Same(Step(cfg, s, a), Run(Advancing(cfg), t, Carry(s, a)))
  {
    var acfg := Advancing(cfg);
    RunSteps(acfg, t, a, if Terminal(a) then HandleAdvance(a.unit) else a);
    if a.HandleAdvance? {
      assert Step(cfg, s, a) == s;
    } else if a.Drop? {
      DropSame(cfg, s, t, a.task);
    } else if !Terminal(a) {
      PlainSame(cfg, s, t, a);
    } else if Step(cfg, s, a) != s {
      var how, fired, fatal := TerminalStep(cfg, s, a);
      TerminalizeSame(cfg, s, t, a.unit, how, fired, fatal);
    } else {
      IdleSame(cfg, s, t, a);
    }
  }

  /** A refused terminal action changes neither store. */
  lemma IdleSame(cfg: Config, s: State, t: State, a: Action)
    requires Fits(cfg, s) && Same(s, t) && Terminal(a) && !(a.Commit? && a.cancels) && Step(cfg, s, a) == s
    ensures var t' := Step(Advancing(cfg), t, a);
      t' == t && (s.exec.Running? ==> Step(Advancing(cfg), t, HandleAdvance(a.unit)) == t)
  {
  }

  /** Every run of the folding store is matched by a run of the advancing store
      that ends with the same counters, decisions, rows, totals and status. */
  lemma {:induction false} FoldingRefines(cfg: Config, s: State, t: State, actions: seq<Action>)
    returns (carried: seq<Action>)
    requires Valid(cfg) && cfg.fold && Inv(cfg, s) && Same(s, t)
    requires forall a :: a in actions ==> !a.HandleMergeCancel? && !(a.Commit? && a.cancels)
    ensures Fits(Advancing(cfg), t) && Same(Run(cfg, s, actions), Run(Advancing(cfg), t, carried))
    decreases |actions|
  {
    if actions == [] {
      carried := [];
    } else {
      StepKeeps(cfg, s, actions[0]);
      StepSame(cfg, s, t, actions[0]);
      var first := Carry(s, actions[0]);
      var rest := FoldingRefines(cfg, Step(cfg, s, actions[0]), Run(Advancing(cfg), t, first), actions[1..]);
      RunExtends(Advancing(cfg), t, first, rest);
      carried := first + rest;
    }
  }
}
