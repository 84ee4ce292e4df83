/** Termination: the inline cascade of skips, advances and merge cancels drains. */
module Cascade {
  import opened Units
  import opened Store
  import opened Runs
  import opened Schedule
  import Diagrams

  function Unsettled(s: State): set<nat> { DoneUnits(s) - s.settled }

  /** Each unit is worth two until it is terminal and one until it is settled, so
      a skip that trades a unit for an advance still lowers the total. */
  function Weight(s: State): nat { 2 * |LeftUnits(s)| + |Unsettled(s)| }

  lemma SettleWeight(s: State, u: nat, arr: seq<Arrival>)
    requires |arr| == |s.cells| && u in Unsettled(s)
    ensures Weight(Settle(s, u, arr)) == Weight(s) - 1
  {
    var s' := Settle(s, u, arr);
    assert LeftUnits(s') == LeftUnits(s);
    assert Unsettled(s) == Unsettled(s') + {u};
  }

  lemma LandWeight(cfg: Config, s: State, u: nat, how: How, fired: set<Port>, fatal: bool)
    requires u < |s.rows| && !s.rows[u].Done? && u !in s.settled
    ensures var landed := Land(cfg, s, u, how, fired, fatal);
      Weight(landed) == Weight(s) - 1 && u in Unsettled(landed)
  {
    var landed := Land(cfg, s, u, how, fired, fatal);
    LeftShrinks(s, landed, u);
    assert Unsettled(landed) == Unsettled(s) + {u};
  }

  lemma WriteWeight(s: State, u: nat)
    ensures Weight(Write(s, AdvanceTask(u))) == Weight(s)
  {
    var w := Write(s, AdvanceTask(u));
    assert LeftUnits(w) == LeftUnits(s) && Unsettled(w) == Unsettled(s);
  }

  lemma TerminalizeWeight(cfg: Config, s: State, u: nat, how: How, fired: set<Port>, fatal: bool)
    requires Fits(cfg, s) && u < Size(cfg.g) && !s.rows[u].Done? && u !in s.settled
    ensures Weight(Terminalize(cfg, s, u, how, fired, fatal)) < Weight(s)
  {
    var landed := Land(cfg, s, u, how, fired, fatal);
    LandWeight(cfg, s, u, how, fired, fatal);
    var s' := Terminalize(cfg, s, u, how, fired, fatal);
    if s' == landed {
    } else if s' == Write(landed, AdvanceTask(u)) {
      WriteWeight(landed, u);
    } else {
      SettleWeight(landed, u, Arrivals(cfg.g, u, how, fired));
    }
  }

  /** Handling a skip, an advance or a merge cancel strictly lowers the weight if the unit
      has still to end or to be advanced by it, and changes nothing otherwise. */
  lemma SystemStepDescends(cfg: Config, s: State, a: Action)
    requires Inv(cfg, s) && (a.HandleSkip? || a.HandleAdvance? || a.HandleMergeCancel?)
    ensures var todo := Diagrams.Lands(cfg, s, a, a.unit) || Diagrams.Advanced(cfg, s, a, a.unit);
      if todo then Weight(Step(cfg, s, a)) < Weight(s) else Step(cfg, s, a) == s
  {
    if a.HandleAdvance? {
      Diagrams.AdvanceApplies(cfg, s, a.unit);
    } else if !Diagrams.Lands(cfg, s, a, a.unit) {
      Diagrams.RefusedChangesNothing(cfg, s, a);
    } else {
      Diagrams.OthersTerminalize(cfg, s, a);
    }
    if Step(cfg, s, a) != s {
      if a.HandleAdvance? {
        SettleWeight(s, a.unit, Arrivals(cfg.g, a.unit, s.rows[a.unit].how, s.rows[a.unit].fired));
      } else {
        TerminalizeWeight(cfg, s, a.unit, if a.HandleSkip? then Skipped else Canceled, {}, false);
      }
    }
  }

  lemma DropDescends(cfg: Config, s: State, t: Task)
    requires Fits(cfg, s) && Handled(s, t)
    ensures var s' := Step(cfg, s, Drop(t)); Weight(s') == Weight(s) && s'.pending == s.pending - {t}
  {
    var s' := Step(cfg, s, Drop(t));
    assert LeftUnits(s') == LeftUnits(s) && Unsettled(s') == Unsettled(s);
  }

  /** The state a run from the given entries has reached; the invariant comes with it. */
  ghost predicate Reached(cfg: Config, entries: set<nat>, done: seq<Action>, s: State) {
    Valid(cfg) && Entries(cfg, entries) && s == Run(cfg, Init(cfg, entries), done) && Inv(cfg, s)
  }

  /** The part of a flush that handles system tasks in place: from any reachable state
      it visits every pending skip, advance and merge cancel, including the ones its own
      handling appends, and stops with none left. What it did continues the run. */
  method Drain(cfg: Config, ghost entries: set<nat>, ghost done: seq<Action>, s: State)
    returns (s': State, ghost run: seq<Action>)
    requires Reached(cfg, entries, done, s)
    ensures done <= run && Reached(cfg, entries, run, s') && Weight(s') <= Weight(s)
    ensures forall t :: t in s'.pending ==> t.ExecTask?
  {
    s', run := s, done;
    while exists t :: t in s'.pending && !t.ExecTask?
      invariant done <= run && Reached(cfg, entries, run, s') && Weight(s') <= Weight(s)
      decreases Weight(s'), |s'.pending|
    {
      var t :| t in s'.pending && !t.ExecTask?;
      s', run := HandleAndDrop(cfg, entries, run, s', t);
    }
  }

  /** One task is handled and taken off the outbox. */
  method HandleAndDrop(cfg: Config, ghost entries: set<nat>, ghost done: seq<Action>, s: State, t: Task)
    returns (s': State, ghost run: seq<Action>)
    requires Reached(cfg, entries, done, s) && t in s.pending && !t.ExecTask?
    ensures done <= run && Reached(cfg, entries, run, s')
    ensures Weight(s') < Weight(s) || (Weight(s') == Weight(s) && s'.pending == s.pending - {t})
  {
    s', run := HandleTask(cfg, entries, done, s, t);
    DropDescends(cfg, s', t);
    StepReached(cfg, entries, run, s', Drop(t));
    s', run := Step(cfg, s', Drop(t)), run + [Drop(t)];
  }

  lemma RunReached(cfg: Config, entries: set<nat>, done: seq<Action>)
    requires Valid(cfg) && Entries(cfg, entries)
    ensures Reached(cfg, entries, done, Run(cfg, Init(cfg, entries), done))
  {
    InitKeeps(cfg, entries);
    RunKeeps(cfg, Init(cfg, entries), done);
  }

  lemma StepReached(cfg: Config, entries: set<nat>, done: seq<Action>, s: State, a: Action)
    requires Reached(cfg, entries, done, s)
    ensures Reached(cfg, entries, done + [a], Step(cfg, s, a))
  {
    RunOne(cfg, Init(cfg, entries), done, a);
    StepKeeps(cfg, s, a);
  }

  lemma SkipHandled(cfg: Config, s: State, u: nat)
    requires Inv(cfg, s) && SkipTask(u) in s.log
    ensures Handled(Step(cfg, s, HandleSkip(u)), SkipTask(u))
  {
    assert UnitOk(cfg.g, s, SkipTask(u).unit);
  }

  lemma AdvanceHandled(cfg: Config, s: State, u: nat)
    requires Inv(cfg, s) && AdvanceTask(u) in s.log
    ensures Handled(Step(cfg, s, HandleAdvance(u)), AdvanceTask(u))
  {
    assert AdvanceTask(u).unit < Size(cfg.g);
    assert UnitOk(cfg.g, s, u);
  }

  /** Handling one system task leaves it with nothing more to do. */
  method HandleTask(cfg: Config, ghost entries: set<nat>, ghost done: seq<Action>, s: State, t: Task)
    returns (s': State, ghost run: seq<Action>)
    requires Reached(cfg, entries, done, s) && t in s.log && !t.ExecTask?
    ensures done <= run && Reached(cfg, entries, run, s') && Handled(s', t)
    ensures s' == s || Weight(s') < Weight(s)
  {
    match t
    case SkipTask(u) =>
      SkipHandled(cfg, s, u);
      s', run := Handle(cfg, entries, done, s, HandleSkip(u));
    case AdvanceTask(u) =>
      AdvanceHandled(cfg, s, u);
      s', run := Handle(cfg, entries, done, s, HandleAdvance(u));
    case MergeCancelTask(m) =>
      s', run := CancelBranches(cfg, entries, done, s, m);
  }

  method CancelBranches(cfg: Config, ghost entries: set<nat>, ghost done: seq<Action>, s: State, m: nat)
    returns (s': State, ghost run: seq<Action>)
    requires Reached(cfg, entries, done, s)
    ensures done <= run && Reached(cfg, entries, run, s')
    ensures s' == s || Weight(s') < Weight(s)
  {
    s', run := s, done;
    for u := 0 to Size(cfg.g)
      invariant done <= run && Reached(cfg, entries, run, s')
      invariant s' == s || Weight(s') < Weight(s)
    {
      s', run := Handle(cfg, entries, run, s', HandleMergeCancel(m, u));
    }
  }

  method Handle(cfg: Config, ghost entries: set<nat>, ghost done: seq<Action>, s: State, a: Action)
    returns (s': State, ghost run: seq<Action>)
    requires Reached(cfg, entries, done, s) && (a.HandleSkip? || a.HandleAdvance? || a.HandleMergeCancel?)
    ensures run == done + [a] && s' == Step(cfg, s, a) && Reached(cfg, entries, run, s')
    ensures s' == s || Weight(s') < Weight(s)
  {
    s', run := Step(cfg, s, a), done + [a];
    StepReached(cfg, entries, done, s, a);
    SystemStepDescends(cfg, s, a);
  }
}
