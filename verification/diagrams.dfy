/** The store's step read unit by unit: where a row goes, what that does to the totals and
    the status, and when the arrivals are applied. */
module Diagrams {
  import opened Units
  import opened Store

  /** The life of a row. A started unit is leased, parked and requeued under its token, ends
      by a report under it, or, before any lease, in place if it is disabled or pinned; a
      unit marked to skip ends skipped; the merge cancel takes whatever is not waiting on
      children and the cancel cascade exactly what is parked or waiting. An ended row stays. */
  function RowAfter(cfg: Config, s: State, a: Action, u: nat): Row
    requires Fits(cfg, s) && u < Size(cfg.g)
  {
    var row, marker, node := s.rows[u], s.cells[u].marker, cfg.g.kinds[u].NodeUnit?;
    var started, live := ExecTask(u) in s.log && Active(s.exec), Active(s.exec);
    var retired := a.HandleMergeCancel? && a.unit == u && MergeCancelTask(a.merge) in s.log && node && live;
    var swept := a == CancelParked(u) && (s.exec.Canceling? || s.exec.TimedOut?);
    match row
    case Done(_, _) => row
    case Idle =>
      if a.Lease? && a.unit == u && started then Leased(a.token, false)
      else if a == ServeDisabled(u) && started && node && u in cfg.disabled then Done(Disabled, MainPort(cfg.g, u))
      else if a == ServePinned(u) && started && node && u in cfg.pinned && !marker.Skip?
      then Done(Pinned, MainPort(cfg.g, u))
      else if a == HandleSkip(u) && SkipTask(u) in s.log && live then Done(Skipped, {})
      else if retired && marker.Execute? then Done(Canceled, {})
      else row
    case Parked =>
      if a.Lease? && a.unit == u && started then Leased(a.token, false)
      else if (retired && !marker.Skip?) || swept then Done(Canceled, {})
      else row
    case Leased(token, waiting) =>
      if a.Lease? && a.unit == u && started && !waiting && node then Leased(a.token, false)
      else if a == Wait(u, token) then Leased(token, true)
      else if a == Suspend(u, token) then Parked
      else if a == Requeue(u, token) then Idle
      else if a.Commit? && a.unit == u && a.token == token && live && a.how in {Success, Failed, Continued}
      then Done(a.how, a.fired)
      else if (retired && !waiting && !marker.Skip?) || (swept && waiting) then Done(Canceled, {})
      else row
  }

  lemma TerminalRow(cfg: Config, s: State, x: nat, how: How, fired: set<Port>, fatal: bool)
    requires Fits(cfg, s) && x < Size(cfg.g)
    ensures Terminalize(cfg, s, x, how, fired, fatal).rows == s.rows[x := Done(how, fired)]
  {
  }

  lemma MoveFollows(cfg: Config, s: State, a: Action, u: nat)
    requires Fits(cfg, s) && u < Size(cfg.g)
    requires a.Lease? || a.Wait? || a.Suspend? || a.Requeue? || a.CancelParked?
    ensures Step(cfg, s, a).rows[u] == RowAfter(cfg, s, a, u)
  {
  }

  lemma CommitFollows(cfg: Config, s: State, a: Action, u: nat)
    requires Fits(cfg, s) && u < Size(cfg.g) && a.Commit?
    ensures Step(cfg, s, a).rows[u] == RowAfter(cfg, s, a, u)
  {
    if a.unit < Size(cfg.g) { TerminalRow(cfg, s, a.unit, a.how, a.fired, a.fatal); }
  }

  lemma ServeFollows(cfg: Config, s: State, a: Action, u: nat)
    requires Fits(cfg, s) && u < Size(cfg.g) && (a.ServeDisabled? || a.ServePinned?)
    ensures Step(cfg, s, a).rows[u] == RowAfter(cfg, s, a, u)
  {
    if a.unit < Size(cfg.g) {
      TerminalRow(cfg, s, a.unit, if a.ServeDisabled? then Disabled else Pinned, MainPort(cfg.g, a.unit), false);
    }
  }

  lemma SystemFollows(cfg: Config, s: State, a: Action, u: nat)
    requires Fits(cfg, s) && u < Size(cfg.g) && (a.HandleSkip? || a.HandleMergeCancel?)
    ensures Step(cfg, s, a).rows[u] == RowAfter(cfg, s, a, u)
  {
    if a.unit < Size(cfg.g) { TerminalRow(cfg, s, a.unit, if a.HandleSkip? then Skipped else Canceled, {}, false); }
  }

  /** Every row follows its diagram in every step. */
  lemma RowsFollow(cfg: Config, s: State, a: Action, u: nat)
    requires Fits(cfg, s) && u < Size(cfg.g)
    ensures Step(cfg, s, a).rows[u] == RowAfter(cfg, s, a, u)
  {
    if a.Lease? || a.Wait? || a.Suspend? || a.Requeue? || a.CancelParked? {
      MoveFollows(cfg, s, a, u);
    } else if a.Commit? {
      CommitFollows(cfg, s, a, u);
    } else if a.ServeDisabled? || a.ServePinned? {
      ServeFollows(cfg, s, a, u);
    } else if a.HandleSkip? || a.HandleMergeCancel? {
      SystemFollows(cfg, s, a, u);
    }
  }

  // ---- Totals and status ----

  /** The step ends the unit and counts it; the cancel cascade ends rows without counting. */
  predicate Lands(cfg: Config, s: State, a: Action, u: nat)
    requires Fits(cfg, s)
  {
    u < Size(cfg.g) && !a.CancelParked? && !s.rows[u].Done? && RowAfter(cfg, s, a, u).Done?
  }

  predicate Fatal(a: Action) { a.Commit? && a.fatal }

  /** Ending the unit ends the execution: it was fatal or the last one, and not withheld. */
  predicate Concludes(cfg: Config, s: State, a: Action) {
    (Fatal(a) || s.remaining == 1) && !(cfg.backend.Redis? && s.exec.Canceling?)
  }

  function FailedAfter(s: State, a: Action): int { s.failed + if a.Commit? && a.how.Failed? then 1 else 0 }

  /** A unit that ends takes one off the units left, counts as failed only by a failed
      report, and ends the execution if it is fatal or the last: as failed if it is fatal or
      any unit failed, as a success otherwise. */
  lemma LandingCounts(cfg: Config, s: State, a: Action, u: nat)
    requires Fits(cfg, s) && Lands(cfg, s, a, u)
    ensures var s' := Step(cfg, s, a);
      && s'.remaining == s.remaining - 1 && s'.failed == FailedAfter(s, a)
      && s'.exec == if !Concludes(cfg, s, a) then s.exec
                    else if Fatal(a) || FailedAfter(s, a) > 0 then Broken else Succeeded
  {
    var how := if a.Commit? then a.how else if a.ServeDisabled? then Disabled else if a.ServePinned? then Pinned
               else if a.HandleSkip? then Skipped else Canceled;
    TerminalCounts(cfg, s, u, how, RowAfter(cfg, s, a, u).fired, Fatal(a));
  }

  lemma TerminalCounts(cfg: Config, s: State, u: nat, how: How, fired: set<Port>, fatal: bool)
    requires Fits(cfg, s) && u < Size(cfg.g)
    ensures var s', landed := Terminalize(cfg, s, u, how, fired, fatal), Land(cfg, s, u, how, fired, fatal);
      s'.remaining == landed.remaining && s'.failed == landed.failed && s'.exec == landed.exec
  {
  }

  /** Any other step leaves the totals; the status moves only by the three status writes. */
  lemma OthersCountNothing(cfg: Config, s: State, a: Action)
    requires Fits(cfg, s) && forall u: nat | u < Size(cfg.g) :: !Lands(cfg, s, a, u)
    ensures var s' := Step(cfg, s, a);
      && s'.remaining == s.remaining && s'.failed == s.failed
      && s'.exec == if a.BeginCancel? && s.exec.Running? then Canceling
                    else if a.FinishCancel? && s.exec.Canceling? then Cancelled
                    else if a.Expire? && s.exec.Running? then TimedOut
                    else s.exec
  {
    if (a.Commit? || a.ServeDisabled? || a.ServePinned? || a.HandleSkip? || a.HandleMergeCancel?)
       && a.unit < Size(cfg.g) {
      assert !Lands(cfg, s, a, a.unit);
    }
  }

  // ---- Arrivals ----

  /** A group that was not skipped always carries its arrivals in its commit. */
  predicate CarriedByGroup(cfg: Config, s: State, a: Action, u: nat)
    requires Fits(cfg, s) && u < Size(cfg.g)
  {
    cfg.g.kinds[u].GroupUnit? && !a.HandleSkip?
  }

  /** The unit's arrivals are applied by the step that ends it: on a live execution that goes
      on, if it is a group or the store folds; the in-memory store applies a group's even
      while canceling or at the end. */
  predicate AppliedAtOnce(cfg: Config, s: State, a: Action, u: nat)
    requires Fits(cfg, s)
  {
    && Lands(cfg, s, a, u) && !Fatal(a)
    && (CarriedByGroup(cfg, s, a, u) || cfg.fold)
    && ((s.exec.Running? && !Concludes(cfg, s, a)) || (CarriedByGroup(cfg, s, a, u) && cfg.backend.Memory?))
  }

  /** Its arrivals are left to an advance task: on a store that does not fold, unless the
      execution has ended or the unit was canceled. */
  predicate LeftToAdvance(cfg: Config, s: State, a: Action, u: nat)
    requires Fits(cfg, s)
  {
    && Lands(cfg, s, a, u) && !Fatal(a) && !CarriedByGroup(cfg, s, a, u) && !cfg.fold && !a.HandleMergeCancel?
    && !Concludes(cfg, s, a) && (s.exec.Running? || cfg.backend.Memory?)
  }

  /** An advance task applies them once, while the execution is live. */
  predicate Advanced(cfg: Config, s: State, a: Action, u: nat)
    requires Fits(cfg, s)
  {
    && a == HandleAdvance(u) && AdvanceTask(u) in s.log && u < Size(cfg.g) && s.rows[u].Done? && u !in s.settled
    && (s.exec.Running? || (cfg.backend.Memory? && s.exec.Canceling?))
  }

  /** What the step did with the unit's arrivals. */
  predicate Applied(cfg: Config, s: State, s': State, u: nat)
    requires Fits(cfg, s) && Fits(cfg, s') && u < Size(cfg.g) && s'.rows[u].Done?
  {
    var arr := Arrivals(cfg.g, u, s'.rows[u].how, s'.rows[u].fired);
    && s'.order == s.order + [u] && s'.settled == s.settled + {u}
    && forall v: nat | v < Size(cfg.g) :: s'.cells[v] == SettleCell(s.cells[v], arr[v])
  }

  lemma TerminalApplies(cfg: Config, s: State, u: nat, how: How, fired: set<Port>, fatal: bool)
    requires Fits(cfg, s) && u < Size(cfg.g) && Active(s.exec)
    ensures var s' := Terminalize(cfg, s, u, how, fired, fatal);
      var group, ends := cfg.g.kinds[u].GroupUnit? && !how.Skipped?, Ends(cfg, s, fatal);
      if !fatal && (group || cfg.fold)
         && ((s.exec.Running? && !ends) || (group && cfg.backend.Memory?))
      then Applied(cfg, s, s', u) else s'.cells == s.cells && s'.settled == s.settled && s'.order == s.order
  {
  }

  lemma TerminalLeaves(cfg: Config, s: State, u: nat, how: How, fired: set<Port>, fatal: bool, x: nat)
    requires Fits(cfg, s) && u < Size(cfg.g) && Active(s.exec)
    ensures var s' := Terminalize(cfg, s, u, how, fired, fatal);
      AdvanceTask(x) in s'.log <==>
        || AdvanceTask(x) in s.log
        || (x == u && !fatal && !(cfg.g.kinds[u].GroupUnit? && !how.Skipped?) && !cfg.fold && !how.Canceled?
            && !Ends(cfg, s, fatal) && (s.exec.Running? || cfg.backend.Memory?))
  {
  }

  function HowOf(a: Action): How {
    if a.Commit? then a.how else if a.ServeDisabled? then Disabled else if a.ServePinned? then Pinned
    else if a.HandleSkip? then Skipped else Canceled
  }

  /** The two states have the same rows, counters, order and advance tasks. */
  ghost predicate SameArrivals(s: State, t: State) {
    && s.cells == t.cells && s.settled == t.settled && s.order == t.order && s.rows == t.rows
    && forall x :: AdvanceTask(x) in s.log <==> AdvanceTask(x) in t.log
  }

  lemma CommitTerminalizesWith(cfg: Config, s: State, a: Action)
    requires Fits(cfg, s) && a.Commit? && Lands(cfg, s, a, a.unit)
    ensures Active(s.exec) && SameArrivals(Step(cfg, s, a), Terminalize(cfg, s, a.unit, a.how, a.fired, a.fatal))
  {
    assert Step(cfg, s, a) == FinishCommit(cfg, s, a.unit, a.how, a.fired, a.fatal, a.cancels);
  }

  lemma RetireTerminalizes(cfg: Config, s: State, a: Action)
    requires Fits(cfg, s) && a.HandleMergeCancel? && Lands(cfg, s, a, a.unit)
    ensures Active(s.exec) && RowAfter(cfg, s, a, a.unit).fired == {}
    ensures Step(cfg, s, a) == Terminalize(cfg, s, a.unit, Canceled, {}, false)
  {
    assert CancelFence(s, a.unit);
  }

  lemma OthersTerminalize(cfg: Config, s: State, a: Action)
    requires Fits(cfg, s) && (a.ServeDisabled? || a.ServePinned? || a.HandleSkip? || a.HandleMergeCancel?)
    requires Lands(cfg, s, a, a.unit)
    ensures Active(s.exec)
    ensures Step(cfg, s, a) == Terminalize(cfg, s, a.unit, HowOf(a), RowAfter(cfg, s, a, a.unit).fired, false)
  {
    if a.HandleMergeCancel? { RetireTerminalizes(cfg, s, a); } else { assert s.rows[a.unit].Idle?; }
  }

  lemma LandsTerminalizes(cfg: Config, s: State, a: Action, u: nat)
    requires Fits(cfg, s) && Lands(cfg, s, a, u)
    ensures Active(s.exec)
    ensures SameArrivals(Step(cfg, s, a), Terminalize(cfg, s, u, HowOf(a), RowAfter(cfg, s, a, u).fired, Fatal(a)))
  {
    LandsOnly(cfg, s, a, u);
    if a.Commit? { CommitTerminalizesWith(cfg, s, a); } else { OthersTerminalize(cfg, s, a); }
  }

  lemma LandsOnly(cfg: Config, s: State, a: Action, u: nat)
    requires Fits(cfg, s) && Lands(cfg, s, a, u)
    ensures a.Commit? || a.ServeDisabled? || a.ServePinned? || a.HandleSkip? || a.HandleMergeCancel?
    ensures a.unit == u && (a.Commit? ==> RowAfter(cfg, s, a, u).fired == a.fired)
  {
  }

  /** The step that ends a unit applies its arrivals, leaves them to an advance task, or
      drops them, exactly as the carrier, the store and the status say. */
  lemma LandingCarries(cfg: Config, s: State, a: Action, u: nat)
    requires Fits(cfg, s) && Lands(cfg, s, a, u)
    ensures var s' := Step(cfg, s, a);
      && s'.rows[u].Done?
      && (AppliedAtOnce(cfg, s, a, u) ==> Applied(cfg, s, s', u))
      && (!AppliedAtOnce(cfg, s, a, u) ==> s'.cells == s.cells && s'.settled == s.settled && s'.order == s.order)
      && forall x :: AdvanceTask(x) in s'.log <==>
           AdvanceTask(x) in s.log || (x == u && LeftToAdvance(cfg, s, a, u))
  {
    var fired := RowAfter(cfg, s, a, u).fired;
    RowsFollow(cfg, s, a, u);
    LandsTerminalizes(cfg, s, a, u);
    TerminalRow(cfg, s, u, HowOf(a), fired, Fatal(a));
    TerminalApplies(cfg, s, u, HowOf(a), fired, Fatal(a));
    forall x ensures AdvanceTask(x) in Step(cfg, s, a).log <==>
      AdvanceTask(x) in s.log || (x == u && LeftToAdvance(cfg, s, a, u))
    {
      TerminalLeaves(cfg, s, u, HowOf(a), fired, Fatal(a), x);
    }
  }

  lemma RefusedChangesNothing(cfg: Config, s: State, a: Action)
    requires Fits(cfg, s)
    requires a.Commit? || a.ServeDisabled? || a.ServePinned? || a.HandleSkip? || a.HandleMergeCancel?
    requires !Lands(cfg, s, a, a.unit)
    ensures Step(cfg, s, a) == s
  {
  }

  lemma AdvanceApplies(cfg: Config, s: State, u: nat)
    requires Fits(cfg, s)
    ensures Advanced(cfg, s, HandleAdvance(u), u) ==> Applied(cfg, s, Step(cfg, s, HandleAdvance(u)), u)
    ensures !Advanced(cfg, s, HandleAdvance(u), u) ==> Step(cfg, s, HandleAdvance(u)) == s
  {
  }

  lemma MovesApplyNothing(cfg: Config, s: State, a: Action)
    requires Fits(cfg, s) && !a.Commit? && !a.ServeDisabled? && !a.ServePinned? && !a.HandleSkip?
    requires !a.HandleMergeCancel? && !a.HandleAdvance?
    ensures var s' := Step(cfg, s, a); s'.cells == s.cells && s'.settled == s.settled && s'.order == s.order
  {
  }

  /** An advance applies the arrivals of a unit that ended before; no other step touches a
      counter or the order. */
  lemma OthersApplyNothing(cfg: Config, s: State, a: Action, u: nat)
    requires Fits(cfg, s) && forall x: nat | x < Size(cfg.g) :: !Lands(cfg, s, a, x)
    ensures Advanced(cfg, s, a, u) ==> Applied(cfg, s, Step(cfg, s, a), u)
    ensures (forall x: nat | x < Size(cfg.g) :: !Advanced(cfg, s, a, x)) ==>
      var s' := Step(cfg, s, a); s'.cells == s.cells && s'.settled == s.settled && s'.order == s.order
  {
    if a.Commit? || a.ServeDisabled? || a.ServePinned? || a.HandleSkip? || a.HandleMergeCancel? {
      RefusedChangesNothing(cfg, s, a);
    } else if a.HandleAdvance? {
      AdvanceApplies(cfg, s, a.unit);
    } else {
      MovesApplyNothing(cfg, s, a);
    }
  }

  /** A delivery is withdrawn once it was handled, and only then. */
  lemma DropsHandled(cfg: Config, s: State, t: Task)
    requires Fits(cfg, s)
    ensures var handled := !s.exec.Running? || match t
        case ExecTask(u) => u < Size(cfg.g) && !s.rows[u].Idle?
        case SkipTask(u) => u < Size(cfg.g) && s.rows[u].Done?
        case AdvanceTask(u) => u in s.settled
        case MergeCancelTask(_) => true;
      Step(cfg, s, Drop(t)) == if handled then s.(pending := s.pending - {t}) else s
  {
  }
}
