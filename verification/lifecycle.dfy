/** Ending an execution: the deadline, a cancel and an ordinary conclusion race over
    one store, and any caller may die after any of its store calls. */
module Lifecycle {

  /** `TimedOut(true)` carries the engine's own deadline reason. */
  datatype Status = Absent | Running | Canceling | Success | Failed | Canceled | TimedOut(deadline: bool)

  /** `Busy` is pending, running or committing; `Waiting` is parked on children. */
  datatype Node = Busy | Suspended | Waiting | Settled

  datatype Child = NoChild | ChildRunning | ChildOver

  /** Something the cascade has to stop. */
  datatype Item = SuspendedNode(node: nat) | ParkedNode(node: nat) | LinkedChild(node: nat)

  datatype Cascade = Expiring(resumed: bool) | CancelCall

  datatype Outcome =
    | Expired | Resumed | AlreadyTerminal | CancelingNow | NotDue | Gone | CancelDone | Inactive | Errored

  /** Where a caller stands: each constructor is the store call it makes next. */
  datatype Pc =
    | ReadStatus(slack: nat)
    | ReadSnapshot(slack: nat, ended: bool)
    | WriteTimeout(slack: nat)
    | Reread
    | AckOther
    | ListSuspended(of: Cascade)
    | CancelNodes(of: Cascade, todo: seq<nat>)
    | CancelChildren(of: Cascade, next: nat, failed: bool)
    | ReadParked(of: Cascade, next: nat)
    | WriteParked(of: Cascade, next: nat)
    | Ack(resumed: bool)
    | LoadActive
    | MarkCanceling
    | MarkCanceled
    | Finished(outcome: Outcome)

  /** `entry` is the deadline entry; `subs` the sub-workflow nodes in index order;
      `owed` what was to be stopped when the timeout was written and has not left
      that state since. */
  datatype State = State(
    status: Status, nodes: seq<Node>, children: seq<Child>, subs: set<nat>, entry: bool,
    now: nat, deadline: nat, owed: set<Item>, callers: map<nat, Pc>)

  datatype Action =
    | Start(caller: nat, pc: Pc)
    | Go(caller: nat)
    | ChildFails(caller: nat)
    | Crash(caller: nat)
    | Conclude(node: nat, fails: bool, last: bool)
    | Resume(node: nat)
    | Suspend(node: nat)
    | Park(node: nat)
    | Unpark(node: nat, settles: bool)
    | SpawnChild(node: nat)
    | EndChild(node: nat)
    | TimeoutOther
    | Repair
    | Vanish
    | Tick

  predicate Terminal(s: Status) { s.Success? || s.Failed? || s.Canceled? || s.TimedOut? }

  /** How early an expiry may judge the deadline reached, in milliseconds. */
  const CLOCK_SLACK: nat := 50

  predicate DeadlineReached(now: nat, deadline: nat) { deadline != 0 && now >= deadline }

  predicate Held(s: State, x: Item) {
    match x
    case SuspendedNode(n) => n < |s.nodes| && s.nodes[n].Suspended?
    case ParkedNode(n) => n < |s.nodes| && n in s.subs && s.nodes[n].Waiting?
    case LinkedChild(n) => n < |s.children| && s.children[n].ChildRunning?
  }

  function AllHeld(s: State): (held: set<Item>)
    ensures forall x :: x in held <==> Held(s, x)
  {
    (set n: nat | n < |s.nodes| && s.nodes[n].Suspended? :: SuspendedNode(n)) +
    (set n: nat | n < |s.nodes| && n in s.subs && s.nodes[n].Waiting? :: ParkedNode(n)) +
    (set n: nat | n < |s.children| && s.children[n].ChildRunning? :: LinkedChild(n))
  }

  /** An item that leaves its state is no longer owed, even if it comes back. */
  function Prune(s: State): State { s.(owed := set x | x in s.owed && Held(s, x)) }

  /** The store's fenced status write: a terminal status stays, and a canceling
      execution accepts only canceled. Every terminal status but a timeout drops
      the deadline entry. */
  function WriteStatus(s: State, status: Status): State {
    if s.status.Absent? || Terminal(s.status) || (s.status.Canceling? && !status.Canceled?) then s
    else s.(status := status, entry := s.entry && !(Terminal(status) && !status.TimedOut?),
            owed := if status == TimedOut(true) then AllHeld(s) else s.owed)
  }

  function SetNode(s: State, n: nat, node: Node): State
    requires n < |s.nodes|
  {
    s.(nodes := s.nodes[n := node])
  }

  /** The suspended nodes, in index order. */
  function SuspendedList(s: State, upto: nat): (list: seq<nat>)
    requires upto <= |s.nodes|
    ensures forall n: nat :: n in list <==> n < upto && s.nodes[n].Suspended?
  {
    if upto == 0 then []
    else SuspendedList(s, upto - 1) + if s.nodes[upto - 1].Suspended? then [upto - 1] else []
  }

  function AfterCascade(of: Cascade): Pc {
    if of.Expiring? then Ack(of.resumed) else MarkCanceled
  }

  /** One store call of a caller, and the state it leaves. */
  function Call(s: State, pc: Pc): (r: (State, Pc))
    ensures |r.0.nodes| == |s.nodes| && |r.0.children| == |s.children|
  {
    match pc
    case ReadStatus(slack) =>
      if s.status.Absent? then (s, Finished(Gone))
      else if s.status.Success? || s.status.Failed? || s.status.Canceled? then (s, AckOther)
      else if s.status.Canceling? then (s, Finished(CancelingNow))
      else (s, ReadSnapshot(slack, s.status.TimedOut?))
    case ReadSnapshot(slack, ended) =>
      // the status read before decides which way to go, the snapshot only how
      if s.status.Absent? then (s, Finished(Gone))
      else if ended then (s, if s.status == TimedOut(true) then ListSuspended(Expiring(true)) else AckOther)
      else if !DeadlineReached(s.now + slack, s.deadline) then (s, Finished(NotDue))
      else (s, WriteTimeout(slack))
    case WriteTimeout(_) => (WriteStatus(s, TimedOut(true)), Reread)
    case Reread =>
      if s.status.Absent? then (s, Finished(Gone))
      else if s.status.Canceling? then (s, Finished(CancelingNow))
      else if s.status == TimedOut(true) then (s, ListSuspended(Expiring(false)))
      else (s, AckOther)
    case AckOther => (s.(entry := false), Finished(AlreadyTerminal))
    case ListSuspended(of) => (s, CancelNodes(of, SuspendedList(s, |s.nodes|)))
    case CancelNodes(of, todo) =>
      if todo == [] then (s, CancelChildren(of, 0, false))
      else if todo[0] < |s.nodes| && s.nodes[todo[0]].Suspended?
           then (SetNode(s, todo[0], Settled), CancelNodes(of, todo[1..]))
      else (s, CancelNodes(of, todo[1..]))
    case CancelChildren(of, next, failed) =>
      if next < |s.children| then
        (if s.children[next].ChildRunning? then s.(children := s.children[next := ChildOver]) else s,
         CancelChildren(of, next + 1, failed))
      else if failed && of.Expiring? then (s, Finished(Errored))
      else (s, ReadParked(of, 0))
    case ReadParked(of, next) =>
      if next >= |s.nodes| then (s, AfterCascade(of))
      else if next in s.subs && s.nodes[next].Waiting? then (s, WriteParked(of, next))
      else (s, ReadParked(of, next + 1))
    case WriteParked(of, next) =>
      (if next < |s.nodes| && !s.nodes[next].Settled? then SetNode(s, next, Settled) else s, ReadParked(of, next + 1))
    case Ack(resumed) => (s.(entry := false), Finished(if resumed then Resumed else Expired))
    case LoadActive => (s, if s.status.Absent? || Terminal(s.status) then Finished(Inactive) else MarkCanceling)
    case MarkCanceling => (WriteStatus(s, Canceling), ListSuspended(CancelCall))
    case MarkCanceled => (WriteStatus(s, Canceled), Finished(CancelDone))
    case Finished(_) => (s, pc)
  }

  /** The rest of the system. A commit that concludes the execution ignores the
      canceling status unless the store guards it. */
  function Env(guarded: bool, s: State, a: Action): (s': State)
    ensures |s'.nodes| == |s.nodes| && |s'.children| == |s.children|
  {
    match a
    case Conclude(n, fails, last) =>
      if n < |s.nodes| && (s.nodes[n].Busy? || s.nodes[n].Waiting?) && (s.status.Running? || s.status.Canceling?) then
        var s1 := SetNode(s, n, Settled);
        if last && (s.status.Running? || !guarded)
          then s1.(status := if fails then Failed else Success, entry := false) else s1
      else s
    case Resume(n) => if n < |s.nodes| && s.nodes[n].Suspended? then SetNode(s, n, Busy) else s
    case Suspend(n) => if n < |s.nodes| && s.nodes[n].Busy? then SetNode(s, n, Suspended) else s
    case Park(n) => if n < |s.nodes| && s.nodes[n].Busy? then SetNode(s, n, Waiting) else s
    case Unpark(n, settles) =>
      if n < |s.nodes| && s.nodes[n].Waiting? then SetNode(s, n, if settles then Settled else Busy) else s
    case SpawnChild(n) =>
      if n < |s.children| && !s.children[n].ChildRunning? then s.(children := s.children[n := ChildRunning]) else s
    case EndChild(n) =>
      if n < |s.children| && s.children[n].ChildRunning? then s.(children := s.children[n := ChildOver]) else s
    case TimeoutOther => WriteStatus(s, TimedOut(false))
    case Repair => if s.status.Absent? || (Terminal(s.status) && !s.status.TimedOut?) then s.(entry := false) else s
    case Vanish => if Terminal(s.status) then s.(status := Absent) else s
    case Tick => s.(now := s.now + 1)
    case _ => s
  }

  /** An expiry starts with at most the clock slack, a cancel at its own first read. */
  predicate StartPc(pc: Pc) { (pc.ReadStatus? && pc.slack <= CLOCK_SLACK) || pc.LoadActive? }

  function Step(guarded: bool, s: State, a: Action): State {
    match a
    case Start(c, pc) => if c !in s.callers && StartPc(pc) then s.(callers := s.callers[c := pc]) else s
    case Crash(c) => s.(callers := s.callers - {c})
    case Go(c) =>
      if c in s.callers then
        var (s1, pc) := Call(s, s.callers[c]);
        Prune(s1.(callers := s.callers[c := pc]))
      else s
    case ChildFails(c) =>
      if c in s.callers && s.callers[c].CancelChildren? && s.callers[c].next < |s.children| then
        s.(callers := s.callers[c := CancelChildren(s.callers[c].of, s.callers[c].next + 1, true)])
      else s
    case _ => Prune(Env(guarded, s, a))
  }

  function Run(guarded: bool, s: State, actions: seq<Action>): State
    decreases |actions|
  {
    if actions == [] then s else Run(guarded, Step(guarded, s, actions[0]), actions[1..])
  }

  // ---- What every interleaving keeps ----

  /** What a caller part-way through its cascade may still find owed. */
  predicate CallerOk(s: State, pc: Pc) {
    match pc
    case ReadStatus(slack) => slack <= CLOCK_SLACK
    case ReadSnapshot(slack, ended) => slack <= CLOCK_SLACK && (ended ==> s.status.TimedOut? || s.status.Absent?)
    case WriteTimeout(slack) => slack <= CLOCK_SLACK && DeadlineReached(s.now + slack, s.deadline)
    case Reread => !s.status.Running?
    case AckOther => s.status.Absent? || (Terminal(s.status) && s.status != TimedOut(true))
    case ListSuspended(of) => of.Expiring? ==> Over(s)
    case CancelNodes(of, todo) =>
      of.Expiring? ==> Over(s) && forall x :: x in s.owed && x.SuspendedNode? ==> x.node in todo
    case CancelChildren(of, next, failed) =>
      of.Expiring? ==> Over(s) && forall x :: x in s.owed ==>
        !x.SuspendedNode? && (x.LinkedChild? ==> failed || x.node >= next)
    case ReadParked(of, next) => of.Expiring? ==> Over(s) && forall x :: x in s.owed ==> x.ParkedNode? && x.node >= next
    case WriteParked(of, next) =>
      of.Expiring? ==> Over(s) && forall x :: x in s.owed ==> x.ParkedNode? && x.node >= next
    case Ack(_) => Over(s) && s.owed == {}
    case _ => true
  }

  /** The timeout is written; the execution may since have been forgotten. */
  predicate Over(s: State) { s.status == TimedOut(true) || s.status.Absent? }

  predicate Inv(s: State) {
    && (forall x :: x in s.owed ==> Held(s, x))
    && (forall c :: c in s.callers ==> CallerOk(s, s.callers[c]))
    && EntryOk(s)
    && (s.status == TimedOut(true) ==> DeadlineReached(s.now + CLOCK_SLACK, s.deadline))
  }

  /** An execution with a deadline keeps its entry while it is live and, once timed
      out, for as long as something is owed. */
  predicate EntryOk(s: State) {
    && (s.status.Running? || s.status.Canceling? ==> s.deadline != 0 ==> s.entry)
    && (s.status == TimedOut(true) && !s.entry ==> s.owed == {})
  }

  /** The status order every step respects. */
  predicate StatusStep(guarded: bool, before: Status, after: Status) {
    && (Terminal(before) ==> after == before || after.Absent?)
    && (before.Absent? ==> after.Absent?)
    && (!before.Running? ==> !after.Running?)
    && (before.Canceling? && guarded ==> after.Canceling? || after.Canceled?)
  }

  lemma CallStatus(s: State, pc: Pc)
    ensures StatusStep(true, s.status, Call(s, pc).0.status)
    ensures Call(s, pc).0.subs == s.subs && Call(s, pc).0.deadline == s.deadline && Call(s, pc).0.now == s.now
  {
  }

  lemma StepStatus(guarded: bool, s: State, a: Action)
    ensures StatusStep(guarded, s.status, Step(guarded, s, a).status)
  {
    if a.Go? && a.caller in s.callers { CallStatus(s, s.callers[a.caller]); }
  }

  /** A step seen from a caller that does not take it: nothing new becomes owed
      once the timeout is written. */
  lemma OthersKeep(s: State, s': State, pc: Pc)
    requires CallerOk(s, pc) && StatusStep(false, s.status, s'.status) && s'.deadline == s.deadline && s'.now >= s.now
    requires Over(s) || Terminal(s.status) ==> s'.owed <= s.owed
    ensures CallerOk(s', pc)
  {
  }

  /** The effect of a call on what is owed. */
  lemma CallOwed(s: State, pc: Pc)
    requires forall x :: x in s.owed ==> Held(s, x)
    ensures var s' := Prune(Call(s, pc).0);
      && (Over(s) || Terminal(s.status) ==> s'.owed <= s.owed)
      && (forall x :: x in s'.owed ==> Held(s', x))
  {
    var s1 := Call(s, pc).0;
    var s' := Prune(s1);
    forall x | x in s'.owed ensures Held(s', x) { assert Held(s1, x); }
  }

  lemma CallKeepsEntry(s: State, pc: Pc)
    requires CallerOk(s, pc) && EntryOk(s) && (forall x :: x in s.owed ==> Held(s, x))
    requires s.status == TimedOut(true) ==> DeadlineReached(s.now + CLOCK_SLACK, s.deadline)
    ensures EntryOk(Prune(Call(s, pc).0))
    ensures var s1 := Call(s, pc).0; s1.status == TimedOut(true) ==> DeadlineReached(s1.now + CLOCK_SLACK, s1.deadline)
  {
    CallOwed(s, pc);
  }

  /** A cancel of a suspended node leaves only the rest of the list to be stopped. */
  lemma CancelKeepsCaller(s: State, of: Cascade, todo: seq<nat>)
    requires CallerOk(s, CancelNodes(of, todo)) && (forall x :: x in s.owed ==> Held(s, x))
    ensures var (s1, pc') := Call(s, CancelNodes(of, todo)); CallerOk(Prune(s1), pc')
  {
    var (s1, pc') := Call(s, CancelNodes(of, todo));
    if todo != [] && of.Expiring? {
      forall x | x in Prune(s1).owed && x.SuspendedNode? ensures x.node in todo[1..] {
        assert Held(s1, x) && x in s.owed && x.node in todo;
      }
    }
  }

  lemma ChildKeepsCaller(s: State, of: Cascade, next: nat, failed: bool)
    requires CallerOk(s, CancelChildren(of, next, failed)) && (forall x :: x in s.owed ==> Held(s, x))
    ensures var (s1, pc') := Call(s, CancelChildren(of, next, failed)); CallerOk(Prune(s1), pc')
  {
  }

  lemma ParkedKeepsCaller(s: State, pc: Pc)
    requires (pc.ReadParked? || pc.WriteParked?) && CallerOk(s, pc) && (forall x :: x in s.owed ==> Held(s, x))
    ensures var (s1, pc') := Call(s, pc); CallerOk(Prune(s1), pc')
  {
  }

  lemma CallKeepsCaller(s: State, pc: Pc)
    requires CallerOk(s, pc) && EntryOk(s) && (forall x :: x in s.owed ==> Held(s, x))
    ensures var (s1, pc') := Call(s, pc); CallerOk(Prune(s1), pc')
  {
    if pc.CancelNodes? {
      CancelKeepsCaller(s, pc.of, pc.todo);
    } else if pc.CancelChildren? {
      ChildKeepsCaller(s, pc.of, pc.next, pc.failed);
    } else if pc.ReadParked? || pc.WriteParked? {
      ParkedKeepsCaller(s, pc);
    }
  }

  lemma CallKeeps(s: State, pc: Pc)
    requires CallerOk(s, pc) && (forall x :: x in s.owed ==> Held(s, x))
    requires EntryOk(s) && (s.status == TimedOut(true) ==> DeadlineReached(s.now + CLOCK_SLACK, s.deadline))
    ensures var (s1, pc') := Call(s, pc); CallerOk(Prune(s1), pc') && EntryOk(Prune(s1))
    ensures var s1 := Call(s, pc).0; s1.status == TimedOut(true) ==> DeadlineReached(s1.now + CLOCK_SLACK, s1.deadline)
  {
    CallKeepsEntry(s, pc);
    CallKeepsCaller(s, pc);
  }

  lemma SameOwed(s: State, callers: map<nat, Pc>)
    ensures Prune(s.(callers := callers)) == Prune(s).(callers := callers)
  {
  }

  lemma GoKeeps(guarded: bool, s: State, c: nat)
    requires Inv(s) && c in s.callers
    ensures Inv(Step(guarded, s, Go(c)))
  {
    var s' := Step(guarded, s, Go(c));
    var (s1, pc) := Call(s, s.callers[c]);
    SameOwed(s1, s.callers[c := pc]);
    CallKeeps(s, s.callers[c]);
    CallOwed(s, s.callers[c]);
    CallStatus(s, s.callers[c]);
    forall d | d in s'.callers ensures CallerOk(s', s'.callers[d]) {
      if d != c { OthersKeep(s, s', s.callers[d]); } else { CallersIrrelevant(Prune(s1), s', pc); }
    }
  }

  lemma CallersIrrelevant(s: State, s': State, pc: Pc)
    requires CallerOk(s, pc) && s'.status == s.status && s'.owed == s.owed && s'.deadline == s.deadline
    requires s'.now == s.now
    ensures CallerOk(s', pc)
  {
  }

  lemma EnvKeeps(guarded: bool, s: State, a: Action)
    requires Inv(s) && !a.Start? && !a.Go? && !a.ChildFails? && !a.Crash?
    ensures Inv(Step(guarded, s, a))
  {
    var s1 := Env(guarded, s, a);
    var s' := Prune(s1);
    assert s' == Step(guarded, s, a);
    assert s1.owed == s.owed && s1.callers == s.callers;
    StepStatus(guarded, s, a);
    forall x | x in s'.owed ensures Held(s', x) { assert Held(s1, x); }
    forall c | c in s'.callers ensures CallerOk(s', s'.callers[c]) {
      OthersKeep(s, s', s.callers[c]);
    }
  }

  lemma StepKeeps(guarded: bool, s: State, a: Action)
    requires Inv(s)
    ensures Inv(Step(guarded, s, a))
  {
    if a.Go? && a.caller in s.callers { GoKeeps(guarded, s, a.caller); }
    else if !a.Start? && !a.Go? && !a.ChildFails? && !a.Crash? { EnvKeeps(guarded, s, a); }
    else {
      var s' := Step(guarded, s, a);
      forall c | c in s'.callers ensures CallerOk(s', s'.callers[c]) {
        if c in s.callers { CallersIrrelevant(s, s', s.callers[c]); }
      }
    }
  }

  /** A live execution nobody has touched yet. */
  predicate Initial(s: State) { s.status.Running? && s.owed == {} && s.callers == map[] && s.entry }

  lemma {:induction false} RunKeeps(guarded: bool, s: State, actions: seq<Action>)
    requires Inv(s)
    ensures Inv(Run(guarded, s, actions))
    decreases |actions|
  {
    if actions != [] {
      StepKeeps(guarded, s, actions[0]);
      RunKeeps(guarded, Step(guarded, s, actions[0]), actions[1..]);
    }
  }

  /** The item is in its state now and after every further action. */
  predicate HeldThroughout(guarded: bool, s: State, actions: seq<Action>, x: Item)
    decreases |actions|
  {
    Held(s, x) && (actions == [] || HeldThroughout(guarded, Step(guarded, s, actions[0]), actions[1..], x))
  }

  lemma CallStaysOwed(s: State, pc: Pc)
    requires Over(s)
    ensures Call(s, pc).0.owed == s.owed
  {
  }

  lemma EnvStaysOwed(guarded: bool, s: State, a: Action)
    requires Over(s)
    ensures Env(guarded, s, a).owed == s.owed
  {
  }

  lemma StepOwed(guarded: bool, s: State, a: Action, x: Item)
    requires Over(s) && x in s.owed && Held(Step(guarded, s, a), x)
    ensures x in Step(guarded, s, a).owed
  {
    if a.Go? && a.caller in s.callers {
      CallStaysOwed(s, s.callers[a.caller]);
    } else if !a.Start? && !a.Go? && !a.ChildFails? && !a.Crash? {
      EnvStaysOwed(guarded, s, a);
    }
  }

  lemma {:induction false} HeldStaysOwed(guarded: bool, s: State, actions: seq<Action>, x: Item)
    requires (s.status == TimedOut(true) || s.status.Absent?) && x in s.owed && HeldThroughout(guarded, s, actions, x)
    ensures x in Run(guarded, s, actions).owed
    decreases |actions|
  {
    if actions != [] {
      var s' := Step(guarded, s, actions[0]);
      StepStatus(guarded, s, actions[0]);
      assert Held(s', x);
      StepOwed(guarded, s, actions[0], x);
      HeldStaysOwed(guarded, s', actions[1..], x);
    }
  }

  /** Whatever expiries, cancels, commits, suspensions and resumes came before and
      come after the deadline write, and whichever callers crash in between: while
      something that write found suspended, parked or running as a child has not
      left that state, the timed-out execution keeps its deadline entry. */
  lemma EntryStaysUntilStopped(guarded: bool, s0: State, before: seq<Action>, c: nat, after: seq<Action>, x: Item)
    requires Initial(s0)
    ensures var s1 := Run(guarded, s0, before);
      var s2 := Step(guarded, s1, Go(c));
      var s3 := Run(guarded, s2, after);
      (&& s1.status.Running? && s2.status == TimedOut(true) && s3.status == TimedOut(true)
       && Held(s1, x) && HeldThroughout(guarded, s2, after, x))
      ==> s3.entry
  {
    RunKeeps(guarded, s0, before);
    var s1 := Run(guarded, s0, before);
    var s2 := Step(guarded, s1, Go(c));
    StepKeeps(guarded, s1, Go(c));
    RunKeeps(guarded, s2, after);
    if s1.status.Running? && s2.status == TimedOut(true) && Held(s1, x) && HeldThroughout(guarded, s2, after, x) {
      assert x in AllHeld(s1) && x in s2.owed;
      HeldStaysOwed(guarded, s2, after, x);
    }
  }

  /** No interleaving writes the deadline timeout before the deadline, less the clock slack,
      or for an execution without one. */
  lemma NeverExpiresEarly(guarded: bool, s0: State, actions: seq<Action>)
    requires Initial(s0)
    ensures var s := Run(guarded, s0, actions);
      s.status == TimedOut(true) ==> s.deadline != 0 && s.now + CLOCK_SLACK >= s.deadline
  {
    RunKeeps(guarded, s0, actions);
  }

  /** No terminal status is overwritten, and on a store that guards the concluding
      commit a canceling execution can only end canceled. */
  lemma {:induction false} StatusesAreFinal(guarded: bool, s: State, actions: seq<Action>)
    ensures var s' := Run(guarded, s, actions);
      && (Terminal(s.status) ==> s'.status == s.status || s'.status.Absent?)
      && (s.status.Absent? ==> s'.status.Absent?)
      && (s.status.Canceling? && guarded ==> s'.status.Canceling? || s'.status.Canceled? || s'.status.Absent?)
    decreases |actions|
  {
    if actions != [] {
      StepStatus(guarded, s, actions[0]);
      StatusesAreFinal(guarded, Step(guarded, s, actions[0]), actions[1..]);
    }
  }

  /** Some continuation of a canceling execution ends in another way. */
  ghost predicate CanEscape(guarded: bool, s: State) {
    exists actions :: Escapes(guarded, s, actions)
  }

  ghost predicate Escapes(guarded: bool, s: State, actions: seq<Action>) {
    var s' := Run(guarded, s, actions); Terminal(s'.status) && !s'.status.Canceled?
  }

  predicate AllSettled(s: State) { forall n | 0 <= n < |s.nodes| :: s.nodes[n].Settled? }

  predicate CancelOnly(status: Status) { status.Canceling? || status.Canceled? || status.Absent? }

  lemma CallSettled(s: State, pc: Pc)
    requires AllSettled(s)
    ensures AllSettled(Call(s, pc).0) && (CancelOnly(s.status) ==> CancelOnly(Call(s, pc).0.status))
  {
  }

  lemma StepSettled(guarded: bool, s: State, a: Action)
    requires AllSettled(s) && CancelOnly(s.status)
    ensures AllSettled(Step(guarded, s, a)) && CancelOnly(Step(guarded, s, a).status)
  {
    if a.Go? && a.caller in s.callers { CallSettled(s, s.callers[a.caller]); }
  }

  /** With every node settled there is no commit left to conclude the execution. */
  lemma {:induction false} SettledStaysCanceled(guarded: bool, s: State, actions: seq<Action>)
    requires AllSettled(s) && CancelOnly(s.status)
    ensures CancelOnly(Run(guarded, s, actions).status)
    decreases |actions|
  {
    if actions != [] {
      StepSettled(guarded, s, actions[0]);
      SettledStaysCanceled(guarded, Step(guarded, s, actions[0]), actions[1..]);
    }
  }

  /** A fatal commit of an open node, resumed first if it is suspended. */
  function FatalCommit(s: State, n: nat): seq<Action>
    requires n < |s.nodes|
  {
    (if s.nodes[n].Suspended? then [Resume(n)] else []) + [Conclude(n, true, true)]
  }

  lemma FatalStep(s: State, n: nat)
    requires s.status.Canceling? && n < |s.nodes| && (s.nodes[n].Busy? || s.nodes[n].Waiting?)
    ensures Step(false, s, Conclude(n, true, true)).status.Failed?
  {
  }

  lemma ResumeStep(s: State, n: nat)
    requires n < |s.nodes| && s.nodes[n].Suspended?
    ensures var s' := Step(false, s, Resume(n)); s'.status == s.status && s'.nodes == s.nodes[n := Busy]
  {
  }

  lemma RunOne(guarded: bool, s: State, a: Action)
    ensures Run(guarded, s, [a]) == Step(guarded, s, a)
  {
    assert [a][1..] == [] && [a][0] == a;
    assert Run(guarded, s, [a]) == Run(guarded, Step(guarded, s, [a][0]), [a][1..]);
  }

  lemma FatalCommitEscapes(s: State, n: nat)
    requires s.status.Canceling? && n < |s.nodes| && !s.nodes[n].Settled?
    ensures Run(false, s, FatalCommit(s, n)).status.Failed?
  {
    var a, actions := Conclude(n, true, true), FatalCommit(s, n);
    if s.nodes[n].Suspended? {
      var s1 := Step(false, s, Resume(n));
      ResumeStep(s, n);
      FatalStep(s1, n);
      RunOne(false, s1, a);
      assert actions[0] == Resume(n) && actions[1..] == [a];
      assert Run(false, s, actions) == Run(false, s1, [a]);
    } else {
      FatalStep(s, n);
      RunOne(false, s, a);
      assert actions == [a];
    }
  }

  /** A canceling execution can end as something other than canceled if and only if the
      store does not guard the concluding commit and some node is not settled. */
  lemma CancelHoldsIffGuarded(guarded: bool, s: State)
    requires s.status.Canceling?
    ensures CanEscape(guarded, s) <==> !guarded && !AllSettled(s)
  {
    if guarded || AllSettled(s) {
      forall actions ensures !Escapes(guarded, s, actions) {
        if guarded { StatusesAreFinal(guarded, s, actions); } else { SettledStaysCanceled(guarded, s, actions); }
      }
    } else {
      var n :| 0 <= n < |s.nodes| && !s.nodes[n].Settled?;
      FatalCommitEscapes(s, n);
      assert Escapes(guarded, s, FatalCommit(s, n));
    }
  }

  // ---- Calling again completes a crashed call ----

  /** What an undisturbed cascade has still to stop at each of its calls. */
  ghost predicate Sweeping(s: State, pc: Pc) {
    match pc
    case ListSuspended(of) => true
    case CancelNodes(of, todo) => forall x :: Held(s, x) && x.SuspendedNode? ==> x.node in todo
    case CancelChildren(of, next, failed) =>
      !failed && forall x :: Held(s, x) ==> !x.SuspendedNode? && (x.LinkedChild? ==> x.node >= next)
    case ReadParked(of, next) => forall x :: Held(s, x) ==> x.ParkedNode? && x.node >= next
    case WriteParked(of, next) =>
      Held(s, ParkedNode(next)) && forall x :: Held(s, x) ==> x.ParkedNode? && x.node >= next
    case Ack(_) => forall x :: !Held(s, x)
    case MarkCanceled => forall x :: !Held(s, x)
    case _ => false
  }

  /** Nodes and children are as before, except that some of those held have been stopped. */
  predicate Stops(s: State, s': State) {
    && |s'.nodes| == |s.nodes| && |s'.children| == |s.children|
    && s'.subs == s.subs && s'.now == s.now && s'.deadline == s.deadline
    && (forall n: nat | n < |s.nodes| :: s'.nodes[n] == s.nodes[n] ||
          (s'.nodes[n].Settled? && (s.nodes[n].Suspended? || (s.nodes[n].Waiting? && n in s.subs))))
    && (forall n: nat | n < |s.children| :: s'.children[n] == s.children[n] ||
          (s'.children[n].ChildOver? && s.children[n].ChildRunning?))
  }

  function CascadeOf(pc: Pc): Cascade
    requires !pc.ReadStatus? && !pc.ReadSnapshot? && !pc.WriteTimeout? && !pc.Reread? && !pc.AckOther?
    requires !pc.LoadActive? && !pc.MarkCanceling? && !pc.Finished?
  {
    if pc.Ack? then Expiring(pc.resumed) else if pc.MarkCanceled? then CancelCall else pc.of
  }

  /** The calls left in a cascade, given the most it can list. */
  function CallsLeft(s: State, pc: Pc): nat {
    var n, k := |s.nodes|, |s.children|;
    match pc
    case ListSuspended(_) => 4 * n + k + 6
    case CancelNodes(_, todo) => |todo| + k + 2 * n + 4
    case CancelChildren(_, next, _) => (if next < k then k - next else 0) + 2 * n + 3
    case ReadParked(_, next) => (if next < n then 2 * (n - next) else 0) + 2
    case WriteParked(_, next) => (if next < n then 2 * (n - next) else 0) + 1
    case Ack(_) => 1
    case MarkCanceled => 1
    case _ => 0
  }

  lemma {:induction false} ListShort(s: State, upto: nat)
    requires upto <= |s.nodes|
    ensures |SuspendedList(s, upto)| <= upto
  {
    if upto > 0 { ListShort(s, upto - 1); }
  }

  /** No call of a cascade makes anything held. */
  lemma SweepHeld(s: State, pc: Pc, x: Item)
    requires Sweeping(s, pc) && Held(Call(s, pc).0, x)
    ensures Held(s, x)
  {
  }

  lemma SweepCloser(s: State, pc: Pc)
    requires Sweeping(s, pc) && !pc.Ack? && !pc.MarkCanceled?
    ensures var (s', pc') := Call(s, pc); CallsLeft(s', pc') < CallsLeft(s, pc)
  {
    if pc.ListSuspended? { ListShort(s, |s.nodes|); }
  }

  lemma SweepNodes(s: State, of: Cascade, todo: seq<nat>)
    requires Sweeping(s, CancelNodes(of, todo))
    ensures var (s', pc') := Call(s, CancelNodes(of, todo)); Sweeping(s', pc') && CascadeOf(pc') == of
  {
    var (s', pc') := Call(s, CancelNodes(of, todo));
    forall x | Held(s', x) && x.SuspendedNode? && todo != [] ensures x.node in todo[1..] {
      SweepHeld(s, CancelNodes(of, todo), x);
    }
    forall x | Held(s', x) ensures Held(s, x) { SweepHeld(s, CancelNodes(of, todo), x); }
  }

  lemma SweepOn(s: State, pc: Pc)
    requires Sweeping(s, pc) && !pc.Ack? && !pc.MarkCanceled?
    ensures var (s', pc') := Call(s, pc); Sweeping(s', pc') && CascadeOf(pc') == CascadeOf(pc) && s'.status == s.status
  {
    if pc.CancelNodes? {
      SweepNodes(s, pc.of, pc.todo);
    } else {
      forall x | Held(Call(s, pc).0, x) ensures Held(s, x) { SweepHeld(s, pc, x); }
    }
  }

  /** One undisturbed call keeps the cascade on course and brings it closer. */
  lemma SweepStep(s: State, pc: Pc)
    requires Sweeping(s, pc)
    ensures var (s', pc') := Call(s, pc);
      if pc.Ack? || pc.MarkCanceled? then pc'.Finished? && forall x :: !Held(s', x)
      else Sweeping(s', pc') && CascadeOf(pc') == CascadeOf(pc) && CallsLeft(s', pc') < CallsLeft(s, pc)
           && s'.status == s.status
  {
    if pc.Ack? || pc.MarkCanceled? {
      forall x ensures !Held(Call(s, pc).0, x) { if Held(Call(s, pc).0, x) { SweepHeld(s, pc, x); } }
    } else {
      SweepOn(s, pc);
      SweepCloser(s, pc);
    }
  }

  lemma SweepStops(s: State, pc: Pc)
    requires Sweeping(s, pc)
    ensures Stops(s, Call(s, pc).0)
    ensures !pc.Ack? && !pc.MarkCanceled? ==> Call(s, pc).0.entry == s.entry
  {
  }

  /** The caller's calls with nobody else moving. */
  function Solo(s: State, pc: Pc, calls: nat): (State, Pc)
    decreases calls
  {
    if calls == 0 then (s, pc) else var (s', pc') := Call(s, pc); Solo(s', pc', calls - 1)
  }

  lemma {:induction false} SweepFinishes(s: State, pc: Pc) returns (calls: nat)
    requires Sweeping(s, pc) && (CascadeOf(pc).CancelCall? ==> s.status.Canceling?)
    ensures var (s', pc') := Solo(s, pc, calls);
      && (forall x :: !Held(s', x)) && Stops(s, s')
      && (CascadeOf(pc).CancelCall? ==> pc' == Finished(CancelDone) && s'.status.Canceled? && !s'.entry)
      && (CascadeOf(pc).Expiring? ==>
           && !s'.entry && s'.status == s.status
           && pc' == Finished(if CascadeOf(pc).resumed then Resumed else Expired))
    decreases CallsLeft(s, pc)
  {
    SweepStep(s, pc);
    SweepStops(s, pc);
    var (s', pc') := Call(s, pc);
    if pc.Ack? || pc.MarkCanceled? {
      calls := 1;
      assert Solo(s', pc', 0) == (s', pc');
    } else {
      var more := SweepFinishes(s', pc');
      calls := more + 1;
    }
  }

  /** What an undisturbed expiry answers. */
  function ExpiryAnswer(status: Status, due: bool): Outcome {
    match status
    case Absent => Gone
    case Running => if due then Expired else NotDue
    case Canceling => CancelingNow
    case TimedOut(deadline) => if deadline then Resumed else AlreadyTerminal
    case Success => AlreadyTerminal
    case Failed => AlreadyTerminal
    case Canceled => AlreadyTerminal
  }

  /** What it leaves: an expiry that takes effect, now or for an earlier one, stops all that
      is held and nothing else and withdraws the entry; one that finds the execution ended
      otherwise withdraws the entry; any other changes nothing. */
  ghost predicate ExpiryEffect(s: State, s': State, answer: Outcome) {
    match answer
    case Expired => s'.status == TimedOut(true) && !s'.entry && Stops(s, s') && forall x :: !Held(s', x)
    case Resumed => s'.status == TimedOut(true) && !s'.entry && Stops(s, s') && forall x :: !Held(s', x)
    case AlreadyTerminal => s' == s.(entry := false)
    case _ => s' == s
  }

  /** The rest of an expiry from a given call on. */
  lemma SoloNext(s: State, pc: Pc, calls: nat)
    ensures var (s1, pc1) := Call(s, pc); Solo(s, pc, calls + 1) == Solo(s1, pc1, calls)
  {
  }

  /** Reading the status back after the write: whoever won the race is answered for. */
  lemma RereadAnswers(s: State) returns (calls: nat)
    requires !s.status.Running?
    ensures var (s', pc') := Solo(s, Reread, calls);
      var answer := if s.status == TimedOut(true) then Expired else ExpiryAnswer(s.status, true);
      pc' == Finished(answer) && ExpiryEffect(s, s', answer)
  {
    if s.status == TimedOut(true) {
      var more := SweepFinishes(s, ListSuspended(Expiring(false)));
      calls := more + 1;
      assert Call(s, Reread) == (s, ListSuspended(Expiring(false)));
      SoloNext(s, Reread, more);
    } else if s.status.Absent? || s.status.Canceling? {
      calls := 1;
      var answer := ExpiryAnswer(s.status, true);
      assert Call(s, Reread) == (s, Finished(answer)) && Solo(s, Finished(answer), 0) == (s, Finished(answer));
      SoloNext(s, Reread, 0);
    } else {
      calls := 2;
      var s' := s.(entry := false);
      assert Call(s, Reread) == (s, AckOther) && Call(s, AckOther) == (s', Finished(AlreadyTerminal));
      assert Solo(s', Finished(AlreadyTerminal), 0) == (s', Finished(AlreadyTerminal));
      SoloNext(s, AckOther, 0);
      SoloNext(s, Reread, 1);
    }
  }

  /** The snapshot is read after the status, so another call may have ended or canceled the
      execution in between, or it may be forgotten. Before the deadline that is answered
      "not due"; past it the write is refused and whoever won is answered for, so that a
      timeout written by another call is completed here as well. */
  lemma SnapshotAnswers(s: State, slack: nat) returns (calls: nat)
    requires !s.status.Running?
    ensures var (s', pc') := Solo(s, ReadSnapshot(slack, false), calls);
      var due := s.deadline != 0 && s.now + slack >= s.deadline;
      var answer := if s.status.Absent? then Gone else if !due then NotDue
                    else if s.status == TimedOut(true) then Expired else ExpiryAnswer(s.status, true);
      pc' == Finished(answer) && ExpiryEffect(s, s', answer)
  {
    var pc := ReadSnapshot(slack, false);
    if s.status.Absent? || !DeadlineReached(s.now + slack, s.deadline) {
      calls := 1;
      var answer := if s.status.Absent? then Gone else NotDue;
      assert Call(s, pc) == (s, Finished(answer)) && Solo(s, Finished(answer), 0) == (s, Finished(answer));
      SoloNext(s, pc, 0);
    } else {
      var more := RereadAnswers(s);
      calls := more + 2;
      assert Call(s, pc) == (s, WriteTimeout(slack)) && Call(s, WriteTimeout(slack)) == (s, Reread);
      SoloNext(s, WriteTimeout(slack), more);
      SoloNext(s, pc, more + 1);
    }
  }

  /** An execution found timed out and then forgotten is answered "gone". */
  lemma ForgottenAnswers(s: State, slack: nat)
    requires s.status.Absent?
    ensures Solo(s, ReadSnapshot(slack, true), 1) == (s, Finished(Gone))
  {
    assert Solo(s, Finished(Gone), 0) == (s, Finished(Gone));
    SoloNext(s, ReadSnapshot(slack, true), 0);
  }

  /** The timeout is written past the deadline, everything is stopped and the entry goes. */
  lemma DueExpires(s: State, slack: nat) returns (calls: nat)
    requires s.status.Running? && DeadlineReached(s.now + slack, s.deadline)
    ensures var (s', pc') := Solo(s, ReadStatus(slack), calls);
      pc' == Finished(Expired) && ExpiryEffect(s, s', Expired)
  {
    var s1 := WriteStatus(s, TimedOut(true));
    var more := RereadAnswers(s1);
    calls := more + 3;
    SoloNext(s, ReadStatus(slack), more + 2);
    SoloNext(s, ReadSnapshot(slack, false), more + 1);
    SoloNext(s, WriteTimeout(slack), more);
  }

  /** An undisturbed expiry of any execution in any state: what it answers, and what it
      leaves. */
  lemma ExpiryAnswers(s: State, slack: nat) returns (calls: nat)
    ensures var (s', pc') := Solo(s, ReadStatus(slack), calls);
      var answer := ExpiryAnswer(s.status, s.deadline != 0 && s.now + slack >= s.deadline);
      pc' == Finished(answer) && ExpiryEffect(s, s', answer)
  {
    var answer := ExpiryAnswer(s.status, DeadlineReached(s.now + slack, s.deadline));
    if answer.Expired? {
      calls := DueExpires(s, slack);
    } else if answer.Resumed? {
      var more := SweepFinishes(s, ListSuspended(Expiring(true)));
      calls := more + 2;
      SoloNext(s, ReadStatus(slack), more + 1);
      SoloNext(s, ReadSnapshot(slack, true), more);
    } else if answer.AlreadyTerminal? {
      calls := if s.status.TimedOut? then 3 else 2;
      EndedAnswers(s, slack);
    } else {
      calls := if answer.NotDue? then 2 else 1;
      assert Solo(s, Finished(answer), 0) == (s, Finished(answer));
      SoloNext(s, ReadSnapshot(slack, false), 0);
      SoloNext(s, ReadStatus(slack), calls - 1);
    }
  }

  lemma EndedAnswers(s: State, slack: nat)
    requires ExpiryAnswer(s.status, DeadlineReached(s.now + slack, s.deadline)).AlreadyTerminal?
    ensures Solo(s, ReadStatus(slack), if s.status.TimedOut? then 3 else 2)
         == (s.(entry := false), Finished(AlreadyTerminal))
  {
    var s' := s.(entry := false);
    assert Solo(s', Finished(AlreadyTerminal), 0) == (s', Finished(AlreadyTerminal));
    SoloNext(s, AckOther, 0);
    SoloNext(s, ReadSnapshot(slack, true), 1);
    SoloNext(s, ReadStatus(slack), if s.status.TimedOut? then 2 else 1);
  }

  /** An undisturbed cancel of a live execution marks it canceling, stops all that is held
      and nothing else, and ends it canceled without its entry; one of an execution that has
      ended or is unknown is answered so and changes nothing. */
  lemma CancelAnswers(s: State) returns (calls: nat)
    ensures var (s', pc') := Solo(s, LoadActive, calls);
      if s.status.Running? || s.status.Canceling? then
        && Solo(s, LoadActive, 2).0.status.Canceling?
        && pc' == Finished(CancelDone) && s'.status.Canceled? && !s'.entry && Stops(s, s') && forall x :: !Held(s', x)
      else pc' == Finished(Inactive) && s' == s
  {
    if s.status.Running? || s.status.Canceling? {
      var s1 := WriteStatus(s, Canceling);
      var more := SweepFinishes(s1, ListSuspended(CancelCall));
      calls := more + 2;
      CancelBegins(s, more);
      CancelBegins(s, 0);
    } else {
      calls := 1;
      assert Solo(s, Finished(Inactive), 0) == (s, Finished(Inactive));
      SoloNext(s, LoadActive, 0);
    }
  }

  lemma CancelBegins(s: State, more: nat)
    requires s.status.Running? || s.status.Canceling?
    ensures Solo(s, LoadActive, more + 2) == Solo(WriteStatus(s, Canceling), ListSuspended(CancelCall), more)
    ensures WriteStatus(s, Canceling) == s.(status := Canceling)
  {
    assert Call(s, LoadActive) == (s, MarkCanceling);
    assert Call(s, MarkCanceling) == (WriteStatus(s, Canceling), ListSuspended(CancelCall));
    SoloNext(s, LoadActive, more + 1);
    SoloNext(s, MarkCanceling, more);
  }

  /** A child whose cancel failed: the expiry goes through the remaining children and gives
      up with an error, its entry kept for the next sweep; a cancel goes on regardless. */
  lemma {:induction false} FailedChildAnswers(s: State, of: Cascade, next: nat) returns (calls: nat)
    requires of.Expiring? ==> s.status == TimedOut(true)
    requires of.CancelCall? ==> s.status.Canceling?
    ensures var (s', pc') := Solo(s, CancelChildren(of, next, true), calls);
      && |s'.children| == |s.children|
      && (forall n: nat | n < |s.children| :: if n < next then s'.children[n] == s.children[n]
                                              else !s'.children[n].ChildRunning?)
      && (of.Expiring? ==> pc' == Finished(Errored) && s' == s.(children := s'.children))
      && (of.CancelCall? ==> pc' == Finished(CancelDone) && s'.status.Canceled? && !s'.entry)
    decreases |s.children| - next
  {
    var (s1, pc1) := Call(s, CancelChildren(of, next, true));
    if next < |s.children| {
      var more := FailedChildAnswers(s1, of, next + 1);
      calls := more + 1;
      SoloNext(s, CancelChildren(of, next, true), more);
    } else if of.Expiring? {
      calls := 1;
      assert Solo(s, Finished(Errored), 0) == (s, Finished(Errored));
      SoloNext(s, CancelChildren(of, next, true), 0);
    } else {
      var more := ParkedFinish(s, 0);
      calls := more + 1;
      SoloNext(s, CancelChildren(of, next, true), more);
    }
  }

  lemma {:induction false} ParkedFinish(s: State, next: nat) returns (calls: nat)
    requires s.status.Canceling?
    ensures var (s', pc') := Solo(s, ReadParked(CancelCall, next), calls);
      pc' == Finished(CancelDone) && s'.status.Canceled? && !s'.entry && s'.children == s.children
    decreases |s.nodes| - next
  {
    if next >= |s.nodes| {
      calls := 2;
      var s' := WriteStatus(s, Canceled);
      assert Solo(s', Finished(CancelDone), 0) == (s', Finished(CancelDone));
      SoloNext(s, MarkCanceled, 0);
      SoloNext(s, ReadParked(CancelCall, next), 1);
    } else if next in s.subs && s.nodes[next].Waiting? {
      var s1 := SetNode(s, next, Settled);
      var more := ParkedFinish(s1, next + 1);
      calls := more + 2;
      SoloNext(s, WriteParked(CancelCall, next), more);
      SoloNext(s, ReadParked(CancelCall, next), more + 1);
    } else {
      var more := ParkedFinish(s, next + 1);
      calls := more + 1;
      SoloNext(s, ReadParked(CancelCall, next), more);
    }
  }

  /** An expiry of an execution whose timeout is already written, or a cancel of one
      already canceling, ends with everything stopped: whatever an earlier call left
      behind when it crashed, calling again completes it. */
  lemma CallingAgainCompletes(s: State, slack: nat) returns (calls: nat)
    requires s.status == TimedOut(true) || s.status.Canceling?
    ensures var (s', pc') := Solo(s, if s.status.Canceling? then LoadActive else ReadStatus(slack), calls);
      && (forall x :: !Held(s', x))
      && (if s.status.Canceling? then s'.status.Canceled? && pc' == Finished(CancelDone)
          else !s'.entry && s'.status == s.status && pc' == Finished(Resumed))
  {
    if s.status.Canceling? { calls := CancelAnswers(s); } else { calls := ExpiryAnswers(s, slack); }
  }

  // ---- A caller in the midst of others ----

  /** The two states differ at most in what is owed and in who is calling. */
  predicate SameStore(s: State, t: State) {
    && s.status == t.status && s.nodes == t.nodes && s.children == t.children && s.subs == t.subs
    && s.entry == t.entry && s.now == t.now && s.deadline == t.deadline
  }

  lemma {:induction false} SameList(s: State, t: State, upto: nat)
    requires SameStore(s, t) && upto <= |s.nodes|
    ensures SuspendedList(s, upto) == SuspendedList(t, upto)
  {
    if upto > 0 { SameList(s, t, upto - 1); }
  }

  lemma CascadeSame(s: State, t: State, pc: Pc)
    requires SameStore(s, t) && (pc.CancelNodes? || pc.CancelChildren? || pc.ReadParked? || pc.WriteParked?)
    ensures SameStore(Call(s, pc).0, Call(t, pc).0) && Call(s, pc).1 == Call(t, pc).1
  {
  }

  lemma CallSame(s: State, t: State, pc: Pc)
    requires SameStore(s, t)
    ensures SameStore(Call(s, pc).0, Call(t, pc).0) && Call(s, pc).1 == Call(t, pc).1
  {
    if pc.CancelNodes? || pc.CancelChildren? || pc.ReadParked? || pc.WriteParked? {
      CascadeSame(s, t, pc);
    } else {
      SameList(s, t, |s.nodes|);
    }
  }

  function Goes(c: nat, n: nat): seq<Action> { if n == 0 then [] else [Go(c)] + Goes(c, n - 1) }

  lemma GoCalls(guarded: bool, s: State, t: State, c: nat, pc: Pc)
    requires c in s.callers && s.callers[c] == pc && SameStore(s, t)
    ensures var s' := Step(guarded, s, Go(c));
      c in s'.callers && s'.callers[c] == Call(t, pc).1 && SameStore(s', Call(t, pc).0)
  {
    CallSame(s, t, pc);
  }

  lemma {:induction false} GoesSolo(guarded: bool, s: State, t: State, c: nat, pc: Pc, calls: nat)
    requires c in s.callers && s.callers[c] == pc && SameStore(s, t)
    ensures var (t', pc') := Solo(t, pc, calls);
      var s' := Run(guarded, s, Goes(c, calls));
      c in s'.callers && s'.callers[c] == pc' && SameStore(s', t')
    decreases calls
  {
    if calls > 0 {
      GoCalls(guarded, s, t, c, pc);
      var (t1, pc1) := Call(t, pc);
      assert Goes(c, calls)[1..] == Goes(c, calls - 1);
      GoesSolo(guarded, Step(guarded, s, Go(c)), t1, c, pc1, calls - 1);
    }
  }

  /** Anyone may call at any time, an expiry with at most the clock slack or a cancel, and if
      nobody else moves the call does what it does alone. */
  lemma UndisturbedCall(guarded: bool, s: State, c: nat, pc: Pc, calls: nat)
    requires c !in s.callers && (pc == LoadActive || (pc.ReadStatus? && pc.slack <= 50))
    ensures var (t', pc') := Solo(s, pc, calls);
      var s' := Run(guarded, Step(guarded, s, Start(c, pc)), Goes(c, calls));
      c in s'.callers && s'.callers[c] == pc' && SameStore(s', t')
  {
    GoesSolo(guarded, Step(guarded, s, Start(c, pc)), s, c, pc, calls);
  }

  /** A caller starts at the beginning, under its own name, and may vanish at any point
      leaving the store as it is; a child that cannot be canceled is noted and passed over. */
  lemma CallersComeAndGo(guarded: bool, s: State, c: nat, pc: Pc)
    ensures var s' := Step(guarded, s, Start(c, pc));
      s' != s ==> c !in s.callers && (pc == LoadActive || (pc.ReadStatus? && pc.slack <= 50))
    ensures Step(guarded, s, Crash(c)) == s.(callers := s.callers - {c})
    ensures c in s.callers && pc == s.callers[c] && pc.CancelChildren? ==>
      Step(guarded, s, ChildFails(c)) ==
        if pc.next < |s.children| then s.(callers := s.callers[c := CancelChildren(pc.of, pc.next + 1, true)]) else s
  {
  }

  // ---- The rest of the system ----

  /** Where a node goes when something other than a cascade happens to it. */
  function NodeAfter(node: Node, live: bool, a: Action): Node {
    match node
    case Busy =>
      if a.Suspend? then Suspended else if a.Park? then Waiting else if a.Conclude? && live then Settled else Busy
    case Suspended => if a.Resume? then Busy else Suspended
    case Waiting =>
      if a.Conclude? && live then Settled
      else if a.Unpark? then if a.settles then Settled else Busy
      else Waiting
    case Settled => Settled
  }

  predicate Moves(a: Action) { a.Conclude? || a.Resume? || a.Suspend? || a.Park? || a.Unpark? }

  /** A commit that concludes a live execution ends it as its verdict says and drops the
      entry, unless the store guards it during a cancel. */
  lemma ConcludeEnds(guarded: bool, s: State, n: nat, fails: bool, last: bool)
    requires n < |s.nodes| && (s.nodes[n].Busy? || s.nodes[n].Waiting?) && (s.status.Running? || s.status.Canceling?)
    ensures var s' := Step(guarded, s, Conclude(n, fails, last));
      if last && !(guarded && s.status.Canceling?)
      then s'.status == (if fails then Failed else Success) && !s'.entry
      else s'.status == s.status && s'.entry == s.entry
  {
  }

  /** A step of the rest of the system moves the node it names along its diagram and no
      other node; a commit counts only while the execution is live. */
  lemma NodesFollow(guarded: bool, s: State, a: Action, n: nat)
    requires Moves(a) && n < |s.nodes|
    ensures Step(guarded, s, a).nodes[n]
         == if n == a.node then NodeAfter(s.nodes[n], s.status.Running? || s.status.Canceling?, a) else s.nodes[n]
  {
  }

  lemma ChildrenFollow(guarded: bool, s: State, n: nat, k: nat)
    requires n < |s.children| && k < |s.children|
    ensures Step(guarded, s, SpawnChild(n)).children[k] == if k == n then ChildRunning else s.children[k]
    ensures Step(guarded, s, EndChild(n)).children[k]
         == if k == n && s.children[k].ChildRunning? then ChildOver else s.children[k]
  {
  }

  /** A repair drops the entry of an execution that is unknown or has ended otherwise than
      by a timeout; ended executions may be forgotten. */
  lemma RepairDrops(guarded: bool, s: State)
    ensures Step(guarded, s, Repair).entry <==>
      s.entry && (s.status.Running? || s.status.Canceling? || s.status.TimedOut?)
    ensures Step(guarded, s, Repair).status == s.status
    ensures Step(guarded, s, Vanish).status == if Terminal(s.status) then Absent else s.status
  {
  }

  lemma TimePasses(guarded: bool, s: State)
    ensures Step(guarded, s, TimeoutOther).status == if s.status.Running? then TimedOut(false) else s.status
    ensures Step(guarded, s, Tick).now == s.now + 1
  {
  }

  /** An execution that ended otherwise than by a timeout has no entry. */
  predicate EndedClean(s: State) { s.status.Success? || s.status.Failed? || s.status.Canceled? ==> !s.entry }

  lemma StepEndedClean(guarded: bool, s: State, a: Action)
    requires EndedClean(s)
    ensures EndedClean(Step(guarded, s, a))
  {
  }

  /** Over any interleaving an execution that succeeded, failed or was canceled has no
      deadline entry left. */
  lemma {:induction false} EndedHasNoEntry(guarded: bool, s: State, actions: seq<Action>)
    requires EndedClean(s)
    ensures EndedClean(Run(guarded, s, actions))
    decreases |actions|
  {
    if actions != [] {
      StepEndedClean(guarded, s, actions[0]);
      EndedHasNoEntry(guarded, Step(guarded, s, actions[0]), actions[1..]);
    }
  }
}
