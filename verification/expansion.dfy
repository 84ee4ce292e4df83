/** The barrier of a map node: one activation of the node, its lease generations,
    and the batches each generation starts. Batch reports may be duplicated,
    reordered, late or made by the engine on a batch's behalf. */
module Expansion {

  datatype Row = Idle | Running(token: nat) | Committing(token: nat) | Waiting(token: nat) | Terminal

  datatype Slot = Unreported | Reported(result: int)

  /** How the node ended: at the barrier with the batches' results, or by a verdict
      on the node's own report. */
  datatype Ending = Barrier(token: nat, results: seq<int>) | Own(token: nat)

  /** A caller that saw the last batch report and is about to commit the node. */
  datatype Finisher = Finisher(token: nat, results: seq<int>)

  /** `children` holds the batches of every generation, keyed by its lease. */
  datatype State = State(
    row: Row, nextToken: nat, children: map<nat, seq<Slot>>, finishers: set<Finisher>, endings: seq<Ending>)

  datatype Action =
    | Acquire
    | Claim(token: nat)
    | Begin(token: nat, batches: nat)
    | Report(token: nat, batch: nat, result: int)
    | Finish(finisher: Finisher)
    | Conclude(token: nat)
    | Revoke(token: nat)

  predicate AllIn(slots: seq<Slot>) { forall k | 0 <= k < |slots| :: slots[k].Reported? }

  /** The results in batch order. */
  function Results(slots: seq<Slot>): (r: seq<int>)
    requires AllIn(slots)
    ensures |r| == |slots| && forall k | 0 <= k < |r| :: r[k] == slots[k].result
  {
    seq(|slots|, k requires 0 <= k < |slots| => slots[k].result)
  }

  predicate Holds(row: Row, token: nat) { (row.Running? || row.Committing? || row.Waiting?) && row.token == token }

  /** The barrier: only the current generation counts, and a batch's first report. */
  function ReportStep(s: State, token: nat, batch: nat, result: int): State {
    if s.row != Waiting(token) || token !in s.children || batch >= |s.children[token]| then s
    else
      var slots := s.children[token];
      var slots' := if slots[batch].Unreported? then slots[batch := Reported(result)] else slots;
      var s1 := s.(children := s.children[token := slots']);
      if AllIn(slots') then s1.(finishers := s.finishers + {Finisher(token, Results(slots'))}) else s1
  }

  function Step(s: State, a: Action): State {
    match a
    case Acquire =>
      if s.row.Idle? || s.row.Running? then s.(row := Running(s.nextToken), nextToken := s.nextToken + 1) else s
    case Claim(token) => if s.row == Running(token) then s.(row := Committing(token)) else s
    case Begin(token, batches) =>
      if s.row != Committing(token) then s
      else if batches == 0 then s.(row := Terminal, endings := s.endings + [Barrier(token, [])])
      else s.(row := Waiting(token), children := s.children[token := seq(batches, _ => Unreported)])
    case Report(token, batch, result) => ReportStep(s, token, batch, result)
    case Finish(f) =>
      if f in s.finishers && s.row == Waiting(f.token)
      then s.(row := Terminal, endings := s.endings + [Barrier(f.token, f.results)]) else s
    case Conclude(token) =>
      // the commit fence admits a running, committing or waiting row
      if Holds(s.row, token) then s.(row := Terminal, endings := s.endings + [Own(token)]) else s
    case Revoke(token) => if Holds(s.row, token) then s.(row := Idle) else s
  }

  function Run(s: State, actions: seq<Action>): State
    decreases |actions|
  {
    if actions == [] then s else Run(Step(s, actions[0]), actions[1..])
  }

  const INITIAL := State(Idle, 1, map[], {}, [])

  predicate FinisherOk(s: State, f: Finisher) {
    f.token in s.children && AllIn(s.children[f.token]) && f.results == Results(s.children[f.token])
  }

  predicate EndingOk(s: State, e: Ending) {
    e.Barrier? ==>
      if e.token in s.children then AllIn(s.children[e.token]) && e.results == Results(s.children[e.token])
      else e.results == []
  }

  /** A generation has batches, and once all have reported someone is about to finish it. */
  predicate BarrierOk(s: State, token: nat)
    requires token in s.children
  {
    var slots := s.children[token];
    slots != [] && (AllIn(slots) ==> Finisher(token, Results(slots)) in s.finishers)
  }

  predicate Inv(s: State) {
    && (forall t :: t in s.children ==> t < s.nextToken)
    && (s.row.Running? || s.row.Committing? ==> s.row.token < s.nextToken && s.row.token !in s.children)
    && (s.row.Waiting? ==> s.row.token in s.children && s.row.token < s.nextToken && BarrierOk(s, s.row.token))
    && (forall f :: f in s.finishers ==> FinisherOk(s, f))
    && (if s.row.Terminal? then |s.endings| == 1 && EndingOk(s, s.endings[0]) else s.endings == [])
  }

  lemma ReportKeeps(s: State, token: nat, batch: nat, result: int)
    requires Inv(s)
    ensures Inv(ReportStep(s, token, batch, result))
  {
    var s' := ReportStep(s, token, batch, result);
    forall f | f in s'.finishers ensures FinisherOk(s', f) {
      if f in s.finishers { assert FinisherOk(s, f); }
    }
  }

  lemma StepKeeps(s: State, a: Action)
    requires Inv(s)
    ensures Inv(Step(s, a))
  {
    if a.Report? { ReportKeeps(s, a.token, a.batch, a.result); }
    else {
      var s' := Step(s, a);
      forall f | f in s'.finishers ensures FinisherOk(s', f) { assert FinisherOk(s, f); }
      if a.Finish? && a.finisher in s.finishers { assert FinisherOk(s, a.finisher); }
      if a.Begin? && s'.row == Waiting(a.token) && s' != s { assert s'.children[a.token][0].Unreported?; }
    }
  }

  lemma {:induction false} RunKeeps(s: State, actions: seq<Action>)
    requires Inv(s)
    ensures Inv(Run(s, actions))
    decreases |actions|
  {
    if actions != [] {
      StepKeeps(s, actions[0]);
      RunKeeps(Step(s, actions[0]), actions[1..]);
    }
  }

  /** Whatever happens, the node ends at most once, and a barrier ending comes after
      every batch of its generation has reported and carries one result per batch,
      in batch order. */
  lemma BarrierHolds(actions: seq<Action>)
    ensures var s := Run(INITIAL, actions);
      |s.endings| <= 1 && (s.endings != [] && s.endings[0].Barrier? ==> EndingOk(s, s.endings[0]))
  {
    RunKeeps(INITIAL, actions);
  }

  /** A batch's first report under its generation is the one that counts. */
  lemma {:induction false} FirstReportWins(s: State, actions: seq<Action>, token: nat, batch: nat)
    requires Inv(s) && token in s.children && batch < |s.children[token]| && s.children[token][batch].Reported?
    ensures var s' := Run(s, actions);
      token in s'.children && |s'.children[token]| == |s.children[token]|
        && s'.children[token][batch] == s.children[token][batch]
    decreases |actions|
  {
    if actions != [] {
      StepKeeps(s, actions[0]);
      FirstReportWins(Step(s, actions[0]), actions[1..], token, batch);
    }
  }

  // ---- Whose result is whose ----

  /** A report of the waiting generation settles its own batch's slot, with its own result,
      if that batch had not reported; every other slot of every generation stays. */
  lemma ReportSettlesItsBatch(s: State, token: nat, batch: nat, result: int, t: nat, k: nat)
    requires t in s.children && k < |s.children[t]|
    ensures var s' := Step(s, Report(token, batch, result));
      && t in s'.children && |s'.children[t]| == |s.children[t]|
      && s'.children[t][k] ==
           if s.row == Waiting(token) && t == token && k == batch && s.children[t][k].Unreported?
           then Reported(result) else s.children[t][k]
  {
  }

  /** The first report made for a batch while its generation waited. */
  function FirstReport(s: State, actions: seq<Action>, token: nat, k: nat): Slot
    decreases |actions|
  {
    if actions == [] then Unreported
    else if actions[0].Report? && actions[0].token == token && actions[0].batch == k && s.row == Waiting(token)
    then Reported(actions[0].result)
    else FirstReport(Step(s, actions[0]), actions[1..], token, k)
  }

  /** The number of batches the generation was begun with. */
  function Begun(s: State, actions: seq<Action>, token: nat): nat
    decreases |actions|
  {
    if actions == [] then 0
    else if actions[0].Begin? && actions[0].token == token && actions[0].batches > 0 && s.row == Committing(token)
    then actions[0].batches
    else Begun(Step(s, actions[0]), actions[1..], token)
  }

  function SlotOf(s: State, token: nat, k: nat): Slot {
    if token in s.children && k < |s.children[token]| then s.children[token][k] else Unreported
  }

  /** A generation's batches are fixed when it begins. */
  lemma {:induction false} ChildrenStay(s: State, actions: seq<Action>, token: nat)
    requires Inv(s) && token in s.children
    ensures token in Run(s, actions).children && |Run(s, actions).children[token]| == |s.children[token]|
    decreases |actions|
  {
    if actions != [] {
      StepKeeps(s, actions[0]);
      ChildrenStay(Step(s, actions[0]), actions[1..], token);
    }
  }

  /** A slot holds what it held, or else the first report made for it since. */
  lemma {:induction false} SlotsAreFirstReports(s: State, actions: seq<Action>, token: nat, k: nat)
    requires Inv(s) && token in Run(s, actions).children && k < |Run(s, actions).children[token]|
    ensures Run(s, actions).children[token][k]
         == if SlotOf(s, token, k).Reported? then SlotOf(s, token, k) else FirstReport(s, actions, token, k)
    decreases |actions|
  {
    if actions != [] {
      var a, s' := actions[0], Step(s, actions[0]);
      StepKeeps(s, a);
      SlotsAreFirstReports(s', actions[1..], token, k);
      if token in s.children {
        ChildrenStay(s, actions, token);
        if a.Report? { ReportSettlesItsBatch(s, a.token, a.batch, a.result, token, k); }
      }
    }
  }

  lemma {:induction false} BegunFixes(s: State, actions: seq<Action>, token: nat)
    requires Inv(s) && token !in s.children && token in Run(s, actions).children
    ensures |Run(s, actions).children[token]| == Begun(s, actions, token)
    decreases |actions|
  {
    if actions != [] {
      var s' := Step(s, actions[0]);
      StepKeeps(s, actions[0]);
      if token in s'.children {
        ChildrenStay(s', actions[1..], token);
      } else {
        BegunFixes(s', actions[1..], token);
      }
    }
  }

  /** Over any run, a barrier ending carries one result per batch its generation began with:
      for each batch, the result of the first report made for that batch while the
      generation waited. */
  lemma BarrierResults(actions: seq<Action>)
    ensures var s := Run(INITIAL, actions);
      s.endings != [] && s.endings[0].Barrier? ==>
        var e := s.endings[0];
        && (e.token in s.children ==> |e.results| == Begun(INITIAL, actions, e.token))
        && (e.token !in s.children ==> e.results == [])
        && forall k | 0 <= k < |e.results| :: Reported(e.results[k]) == FirstReport(INITIAL, actions, e.token, k)
  {
    RunKeeps(INITIAL, actions);
    var s := Run(INITIAL, actions);
    if s.endings != [] && s.endings[0].Barrier? && s.endings[0].token in s.children {
      var e := s.endings[0];
      BegunFixes(INITIAL, actions, e.token);
      forall k | 0 <= k < |e.results| ensures Reported(e.results[k]) == FirstReport(INITIAL, actions, e.token, k) {
        SlotsAreFirstReports(INITIAL, actions, e.token, k);
      }
    }
  }

  /** In every reachable state in which all batches of the waiting generation have reported,
      finishing it ends the node with their results. */
  lemma AllReportedFinishes(actions: seq<Action>)
    ensures var s := Run(INITIAL, actions);
      s.row.Waiting? && s.row.token in s.children && AllIn(s.children[s.row.token]) ==>
        var results := Results(s.children[s.row.token]);
        var s' := Step(s, Finish(Finisher(s.row.token, results)));
        s'.row.Terminal? && s'.endings == [Barrier(s.row.token, results)]
  {
    RunKeeps(INITIAL, actions);
  }

  /** From every reachable waiting state the reports still missing, in batch order, complete
      the barrier. */
  lemma {:induction false} MissingReports(s: State, token: nat, k: nat, result: int) returns (reports: seq<Action>)
    requires Inv(s) && s.row == Waiting(token) && k <= |s.children[token]|
    requires forall j | k <= j < |s.children[token]| :: s.children[token][j].Reported?
    ensures var s' := Run(s, reports);
      && Inv(s') && s'.row == Waiting(token) && |s'.children[token]| == |s.children[token]|
      && AllIn(s'.children[token])
      && forall j | 0 <= j < |s.children[token]| :: s'.children[token][j]
           == if s.children[token][j].Reported? then s.children[token][j] else Reported(result)
    decreases k
  {
    if k == 0 {
      reports := [];
    } else {
      var a := Report(token, k - 1, result);
      StepKeeps(s, a);
      forall j: nat | j < |s.children[token]|
        ensures Step(s, a).children[token][j] ==
          if j == k - 1 && s.children[token][j].Unreported? then Reported(result) else s.children[token][j]
      {
        ReportSettlesItsBatch(s, token, k - 1, result, token, j);
      }
      var rest := MissingReports(Step(s, a), token, k - 1, result);
      reports := [a] + rest;
    }
  }

  lemma {:induction false} RunJoins(s: State, actions: seq<Action>, more: seq<Action>)
    ensures Run(s, actions + more) == Run(Run(s, actions), more)
    decreases |actions|
  {
    if actions == [] {
      assert actions + more == more;
    } else {
      assert (actions + more)[0] == actions[0] && (actions + more)[1..] == actions[1..] + more;
      RunJoins(Step(s, actions[0]), actions[1..], more);
    }
  }

  /** Every reachable waiting state can be carried to the barrier: what has been reported is
      kept and the batches that report later are those that were missing. */
  lemma WaitingCanFinish(actions: seq<Action>, result: int) returns (more: seq<Action>)
    requires Run(INITIAL, actions).row.Waiting?
    ensures var s, s' := Run(INITIAL, actions), Run(INITIAL, actions + more);
      && s.row.token in s.children && s'.row.Terminal? && |s'.endings| == 1 && s'.endings[0].Barrier?
      && s'.endings[0].token == s.row.token && |s'.endings[0].results| == |s.children[s.row.token]|
      && forall j | 0 <= j < |s.children[s.row.token]| :: s'.endings[0].results[j]
           == if s.children[s.row.token][j].Reported? then s.children[s.row.token][j].result else result
  {
    RunKeeps(INITIAL, actions);
    var s := Run(INITIAL, actions);
    var reports := MissingReports(s, s.row.token, |s.children[s.row.token]|, result);
    RunJoins(INITIAL, actions, reports);
    var finish := Finish(Finisher(s.row.token, Results(Run(s, reports).children[s.row.token])));
    AllReportedFinishes(actions + reports);
    RunJoins(INITIAL, actions + reports, [finish]);
    assert Run(Run(s, reports), [finish]) == Step(Run(s, reports), finish) by { assert [finish][1..] == []; }
    more := reports + [finish];
    assert actions + more == actions + reports + [finish];
  }

  /** A row at work can be taken back and begun again: the new generation has a fresh lease
      and as many unreported batches as it is given, or ends at once without any. */
  lemma BeginsAgain(s: State, batches: nat)
    requires Inv(s) && (s.row.Running? || s.row.Committing? || s.row.Waiting?)
    ensures var s1 := Step(s, Revoke(s.row.token));
      var s2 := Step(s1, Acquire);
      var s3 := Step(s2, Claim(s.nextToken));
      var s4 := Step(s3, Begin(s.nextToken, batches));
      && s1.row.Idle? && s2.row == Running(s.nextToken) && s3.row == Committing(s.nextToken)
      && s.nextToken !in s.children && s4.nextToken == s.nextToken + 1
      && (batches > 0 ==>
            && s4.row == Waiting(s.nextToken)
            && s4.children == s.children[s.nextToken := seq(batches, _ => Unreported)])
      && (batches == 0 ==> s4.row.Terminal? && s4.endings == [Barrier(s.nextToken, [])])
  {
  }

  /** A verdict on the node's own report ends it under its current lease, and only then. */
  lemma OwnVerdictIff(s: State, token: nat)
    ensures var s' := Step(s, Conclude(token));
      if (s.row.Running? || s.row.Committing? || s.row.Waiting?) && s.row.token == token
      then s'.row.Terminal? && s'.endings == s.endings + [Own(token)]
      else s' == s
  {
  }

  /** Some batch of the generation that ended the node had not reported. */
  predicate EndsEarly(s: State) {
    s.endings != [] && s.endings[0].token in s.children && !AllIn(s.children[s.endings[0].token])
  }

  /** The barrier can be bypassed only by a verdict on the node's own report that
      arrives while its batches run: a step ends the node early if and only if it
      concludes a waiting row with a batch outstanding. */
  lemma EndsEarlyIff(s: State, a: Action)
    requires Inv(s) && !s.row.Terminal?
    ensures EndsEarly(Step(s, a)) <==> a.Conclude? && s.row == Waiting(a.token) && !AllIn(s.children[a.token])
  {
    if a.Finish? && a.finisher in s.finishers { assert FinisherOk(s, a.finisher); }
  }

  /** An error report under the map node's own lease, after the expansion started:
      the node ends while its batch is still running. */
  lemma LateErrorBypassesBarrier()
    ensures EndsEarly(Run(INITIAL, [Acquire, Claim(1), Begin(1, 1), Conclude(1)]))
  {
    var s1 := Step(INITIAL, Acquire);
    var s2 := Step(s1, Claim(1));
    var s3 := Step(s2, Begin(1, 1));
    var s4 := Step(s3, Conclude(1));
    assert s3.children[1][0] == Unreported;
    assert s4.endings == [Own(1)];
    assert Run(s3, [Conclude(1)]) == Run(s4, []) by { assert [Conclude(1)][1..] == []; }
    assert Run(s2, [Begin(1, 1), Conclude(1)]) == Run(s3, [Conclude(1)]) by {
      assert [Begin(1, 1), Conclude(1)][1..] == [Conclude(1)];
    }
    assert Run(s1, [Claim(1), Begin(1, 1), Conclude(1)]) == Run(s2, [Begin(1, 1), Conclude(1)]) by {
      assert [Claim(1), Begin(1, 1), Conclude(1)][1..] == [Begin(1, 1), Conclude(1)];
    }
    assert [Acquire, Claim(1), Begin(1, 1), Conclude(1)][1..] == [Claim(1), Begin(1, 1), Conclude(1)];
  }
}
