/** The outbox's delivery leases: a lease has no identity but its deadline, and that fences
    one deliverer from another. */
module OutboxLeases {
  import opened Common
  import opened Outbox

  /** Deadlines a worker knows were granted, and the latest one of an id only to its owner. */
  predicate TokensOk(s: State, w: nat, tokens: map<Id, nat>) {
    forall id :: id in tokens ==>
      && id in s.granted && tokens[id] <= s.granted[id]
      && (tokens[id] == s.granted[id] ==> id in s.owner && s.owner[id] == w)
  }

  function RoundTokens(round: Round): map<Id, nat> {
    match round
    case Idle => map[]
    case Asking(asked) => asked
    case Answered(answer) => answer
  }

  predicate WorkerFenced(s: State, w: nat)
    requires w in s.workers
  {
    TokensOk(s, w, s.workers[w].held) && TokensOk(s, w, RoundTokens(s.workers[w].round))
  }

  predicate Fenced(s: State) {
    && (forall id :: id in s.entries ==>
         s.entries[id].until == 0 || (id in s.granted && s.entries[id].until == s.granted[id]))
    && (forall w :: w in s.workers ==> WorkerFenced(s, w))
  }

  /** The grant's deadline: a claim's is later than every deadline its entries were granted,
      a renewal's not earlier than the one it extends. */
  predicate Later(s: State, a: Action) {
    match a
    case ClaimBatch(_, time, ids) => Claimable(s, a) ==> forall id :: id in ids ==> time + LEASE_TTL > Granted(s, id)
    case CallRenew(w, time) =>
      w in s.workers && s.workers[w].round.Asking? ==>
        forall id :: id in s.workers[w].round.asked && Renewable(s.entries, id, s.workers[w].round.asked[id], time) ==>
          time + LEASE_TTL >= s.entries[id].until
    case _ => true
  }

  /** In the run the clock moves on between two claims of one entry and does not go back
      between its renewals. Nothing is asked of grants of different entries. */
  ghost predicate Clocked(limit: nat, s: State, actions: seq<Action>)
    decreases |actions|
  {
    actions == [] || (Later(s, actions[0]) && Clocked(limit, Step(limit, s, actions[0]), actions[1..]))
  }

  lemma ClaimTokens(s: State, a: Action, x: nat, tokens: map<Id, nat>)
    requires Fenced(s) && a.ClaimBatch? && Claimable(s, a) && Later(s, a) && TokensOk(s, x, tokens)
    ensures TokensOk(ClaimStep(s, a.worker, a.time, a.ids), x, tokens)
  {
  }

  lemma ClaimFenced(s: State, a: Action)
    requires Fenced(s) && a.ClaimBatch? && Claimable(s, a) && Later(s, a)
    ensures Fenced(ClaimStep(s, a.worker, a.time, a.ids))
  {
    var s' := ClaimStep(s, a.worker, a.time, a.ids);
    forall w | w in s'.workers ensures WorkerFenced(s', w) {
      if w != a.worker {
        assert WorkerFenced(s, w);
        ClaimTokens(s, a, w, s.workers[w].held);
        ClaimTokens(s, a, w, RoundTokens(s.workers[w].round));
      }
    }
  }

  /** Tokens survive a renewal: what it grants goes to the owner and is later than all. */
  lemma TokensSurvive(s: State, w: nat, time: nat, x: nat, tokens: map<Id, nat>)
    requires Fenced(s) && w in s.workers && s.workers[w].round.Asking? && Later(s, CallRenew(w, time))
    requires TokensOk(s, x, tokens)
    ensures TokensOk(RenewStep(s, w, time), x, tokens)
  {
    assert WorkerFenced(s, w);
  }

  lemma RenewFenced(s: State, w: nat, time: nat)
    requires Fenced(s) && w in s.workers && s.workers[w].round.Asking? && Later(s, CallRenew(w, time))
    ensures Fenced(RenewStep(s, w, time))
  {
    var s' := RenewStep(s, w, time);
    assert WorkerFenced(s, w);
    forall x | x in s'.workers ensures WorkerFenced(s', x) {
      assert WorkerFenced(s, x);
      TokensSurvive(s, w, time, x, s.workers[x].held);
      TokensSurvive(s, w, time, x, RoundTokens(s.workers[x].round));
      if x == w { AnswerFenced(s, w, time); }
    }
  }

  lemma AnswerFenced(s: State, w: nat, time: nat)
    requires Fenced(s) && w in s.workers && s.workers[w].round.Asking? && Later(s, CallRenew(w, time))
    ensures TokensOk(RenewStep(s, w, time), w, RoundTokens(RenewStep(s, w, time).workers[w].round))
  {
    assert WorkerFenced(s, w);
  }

  /** Tokens only dropped, or moved between the keeper and its round. */
  predicate Fewer(tokens: map<Id, nat>, worker: Worker) {
    forall id :: id in tokens ==>
      || (id in worker.held && tokens[id] == worker.held[id])
      || (id in RoundTokens(worker.round) && tokens[id] == RoundTokens(worker.round)[id])
  }

  /** Steps that grant nothing: leases are only cleared and tokens only dropped. */
  lemma QuietFenced(s: State, s': State)
    requires Fenced(s) && s'.granted == s.granted && s'.owner == s.owner
    requires forall id :: id in s'.entries ==>
      s'.entries[id].until == 0 || (id in s.entries && s'.entries[id].until == s.entries[id].until)
    requires forall w :: w in s'.workers ==>
      w in s.workers && Fewer(s'.workers[w].held, s.workers[w]) && Fewer(RoundTokens(s'.workers[w].round), s.workers[w])
    ensures Fenced(s')
  {
    forall w | w in s'.workers ensures WorkerFenced(s', w) { assert WorkerFenced(s, w); }
  }

  lemma CallQuiet(s: State, flush: Flush, limit: nat)
    ensures var s' := StoreCall(s, flush, limit);
      && s'.granted == s.granted && s'.owner == s.owner
      && forall id :: id in s'.entries ==>
           id in s.entries && (s'.entries[id].until == 0 || s'.entries[id].until == s.entries[id].until)
  {
  }

  lemma NextHeld(worker: Worker)
    ensures NextWorker(worker).round == worker.round
    ensures forall id :: id in NextWorker(worker).held ==>
      id in worker.held && NextWorker(worker).held[id] == worker.held[id]
  {
  }

  lemma ProceedFenced(limit: nat, s: State, w: nat)
    requires Fenced(s) && w in s.workers
    ensures Fenced(ProceedStep(s, w, limit))
  {
    CallQuiet(s, s.workers[w].flush, limit);
    NextHeld(s.workers[w]);
    QuietFenced(s, ProceedStep(s, w, limit));
  }

  lemma DropFenced(s: State, w: nat)
    requires Fenced(s)
    ensures Fenced(s.(workers := s.workers - {w}))
  {
    QuietFenced(s, s.(workers := s.workers - {w}));
  }

  lemma FailFenced(s: State, w: nat)
    requires Fenced(s) && w in s.workers
    ensures Fenced(FailStep(s, w))
  {
    if s.workers[w].flush.Acking? {
      DropFenced(s, w);
    } else {
      NextHeld(s.workers[w]);
      QuietFenced(s, WithWorker(s, w, NextWorker(s.workers[w])));
    }
  }

  lemma KeeperFewer(worker: Worker, move: Move)
    ensures Fewer(KeeperStep(worker, move).held, worker) && Fewer(RoundTokens(KeeperStep(worker, move).round), worker)
  {
  }

  lemma KeeperFenced(s: State, w: nat, move: Move)
    requires Fenced(s) && w in s.workers
    ensures Fenced(WithWorker(s, w, KeeperStep(s.workers[w], move)))
  {
    KeeperFewer(s.workers[w], move);
    QuietFenced(s, WithWorker(s, w, KeeperStep(s.workers[w], move)));
  }

  lemma DeliverFenced(s: State, w: nat, d: Delivery)
    requires Fenced(s) && w in s.workers && s.workers[w].flush.Deliver? && s.workers[w].flush.batch != []
    ensures Fenced(DeliverStep(s, w, d))
  {
    QuietFenced(s, DeliverStep(s, w, d));
  }

  lemma StepFenced(limit: nat, s: State, a: Action)
    requires Fenced(s) && Later(s, a)
    ensures Fenced(Step(limit, s, a))
  {
    match a
    case Put(id, system, available) => QuietFenced(s, PutEntry(s, id, system, available));
    case ClaimBatch(_, _, _) => if Claimable(s, a) { ClaimFenced(s, a); }
    case DeliverHead(w, d) => if Deliverable(s, w, d) { DeliverFenced(s, w, d); }
    case Proceed(w) => if w in s.workers { ProceedFenced(limit, s, w); }
    case CallFails(w) => if w in s.workers { FailFenced(s, w); }
    case CallRenew(w, time) => if w in s.workers && s.workers[w].round.Asking? { RenewFenced(s, w, time); }
    case Crash(w) => DropFenced(s, w);
    case Keep(w, move) => if w in s.workers { KeeperFenced(s, w, move); }
  }

  lemma {:induction false} RunFenced(limit: nat, s: State, actions: seq<Action>)
    requires Fenced(s) && Clocked(limit, s, actions)
    ensures Fenced(Run(limit, s, actions))
    decreases |actions|
  {
    if actions != [] {
      StepFenced(limit, s, actions[0]);
      RunFenced(limit, Step(limit, s, actions[0]), actions[1..]);
    }
  }

  /** The worker can still present the deadline the store has on record: it holds it, has
      copied it into a call in flight, or has it in an answer it will merge. */
  predicate Presents(s: State, w: nat, id: Id) {
    && w in s.workers && id in s.entries && s.entries[id].until > 0
    && var worker, until := s.workers[w], s.entries[id].until;
       || (id in worker.held && worker.held[id] == until)
       || (worker.round.Asking? && id in worker.round.asked && worker.round.asked[id] == until)
       || (worker.round.Answered? && id in worker.held && id in worker.round.answer && worker.round.answer[id] == until)
  }

  /** In every state reached while the clock advances between claims of one entry, at most
      one deliverer can present the deadline the store holds, in flight or not, and a renewal
      extends only entries whose latest claim was its own: a deliverer whose lease lapsed
      never touches an entry claimed since. */
  lemma DeadlineFences(limit: nat, s: State, actions: seq<Action>, w: nat, x: nat, time: nat, id: Id)
    requires Empty(s) && Clocked(limit, s, actions)
    ensures var s' := Run(limit, s, actions);
      && (Presents(s', w, id) && Presents(s', x, id) ==> w == x)
      && (id in s'.entries && Step(limit, s', CallRenew(w, time)).entries[id] != s'.entries[id] ==>
            Presents(s', w, id) && id in s'.owner && s'.owner[id] == w)
  {
    RunFenced(limit, s, actions);
    var s' := Run(limit, s, actions);
    if w in s'.workers { assert WorkerFenced(s', w); }
    if x in s'.workers { assert WorkerFenced(s', x); }
  }

  // ---- Forgetting ----

  /** The stored deadline is as it was or cleared, or it is later than any granted before. */
  predicate UntilKept(s: State, s': State, id: Id) {
    id in s'.entries && s'.entries[id].until > 0 ==>
      || (id in s.entries && s'.entries[id].until == s.entries[id].until)
      || s'.entries[id].until > Granted(s, id)
  }

  /** Only tokens the worker already had; an answer's only for what it still holds. */
  predicate TokensKept(worker: Worker, next: Worker) {
    && (forall id :: id in next.held ==>
          && id in worker.held
          && (|| next.held[id] == worker.held[id]
              || (worker.round.Answered? && id in worker.round.answer && next.held[id] == worker.round.answer[id])))
    && (next.round.Idle? || next.round == worker.round || next.round == Asking(worker.held))
  }

  /** A deadline that a worker cannot present is not its own after such a step either. */
  lemma StillNotPresented(s: State, s': State, w: nat, id: Id)
    requires Fenced(s) && w in s.workers && w in s'.workers && !Presents(s, w, id)
    requires UntilKept(s, s', id) && TokensKept(s.workers[w], s'.workers[w])
    ensures !Presents(s', w, id)
  {
    assert WorkerFenced(s, w);
  }

  lemma ProceedNotPresented(limit: nat, s: State, x: nat, w: nat, id: Id)
    requires Fenced(s) && w in s.workers && x in s.workers && !Presents(s, w, id)
    ensures !Presents(ProceedStep(s, x, limit), w, id)
  {
    CallQuiet(s, s.workers[x].flush, limit);
    NextHeld(s.workers[x]);
    StillNotPresented(s, ProceedStep(s, x, limit), w, id);
  }

  lemma ClaimNotPresented(s: State, a: Action, w: nat, id: Id)
    requires Fenced(s) && w in s.workers && a.ClaimBatch? && Claimable(s, a) && Later(s, a) && !Presents(s, w, id)
    ensures !Presents(ClaimStep(s, a.worker, a.time, a.ids), w, id)
  {
    ClaimFenced(s, a);
    StillNotPresented(s, ClaimStep(s, a.worker, a.time, a.ids), w, id);
  }

  /** A worker that cannot present the deadline does not move it. */
  lemma OwnRenewal(s: State, w: nat, time: nat, id: Id)
    requires w in s.workers && s.workers[w].round.Asking? && !Presents(s, w, id)
    ensures id !in RenewStep(s, w, time).workers[w].round.answer
    ensures id in s.entries ==> RenewStep(s, w, time).entries[id] == s.entries[id]
  {
  }

  lemma RenewNotPresented(s: State, x: nat, time: nat, w: nat, id: Id)
    requires Fenced(s) && w in s.workers && x in s.workers && s.workers[x].round.Asking?
    requires Later(s, CallRenew(x, time))
    requires !Presents(s, w, id)
    ensures !Presents(RenewStep(s, x, time), w, id)
  {
    var s' := RenewStep(s, x, time);
    if x == w {
      OwnRenewal(s, w, time, id);
    } else {
      RenewLater(s, x, time, id);
      StillNotPresented(s, s', w, id);
    }
  }

  lemma RenewLater(s: State, x: nat, time: nat, id: Id)
    requires Fenced(s) && x in s.workers && s.workers[x].round.Asking?
    requires Later(s, CallRenew(x, time))
    ensures UntilKept(s, RenewStep(s, x, time), id)
  {
  }

  /** A step of worker `x` that makes no store call. */
  lemma LocalNotPresented(s: State, x: nat, next: Worker, w: nat, id: Id)
    requires Fenced(s) && w in s.workers && x in s.workers && !Presents(s, w, id) && TokensKept(s.workers[x], next)
    ensures !Presents(WithWorker(s, x, next), w, id)
  {
    StillNotPresented(s, WithWorker(s, x, next), w, id);
  }

  lemma DeliverNotPresented(s: State, x: nat, d: Delivery, w: nat, id: Id)
    requires Fenced(s) && w in s.workers && x in s.workers && !Presents(s, w, id)
    requires s.workers[x].flush.Deliver? && s.workers[x].flush.batch != []
    ensures !Presents(DeliverStep(s, x, d), w, id)
  {
    DeliverUntouched(s, x, d);
    StillNotPresented(s, DeliverStep(s, x, d), w, id);
  }

  lemma FailNotPresented(s: State, x: nat, w: nat, id: Id)
    requires Fenced(s) && w in s.workers && x in s.workers && !Presents(s, w, id)
    ensures !Presents(FailStep(s, x), w, id)
  {
    if s.workers[x].flush.Acking? {
      if x != w { StillNotPresented(s, s.(workers := s.workers - {x}), w, id); }
    } else {
      NextHeld(s.workers[x]);
      LocalNotPresented(s, x, NextWorker(s.workers[x]), w, id);
    }
  }

  lemma KeeperTokens(worker: Worker, move: Move)
    ensures TokensKept(worker, KeeperStep(worker, move))
  {
  }

  /** A deadline that a worker cannot present is never its own again. */
  lemma NeverRegained(limit: nat, s: State, a: Action, w: nat, id: Id)
    requires Fenced(s) && Later(s, a) && w in s.workers && w in Step(limit, s, a).workers && !Presents(s, w, id)
    ensures !Presents(Step(limit, s, a), w, id)
  {
    match a
    case Put(i, system, available) => StillNotPresented(s, PutEntry(s, i, system, available), w, id);
    case ClaimBatch(_, _, _) => if Claimable(s, a) { ClaimNotPresented(s, a, w, id); }
    case DeliverHead(x, d) => if Deliverable(s, x, d) { DeliverNotPresented(s, x, d, w, id); }
    case Proceed(x) => if x in s.workers { ProceedNotPresented(limit, s, x, w, id); }
    case CallFails(x) => if x in s.workers { FailNotPresented(s, x, w, id); }
    case CallRenew(x, time) =>
      if x in s.workers && s.workers[x].round.Asking? { RenewNotPresented(s, x, time, w, id); }
    case Keep(x, move) =>
      if x in s.workers {
        KeeperTokens(s.workers[x], move);
        LocalNotPresented(s, x, KeeperStep(s.workers[x], move), w, id);
      }
    case Crash(x) => StillNotPresented(s, s.(workers := s.workers - {x}), w, id);
  }

  /** No step adds to what a worker's keeper holds. */
  lemma HoldingsShrink(limit: nat, s: State, a: Action, w: nat)
    requires w in s.workers && w in Step(limit, s, a).workers
    ensures Step(limit, s, a).workers[w].held.Keys <= s.workers[w].held.Keys
  {
    NextHeld(s.workers[w]);
    if a.Proceed? {
      if a.worker in s.workers { CallLeavesWorkers(s, s.workers[a.worker].flush, limit); }
    } else if a.DeliverHead? {
      if a.worker in s.workers && s.workers[a.worker].flush.Deliver? && s.workers[a.worker].flush.batch != [] {
        DeliverUntouched(s, a.worker, a.delivery);
      }
    } else if a.Keep? {
      KeeperTokens(s.workers[w], a.move);
    }
  }

  lemma CallLeavesWorkers(s: State, flush: Flush, limit: nat)
    ensures StoreCall(s, flush, limit).workers == s.workers
  {
  }

  /** The worker is not removed. */
  ghost predicate Stays(limit: nat, s: State, actions: seq<Action>, w: nat)
    decreases |actions|
  {
    w in s.workers && (actions == [] || Stays(limit, Step(limit, s, actions[0]), actions[1..], w))
  }

  /** Once the worker cannot present the stored deadline, no call of its keeper, not even
      one already in flight, ever changes the entry, and what it has forgotten stays
      forgotten. */
  lemma {:induction false} NeverRenewedAgain(limit: nat, s: State, actions: seq<Action>, w: nat, id: Id, time: nat)
    requires Fenced(s) && Clocked(limit, s, actions) && Stays(limit, s, actions, w) && !Presents(s, w, id)
    ensures var s' := Run(limit, s, actions);
      && w in s'.workers && s'.workers[w].held.Keys <= s.workers[w].held.Keys
      && (id in s'.entries ==> Step(limit, s', CallRenew(w, time)).entries[id] == s'.entries[id])
    decreases |actions|
  {
    if actions == [] {
      if s.workers[w].round.Asking? { OwnRenewal(s, w, time, id); }
    } else {
      NeverRegained(limit, s, actions[0], w, id);
      HoldingsShrink(limit, s, actions[0], w);
      StepFenced(limit, s, actions[0]);
      NeverRenewedAgain(limit, Step(limit, s, actions[0]), actions[1..], w, id, time);
    }
  }

  /** The flush is about to ack, release or give back the id. */
  predicate AboutToLeave(worker: Worker, id: Id) {
    && (worker.flush.Acking? || worker.flush.GivingBack? || worker.flush.Releasing?)
    && worker.flush.batch != [] && worker.flush.batch[0].id == id
  }

  lemma LeavesUnpresented(limit: nat, s: State, w: nat, id: Id)
    requires Fenced(s) && w in s.workers && AboutToLeave(s.workers[w], id)
    ensures var s' := Step(limit, s, Proceed(w));
      !Presents(s', w, id) && (!s.workers[w].flush.Releasing? ==> id !in s'.workers[w].held)
  {
    var flush := s.workers[w].flush;
    assert Step(limit, s, Proceed(w)) == ProceedStep(s, w, limit);
    assert id in StoreCall(s, flush, limit).entries ==> StoreCall(s, flush, limit).entries[id].until == 0;
  }

  /** Over any run in which the clock advances between claims of one entry, once a flush's
      ack, release or give-back of an entry has been applied, no renewal of that flush ever
      changes the entry again, however the keeper's round stood at that moment; and an acked
      or given-back entry is never held again. */
  lemma ForgottenNeverRenewed(limit: nat, start: State, done: seq<Action>, w: nat, id: Id, actions: seq<Action>,
                              time: nat)
    requires Empty(start) && Clocked(limit, start, done)
    requires var s := Run(limit, start, done); w in s.workers && AboutToLeave(s.workers[w], id)
    requires Stays(limit, Step(limit, Run(limit, start, done), Proceed(w)), actions, w)
    requires Clocked(limit, Step(limit, Run(limit, start, done), Proceed(w)), actions)
    ensures var s' := Run(limit, Step(limit, Run(limit, start, done), Proceed(w)), actions);
      && w in s'.workers
      && (id in s'.entries ==> Step(limit, s', CallRenew(w, time)).entries[id] == s'.entries[id])
      && (!Run(limit, start, done).workers[w].flush.Releasing? ==> id !in s'.workers[w].held)
  {
    RunFenced(limit, start, done);
    var s := Run(limit, start, done);
    LeavesUnpresented(limit, s, w, id);
    StepFenced(limit, s, Proceed(w));
    NeverRenewedAgain(limit, Step(limit, s, Proceed(w)), actions, w, id, time);
  }

  /** An entry changes hands only by a claim made when its former lease had lapsed or been
      released and the entry was due. */
  lemma ClaimsOnlyLapsed(limit: nat, s: State, a: Action, id: Id)
    requires id in s.owner && id in Step(limit, s, a).owner && Step(limit, s, a).owner[id] != s.owner[id]
    ensures a.ClaimBatch? && id in s.entries && s.entries[id].until <= a.time && s.entries[id].available <= a.time
  {
    if a.Proceed? && a.worker in s.workers { CallQuiet(s, s.workers[a.worker].flush, limit); }
  }

  // ---- A round of the keeper ----

  /** The lease is still this deliverer's and has not run out. */
  predicate Keeps(s: State, held: map<Id, nat>, id: Id, time: nat) {
    id in held && id in s.entries && s.entries[id].until == held[id] && held[id] > time
  }

  /** The entry has the new deadline if it was kept, and is as it was otherwise. */
  predicate Extended(s: State, s': State, id: Id, kept: bool, deadline: nat) {
    if id !in s.entries then id !in s'.entries
    else id in s'.entries && s'.entries[id] == if kept then s.entries[id].(until := deadline) else s.entries[id]
  }

  /** What a round asked about, answered at `time`. */
  lemma RoundAnswered(limit: nat, s: State, w: nat, held: map<Id, nat>, time: nat, id: Id)
    requires w in s.workers && s.workers[w].round == Asking(held)
    ensures var s' := Step(limit, s, CallRenew(w, time));
      && w in s'.workers && s'.workers[w].round.Answered? && s'.workers[w].held == s.workers[w].held
      && (id in s'.workers[w].round.answer <==> Keeps(s, held, id, time))
      && (id in s'.workers[w].round.answer ==> s'.workers[w].round.answer[id] == time + LEASE_TTL)
      && Extended(s, s', id, Keeps(s, held, id, time), time + LEASE_TTL)
  {
    assert Step(limit, s, CallRenew(w, time)) == RenewStep(s, w, time);
  }

  /** One round at a time, and only while something is held. */
  lemma RoundAsked(limit: nat, s: State, w: nat)
    requires w in s.workers
    ensures var s', worker := Step(limit, s, Keep(w, Ask)), s.workers[w];
      if worker.round.Idle? && worker.held != map[]
      then s' == s.(workers := s.workers[w := worker.(round := Asking(worker.held))])
      else s' == s.(workers := s.workers[w := worker])
  {
  }

  lemma RoundMerged(limit: nat, s: State, w: nat, id: Id)
    requires w in s.workers && s.workers[w].round.Answered?
    ensures var s', answer := Step(limit, s, Keep(w, Merge)), s.workers[w].round.answer;
      && w in s'.workers && s'.workers[w].round.Idle? && s'.entries == s.entries
      && (id in s'.workers[w].held <==> id in s.workers[w].held && id in answer)
      && (id in s'.workers[w].held ==> s'.workers[w].held[id] == answer[id])
  {
  }

  /** An undisturbed round extends exactly the leases that are still the deliverer's and have
      not run out, to a full term from the call; the keeper goes on with those, at their new
      deadline, and with no others. No other entry changes. */
  lemma RoundRenews(limit: nat, s: State, w: nat, time: nat, id: Id)
    requires w in s.workers && s.workers[w].round.Idle? && s.workers[w].held != map[]
    ensures var held := s.workers[w].held;
      var s' := Step(limit, Step(limit, Step(limit, s, Keep(w, Ask)), CallRenew(w, time)), Keep(w, Merge));
      && w in s'.workers && s'.workers[w].round.Idle?
      && (id in s'.workers[w].held <==> Keeps(s, held, id, time))
      && (id in s'.workers[w].held ==> s'.workers[w].held[id] == time + LEASE_TTL)
      && Extended(s, s', id, Keeps(s, held, id, time), time + LEASE_TTL)
  {
    var held, s1 := s.workers[w].held, Step(limit, s, Keep(w, Ask));
    RoundAsked(limit, s, w);
    RoundAnswered(limit, s1, w, held, time, id);
    RoundMerged(limit, Step(limit, s1, CallRenew(w, time)), w, id);
  }

  /** A call that fails keeps every lease for the next round. */
  lemma RoundLost(limit: nat, s: State, w: nat)
    requires w in s.workers
    ensures Step(limit, s, Keep(w, GiveUp)) == s.(workers := s.workers[w := s.workers[w].(round := Round.Idle)])
  {
  }

  // ---- Two claims in one millisecond ----

  /** A flush claims the id, starts a renewal, finds the queue full and gives the entry back
      with the renewal still in flight. */
  function GivenBack(id: Id, w: nat, first: nat): seq<Action> {
    [ClaimBatch(w, first, [id]), Keep(w, Ask), DeliverHead(w, Full), Proceed(w)]
  }

  /** Where that leaves the flush and the entry. */
  predicate InFlight(s: State, id: Id, w: nat, first: nat) {
    && w in s.workers && s.workers[w].round == Asking(map[id := first + LEASE_TTL])
    && id in s.entries && s.entries[id].until == 0
  }

  /** A flush with one claim in hand, its keeper idle or with that lease presented. */
  predicate InHand(s: State, w: nat, c: Claim, asking: bool, full: bool) {
    && w in s.workers && c.id in s.entries && !s.entries[c.id].system
    && s.workers[w].flush == (if full then GivingBack([c]) else Deliver([c]))
    && s.workers[w].held == map[c.id := c.deadline]
    && s.workers[w].round == (if asking then Asking(map[c.id := c.deadline]) else Idle)
  }

  lemma ClaimOneHeld(s: State, id: Id, w: nat, time: nat)
    requires id in s.entries
    ensures var s', until := ClaimStep(s, w, time, [id]), time + LEASE_TTL;
      && s'.workers == s.workers[w := s'.workers[w]]
      && s'.workers[w] == Worker(Deliver([Claim(id, s.entries[id].gen, until)]), map[id := until], Idle)
  {
    var s' := ClaimStep(s, w, time, [id]);
    assert id in [id];
    assert s'.workers[w].held == map[id := time + LEASE_TTL];
    assert Claims(s, [id], time + LEASE_TTL) == [Claim(id, s.entries[id].gen, time + LEASE_TTL)];
  }

  lemma ClaimOneLeased(s: State, id: Id, w: nat, time: nat)
    requires id in s.entries
    ensures var s' := ClaimStep(s, w, time, [id]);
      && id in s'.entries && s'.entries[id] == s.entries[id].(until := time + LEASE_TTL)
      && id in s'.owner && s'.owner[id] == w
  {
    assert id in [id];
  }

  lemma ClaimOne(limit: nat, s: State, id: Id, w: nat, time: nat)
    requires id in s.entries && Ready(s.entries[id], time) && w !in s.workers
    ensures var s' := Step(limit, s, ClaimBatch(w, time, [id])); var until := time + LEASE_TTL;
      && id in s'.entries && s'.entries[id] == s.entries[id].(until := until)
      && id in s'.owner && s'.owner[id] == w && s'.workers.Keys == s.workers.Keys + {w}
      && (forall x :: x in s.workers ==> s'.workers[x] == s.workers[x])
      && (!s.entries[id].system ==> InHand(s', w, Claim(id, s.entries[id].gen, until), false, false))
  {
    var a := ClaimBatch(w, time, [id]);
    assert Claimable(s, a);
    ClaimOneHeld(s, id, w, time);
    ClaimOneLeased(s, id, w, time);
  }

  lemma AskOne(limit: nat, s: State, w: nat, c: Claim)
    requires InHand(s, w, c, false, false)
    ensures var s' := Step(limit, s, Keep(w, Ask));
      InHand(s', w, c, true, false) && s'.entries == s.entries && s'.workers.Keys == s.workers.Keys
  {
    assert c.id in s.workers[w].held;
  }

  lemma FullOne(limit: nat, s: State, w: nat, c: Claim)
    requires InHand(s, w, c, true, false)
    ensures var s' := Step(limit, s, DeliverHead(w, Full));
      InHand(s', w, c, true, true) && s'.entries == s.entries && s'.workers.Keys == s.workers.Keys
  {
    assert Step(limit, s, DeliverHead(w, Full)) == DeliverStep(s, w, Full);
  }

  lemma GiveBackOne(limit: nat, s: State, w: nat, c: Claim)
    requires InHand(s, w, c, true, true)
    ensures var s' := Step(limit, s, Proceed(w));
      && w in s'.workers && s'.workers[w].round == Asking(map[c.id := c.deadline])
      && s'.entries == s.entries[c.id := s.entries[c.id].(until := 0)] && s'.workers.Keys == s.workers.Keys
  {
    assert Step(limit, s, Proceed(w)) == ProceedStep(s, w, limit);
  }

  lemma RunFour(limit: nat, s: State, a: Action, b: Action, c: Action, d: Action)
    ensures Run(limit, s, [a, b, c, d]) == Step(limit, Step(limit, Step(limit, Step(limit, s, a), b), c), d)
  {
    RunOne(limit, s, a);
    RunOne(limit, Step(limit, s, a), b);
    RunJoins(limit, s, [a], [b]);
    assert [a] + [b] == [a, b];
    var s2 := Step(limit, Step(limit, s, a), b);
    RunOne(limit, s2, c);
    RunOne(limit, Step(limit, s2, c), d);
    RunJoins(limit, s2, [c], [d]);
    assert [c] + [d] == [c, d];
    RunJoins(limit, s, [a, b], [c, d]);
    assert [a, b] + [c, d] == [a, b, c, d];
  }

  lemma GivesBack(limit: nat, s: State, id: Id, w: nat, first: nat)
    requires id in s.entries && !s.entries[id].system && Ready(s.entries[id], first) && w !in s.workers
    ensures var s' := Run(limit, s, GivenBack(id, w, first));
      InFlight(s', id, w, first) && s'.entries[id].available == s.entries[id].available
      && s'.workers.Keys == s.workers.Keys + {w}
  {
    var c := Claim(id, s.entries[id].gen, first + LEASE_TTL);
    RunFour(limit, s, ClaimBatch(w, first, [id]), Keep(w, Ask), DeliverHead(w, Full), Proceed(w));
    ClaimOne(limit, s, id, w, first);
    var s1 := Step(limit, s, ClaimBatch(w, first, [id]));
    AskOne(limit, s1, w, c);
    var s2 := Step(limit, s1, Keep(w, Ask));
    FullOne(limit, s2, w, c);
    GiveBackOne(limit, Step(limit, s2, DeliverHead(w, Full)), w, c);
  }

  /** The renewal in flight, once the store has leased the entry to another deliverer. */
  lemma LateRenewal(limit: nat, s: State, id: Id, w: nat, asked: nat, time: nat)
    requires w in s.workers && s.workers[w].round == Asking(map[id := asked])
    requires id in s.entries && time < s.entries[id].until != time + LEASE_TTL
    ensures Step(limit, s, CallRenew(w, time)).entries[id] != s.entries[id] <==> asked == s.entries[id].until
  {
    assert Step(limit, s, CallRenew(w, time)) == RenewStep(s, w, time);
  }

  lemma RunSnoc(limit: nat, s: State, done: seq<Action>, a: Action)
    ensures Run(limit, s, done + [a]) == Step(limit, Run(limit, s, done), a)
  {
    RunJoins(limit, s, done, [a]);
    RunOne(limit, Run(limit, s, done), a);
  }

  /** What a second claim does with the renewal in flight. */
  lemma SecondClaim(limit: nat, back: State, id: Id, w: nat, x: nat, first: nat, second: nat, time: nat)
    requires InFlight(back, id, w, first) && x !in back.workers && back.entries[id].available <= second
    requires second < time < second + LEASE_TTL
    ensures var s' := Step(limit, back, ClaimBatch(x, second, [id]));
      && id in s'.entries && id in s'.owner && s'.owner[id] == x
      && (Step(limit, s', CallRenew(w, time)).entries[id] != s'.entries[id] <==> first == second)
  {
    var s' := Step(limit, back, ClaimBatch(x, second, [id]));
    ClaimOne(limit, back, id, x, second);
    assert s'.workers[w] == back.workers[w];
    LateRenewal(limit, s', id, w, first + LEASE_TTL, time);
  }

  /** Why the clock has to advance between claims of one entry: a second deliverer claims
      the entry given back, and the first one's renewal in flight then moves a lease that is
      not its own, if and only if both claims fell into one millisecond. */
  lemma StaleRenewalIff(limit: nat, s: State, id: Id, w: nat, x: nat, first: nat, second: nat, time: nat)
    requires id in s.entries && !s.entries[id].system && Ready(s.entries[id], first)
    requires w != x && w !in s.workers && x !in s.workers && first <= second < time < second + LEASE_TTL
    ensures var s' := Run(limit, s, GivenBack(id, w, first) + [ClaimBatch(x, second, [id])]);
      && id in s'.entries && id in s'.owner && s'.owner[id] == x
      && (Step(limit, s', CallRenew(w, time)).entries[id] != s'.entries[id] <==> first == second)
  {
    GivesBack(limit, s, id, w, first);
    RunSnoc(limit, s, GivenBack(id, w, first), ClaimBatch(x, second, [id]));
    SecondClaim(limit, Run(limit, s, GivenBack(id, w, first)), id, w, x, first, second, time);
  }

  /** The keeper: the leases one flush still renews. */
  class LeaseKeeper {
    var held: map<Id, nat>

    constructor (batch: seq<Claim>)
      requires Distinct(batch)
      ensures forall c :: c in batch ==> c.id in held && held[c.id] == c.deadline
      ensures forall id :: id in held ==> exists c :: c in batch && c.id == id
    {
      var m: map<Id, nat> := map[];
      for i := 0 to |batch|
        invariant forall k | 0 <= k < i :: batch[k].id in m && m[batch[k].id] == batch[k].deadline
        invariant forall id :: id in m ==> exists k | 0 <= k < i :: batch[k].id == id
      {
        m := m[batch[i].id := batch[i].deadline];
      }
      held := m;
    }

    /** The second half of a round, with the store's answer, or none if the call failed:
        a failure keeps every lease for the next round, an answer is merged into whatever
        is held by then. */
    method RenewOnce(answer: Option<map<Id, nat>>) returns (goOn: bool)
      modifies this
      ensures answer.None? ==> held == old(held) && goOn
      ensures answer.Some? ==> held == Merged(old(held), answer.value) && (goOn <==> held != map[])
    {
      if answer.None? { return true; }
      var granted, next, ids := answer.value, held, held.Keys;
      while ids != {}
        invariant ids <= held.Keys
        invariant forall id :: id in next <==> id in ids || (id in held && id in granted)
        invariant forall id :: id in next && id !in ids ==> next[id] == granted[id]
        decreases |ids|
      {
        var id :| id in ids;
        ids := ids - {id};
        next := if id in granted then next[id := granted[id]] else next - {id};
      }
      held := next;
      goOn := held != map[];
    }

    method ForgetEntry(id: Id)
      modifies this
      ensures held == Forget(old(held), id)
    {
      held := held - {id};
    }

    /** A full queue gives back the rest of the batch: none of it is renewed from then on,
        and what else is held is renewed as before. */
    method ForgetRest(rest: seq<Claim>)
      modifies this
      ensures held.Keys == old(held).Keys - set c | c in rest :: c.id
      ensures forall id :: id in held ==> held[id] == old(held)[id]
    {
      for i := 0 to |rest|
        invariant forall id :: id in held <==> id in old(held) && forall k | 0 <= k < i :: rest[k].id != id
        invariant forall id :: id in held ==> held[id] == old(held)[id]
      {
        ForgetEntry(rest[i].id);
      }
    }
  }
}
