/** Delivery of the outbox by several concurrent flushes, and when an intent can be lost. */
module Outbox {

  /** An outbox key; only its identity matters. */
  type Id = nat

  const LEASE_TTL: nat := 5000

  /** `gen` numbers the puts under one id, from one. `until` is the lease deadline in
      milliseconds, zero when not leased. */
  datatype Entry = Entry(gen: nat, system: bool, available: nat, attempts: nat, until: nat)

  /** One put of an id. */
  datatype Copy = Copy(id: Id, gen: nat)

  /** One claimed entry with the deadline its claim was granted. */
  datatype Claim = Claim(id: Id, gen: nat, deadline: nat)

  /** What happens to the entry at the head of a batch. */
  datatype Delivery = Enqueued | Full | EnqueueFails | Applied | FoundInactive | HandlerFails

  /** The store call a flush makes next; `batch` starts at the entry in hand. */
  datatype Flush =
    | Deliver(batch: seq<Claim>)
    | Acking(batch: seq<Claim>)
    | Releasing(batch: seq<Claim>)
    | Recording(batch: seq<Claim>)
    | GivingBack(batch: seq<Claim>)
    | Done

  /** A round of the keeper: the held leases are copied under the lock, presented without
      it, and the answer is merged under it again. */
  datatype Round = Idle | Asking(asked: map<Id, nat>) | Answered(answer: map<Id, nat>)

  /** A flush and the leases its keeper still renews. */
  datatype Worker = Worker(flush: Flush, held: map<Id, nat>, round: Round)

  /** `written` counts the puts per id; `delivered` are the copies enqueued at least once,
      applied, or found to belong to an inactive execution; `recorded` counts the failures
      recorded against a copy; `granted` and `owner` are the latest lease deadline of an
      id and the worker it went to. */
  datatype State = State(
    entries: map<Id, Entry>, dead: set<Copy>, workers: map<nat, Worker>,
    written: map<Id, nat>, delivered: set<Copy>, recorded: map<Copy, nat>, granted: map<Id, nat>, owner: map<Id, nat>)

  /** What the keeper does on its own side of the store call. */
  datatype Move = Ask | Merge | GiveUp

  datatype Action =
    | Put(id: Id, system: bool, available: nat)
    | ClaimBatch(worker: nat, time: nat, ids: seq<Id>)
    | DeliverHead(worker: nat, delivery: Delivery)
    | Proceed(worker: nat)
    | CallFails(worker: nat)
    | CallRenew(worker: nat, time: nat)
    | Keep(worker: nat, move: Move)
    | Crash(worker: nat)

  // ---- The store's operations ----

  function Written(s: State, id: Id): nat { if id in s.written then s.written[id] else 0 }

  function PutEntry(s: State, id: Id, system: bool, available: nat): State {
    if id in s.entries then s
    else s.(entries := s.entries[id := Entry(Written(s, id) + 1, system, available, 0, 0)],
            written := s.written[id := Written(s, id) + 1])
  }

  predicate Ready(e: Entry, now: nat) { e.until <= now && e.available <= now }

  function Lease(entries: map<Id, Entry>, ids: set<Id>, now: nat): map<Id, Entry> {
    map id | id in entries :: if id in ids then entries[id].(until := now + LEASE_TTL) else entries[id]
  }

  predicate Renewable(entries: map<Id, Entry>, id: Id, deadline: nat, now: nat) {
    id in entries && entries[id].until > now && entries[id].until == deadline
  }

  /** Extends the presented leases that are unexpired and still the presenter's. */
  function RenewLeases(entries: map<Id, Entry>, asked: map<Id, nat>, now: nat): map<Id, Entry> {
    map id | id in entries ::
      if id in asked && Renewable(entries, id, asked[id], now) then entries[id].(until := now + LEASE_TTL)
      else entries[id]
  }

  function Release(entries: map<Id, Entry>, id: Id): map<Id, Entry> {
    if id in entries then entries[id := entries[id].(until := 0)] else entries
  }

  /** Counts one failure and dead-letters at the limit. */
  function Record(s: State, id: Id, limit: nat): State {
    if id !in s.entries then s
    else
      var e := s.entries[id].(attempts := s.entries[id].attempts + 1);
      var copy := Copy(id, e.gen);
      var s1 := s.(recorded := s.recorded[copy := Recorded(s, copy) + 1]);
      if e.attempts >= limit then s1.(entries := s.entries - {id}, dead := s.dead + {copy})
      else s1.(entries := s.entries[id := e])
  }

  function Recorded(s: State, c: Copy): nat { if c in s.recorded then s.recorded[c] else 0 }

  function Granted(s: State, id: Id): nat { if id in s.granted then s.granted[id] else 0 }

  // ---- The flush ----

  function WithWorker(s: State, w: nat, worker: Worker): State { s.(workers := s.workers[w := worker]) }

  function Forget(held: map<Id, nat>, id: Id): map<Id, nat> { held - {id} }

  /** What the keeper holds once an answer is merged: an entry forgotten in the meantime
      stays forgotten, a refused one is dropped, a granted one carries its new deadline. */
  function Merged(held: map<Id, nat>, answer: map<Id, nat>): map<Id, nat> {
    map id | id in held && id in answer :: answer[id]
  }

  predicate Claimable(s: State, a: Action)
    requires a.ClaimBatch?
  {
    && a.worker !in s.workers && |a.ids| <= 256
    && (forall j, k | 0 <= j < k < |a.ids| :: a.ids[j] != a.ids[k])
    && (forall id :: id in a.ids ==> id in s.entries && Ready(s.entries[id], a.time))
  }

  function Claims(s: State, ids: seq<Id>, deadline: nat): seq<Claim>
    requires forall id :: id in ids ==> id in s.entries
  {
    seq(|ids|, i requires 0 <= i < |ids| => Claim(ids[i], s.entries[ids[i]].gen, deadline))
  }

  function ClaimStep(s: State, w: nat, time: nat, ids: seq<Id>): State
    requires forall id :: id in ids ==> id in s.entries
  {
    var taken := set id | id in ids;
    var deadline := time + LEASE_TTL;
    s.(entries := Lease(s.entries, taken, time),
       granted := map id | id in s.granted.Keys + taken :: if id in taken then deadline else s.granted[id],
       owner := map id | id in s.owner.Keys + taken :: if id in taken then w else s.owner[id],
       workers := s.workers[w := Worker(Deliver(Claims(s, ids, deadline)), map id | id in taken :: deadline, Idle)])
  }

  /** Handling or enqueueing the entry in hand, before any store write about it. */
  function DeliverStep(s: State, w: nat, d: Delivery): State
    requires w in s.workers && s.workers[w].flush.Deliver? && s.workers[w].flush.batch != []
  {
    var worker := s.workers[w];
    var batch := worker.flush.batch;
    match d
    case Full => WithWorker(s, w, worker.(flush := GivingBack(batch)))
    case EnqueueFails => WithWorker(s, w, worker.(flush := Releasing(batch)))
    case HandlerFails => WithWorker(s, w, worker.(flush := Releasing(batch)))
    case _ =>
      WithWorker(s.(delivered := s.delivered + {Copy(batch[0].id, batch[0].gen)}), w, worker.(flush := Acking(batch)))
  }

  /** The delivery outcomes an entry can have: system intents are handled in
      process, everything else is enqueued. */
  predicate Possible(s: State, id: Id, d: Delivery) {
    id in s.entries ==> (s.entries[id].system <==> d.Applied? || d.FoundInactive? || d.HandlerFails?)
  }

  predicate Deliverable(s: State, w: nat, d: Delivery) {
    && w in s.workers && s.workers[w].flush.Deliver? && s.workers[w].flush.batch != []
    && Possible(s, s.workers[w].flush.batch[0].id, d)
  }

  /** The store call a flush makes about the entry in hand. It names the id, not the put. */
  function StoreCall(s: State, flush: Flush, limit: nat): State {
    if flush.Done? || flush.Deliver? || flush.batch == [] then s
    else
      var id := flush.batch[0].id;
      match flush
      case Acking(_) => s.(entries := s.entries - {id})
      case Releasing(_) => s.(entries := Release(s.entries, id))
      case Recording(_) => Record(s, id, limit)
      case GivingBack(_) => s.(entries := Release(s.entries, id))
  }

  /** Where the flush goes after that call: the entry in hand is forgotten once it is
      acked, recorded or given back. */
  function NextWorker(worker: Worker): Worker {
    match worker.flush
    case Done => worker
    case Deliver(batch) => if batch == [] then worker.(flush := Done, held := map[]) else worker
    case Acking(batch) => if batch == [] then worker else Onward(worker, Deliver(batch[1..]), batch[0].id)
    case Releasing(batch) => if batch == [] then worker else worker.(flush := Recording(batch))
    case Recording(batch) => if batch == [] then worker else Onward(worker, Deliver(batch[1..]), batch[0].id)
    case GivingBack(batch) =>
      if batch == [] then worker.(flush := Done, held := map[]) else Onward(worker, GivingBack(batch[1..]), batch[0].id)
  }

  function Onward(worker: Worker, flush: Flush, id: Id): Worker {
    worker.(flush := flush, held := Forget(worker.held, id))
  }

  function ProceedStep(s: State, w: nat, limit: nat): State
    requires w in s.workers
  {
    StoreCall(s, s.workers[w].flush, limit).(workers := s.workers[w := NextWorker(s.workers[w])])
  }

  /** A failed ack ends the flush; a failed release or record is reported and passed over. */
  function FailStep(s: State, w: nat): State
    requires w in s.workers
  {
    if s.workers[w].flush.Acking? then s.(workers := s.workers - {w}) else WithWorker(s, w, NextWorker(s.workers[w]))
  }

  // ---- The keeper ----

  /** The store's answer to the leases presented. */
  function RenewStep(s: State, w: nat, time: nat): State
    requires w in s.workers && s.workers[w].round.Asking?
  {
    var asked := s.workers[w].round.asked;
    var kept := set id | id in asked && Renewable(s.entries, id, asked[id], time);
    var deadline := time + LEASE_TTL;
    s.(entries := RenewLeases(s.entries, asked, time),
       granted := map id | id in s.granted.Keys + kept :: if id in kept then deadline else s.granted[id],
       workers := s.workers[w := s.workers[w].(round := Answered(map id | id in kept :: deadline))])
  }

  function KeeperStep(worker: Worker, move: Move): Worker {
    match move
    case Ask => if worker.round.Idle? && worker.held != map[] then worker.(round := Asking(worker.held)) else worker
    case Merge =>
      if worker.round.Answered?
      then worker.(held := Merged(worker.held, worker.round.answer), round := Idle) else worker
    case GiveUp => worker.(round := Idle)
  }

  function Step(limit: nat, s: State, a: Action): State {
    match a
    case Put(id, system, available) => PutEntry(s, id, system, available)
    case ClaimBatch(w, time, ids) => if Claimable(s, a) then ClaimStep(s, w, time, ids) else s
    case DeliverHead(w, d) => if Deliverable(s, w, d) then DeliverStep(s, w, d) else s
    case Proceed(w) => if w in s.workers then ProceedStep(s, w, limit) else s
    case CallFails(w) => if w in s.workers then FailStep(s, w) else s
    case CallRenew(w, time) =>
      if w in s.workers && s.workers[w].round.Asking? then RenewStep(s, w, time) else s
    case Keep(w, move) => if w in s.workers then WithWorker(s, w, KeeperStep(s.workers[w], move)) else s
    case Crash(w) => s.(workers := s.workers - {w})
  }

  function Run(limit: nat, s: State, actions: seq<Action>): State
    decreases |actions|
  {
    if actions == [] then s else Run(limit, Step(limit, s, actions[0]), actions[1..])
  }

  predicate Empty(s: State) {
    && s.entries == map[] && s.dead == {} && s.workers == map[] && s.written == map[] && s.delivered == {}
    && s.recorded == map[] && s.granted == map[] && s.owner == map[]
  }

  // ---- What is known of every put ----

  function Batch(flush: Flush): seq<Claim> { if flush.Done? then [] else flush.batch }

  predicate Distinct(batch: seq<Claim>) { forall j, k | 0 <= j < k < |batch| :: batch[j].id != batch[k].id }

  predicate ClaimOk(s: State, c: Claim) { 0 < c.gen <= Written(s, c.id) }

  /** A worker's claims are of puts that were made, and it acks only what it delivered. */
  predicate WorkerOk(s: State, worker: Worker) {
    && Distinct(Batch(worker.flush)) && (forall c :: c in Batch(worker.flush) ==> ClaimOk(s, c))
    && (worker.flush.Acking? && worker.flush.batch != [] ==>
          Copy(worker.flush.batch[0].id, worker.flush.batch[0].gen) in s.delivered)
  }

  predicate Traced(s: State) {
    && (forall id :: id in s.entries ==> s.entries[id].gen == Written(s, id) > 0)
    && (forall c :: c in s.delivered + s.dead ==> 0 < c.gen <= Written(s, c.id))
    && (forall w :: w in s.workers ==> WorkerOk(s, s.workers[w]))
  }

  /** What a step may do to the store. */
  ghost predicate Grows(s: State, s': State) {
    && s.delivered <= s'.delivered && s.dead <= s'.dead
    && forall id :: Written(s, id) <= Written(s', id)
  }

  lemma WorkerStays(s: State, s': State, worker: Worker)
    requires WorkerOk(s, worker) && Grows(s, s')
    ensures WorkerOk(s', worker)
  {
  }

  /** A step that changes only worker `w`, or removes it. */
  lemma OthersTraced(s: State, s': State, w: nat)
    requires Traced(s) && Grows(s, s')
    requires forall id :: id in s'.entries ==> s'.entries[id].gen == Written(s', id) > 0
    requires forall c :: c in s'.delivered + s'.dead ==> 0 < c.gen <= Written(s', c.id)
    requires forall x :: x in s'.workers && x != w ==> x in s.workers && s'.workers[x] == s.workers[x]
    requires w in s'.workers ==> WorkerOk(s', s'.workers[w])
    ensures Traced(s')
  {
    forall x | x in s'.workers ensures WorkerOk(s', s'.workers[x]) {
      if x != w { WorkerStays(s, s', s.workers[x]); }
    }
  }

  lemma PutTraced(s: State, id: Id, system: bool, available: nat)
    requires Traced(s)
    ensures Traced(PutEntry(s, id, system, available)) && Grows(s, PutEntry(s, id, system, available))
  {
    var s' := PutEntry(s, id, system, available);
    forall x | x in s'.workers ensures WorkerOk(s', s'.workers[x]) { WorkerStays(s, s', s.workers[x]); }
  }

  lemma ClaimsOk(s: State, ids: seq<Id>, deadline: nat)
    requires Traced(s) && (forall id :: id in ids ==> id in s.entries)
    requires forall j, k | 0 <= j < k < |ids| :: ids[j] != ids[k]
    ensures Distinct(Claims(s, ids, deadline)) && forall c :: c in Claims(s, ids, deadline) ==> ClaimOk(s, c)
  {
    forall c | c in Claims(s, ids, deadline) ensures ClaimOk(s, c) {
      var i :| 0 <= i < |ids| && c == Claim(ids[i], s.entries[ids[i]].gen, deadline);
      assert ids[i] in ids;
    }
  }

  lemma ClaimTraced(s: State, a: Action)
    requires Traced(s) && a.ClaimBatch? && Claimable(s, a)
    ensures Traced(ClaimStep(s, a.worker, a.time, a.ids)) && Grows(s, ClaimStep(s, a.worker, a.time, a.ids))
  {
    var s' := ClaimStep(s, a.worker, a.time, a.ids);
    ClaimsOk(s, a.ids, a.time + LEASE_TTL);
    assert Batch(s'.workers[a.worker].flush) == Claims(s, a.ids, a.time + LEASE_TTL);
    WorkerStays(s, s', s'.workers[a.worker]);
    OthersTraced(s, s', a.worker);
  }

  lemma DeliverTraced(s: State, w: nat, d: Delivery)
    requires Traced(s) && w in s.workers && s.workers[w].flush.Deliver? && s.workers[w].flush.batch != []
    ensures Traced(DeliverStep(s, w, d)) && Grows(s, DeliverStep(s, w, d))
  {
    var s', batch := DeliverStep(s, w, d), s.workers[w].flush.batch;
    assert WorkerOk(s, s.workers[w]) && batch[0] in Batch(s.workers[w].flush) && ClaimOk(s, batch[0]);
    assert Batch(s'.workers[w].flush) == batch;
    OthersTraced(s, s', w);
  }

  lemma NextOk(s: State, worker: Worker)
    requires WorkerOk(s, worker)
    ensures WorkerOk(s, NextWorker(worker))
  {
    var batch, next := Batch(worker.flush), Batch(NextWorker(worker).flush);
    assert next == batch || next == [] || (batch != [] && next == batch[1..]);
  }

  lemma RecordGrows(s: State, id: Id, limit: nat)
    requires Traced(s)
    ensures var s' := Record(s, id, limit);
      && s'.delivered == s.delivered && s.dead <= s'.dead && s'.written == s.written && s'.workers == s.workers
      && (forall i :: i in s'.entries ==> i in s.entries && s'.entries[i].gen == s.entries[i].gen)
      && (forall c :: c in s'.dead ==> 0 < c.gen <= Written(s, c.id))
  {
  }

  lemma CallGrows(s: State, flush: Flush, limit: nat)
    requires Traced(s)
    ensures var s' := StoreCall(s, flush, limit);
      && Grows(s, s') && s'.written == s.written && s'.workers == s.workers
      && (forall id :: id in s'.entries ==> id in s.entries && s'.entries[id].gen == s.entries[id].gen)
      && (forall c :: c in s'.delivered + s'.dead ==> 0 < c.gen <= Written(s', c.id))
  {
    if flush.Recording? && flush.batch != [] { RecordGrows(s, flush.batch[0].id, limit); }
  }

  lemma ProceedTraced(limit: nat, s: State, w: nat)
    requires Traced(s) && w in s.workers
    ensures Traced(ProceedStep(s, w, limit)) && Grows(s, ProceedStep(s, w, limit))
  {
    var called := StoreCall(s, s.workers[w].flush, limit);
    CallGrows(s, s.workers[w].flush, limit);
    NextOk(s, s.workers[w]);
    WorkerStays(s, called, NextWorker(s.workers[w]));
    var s' := ProceedStep(s, w, limit);
    WorkerStays(called, s', NextWorker(s.workers[w]));
    OthersTraced(s, s', w);
  }

  lemma FailTraced(s: State, w: nat)
    requires Traced(s) && w in s.workers
    ensures Traced(FailStep(s, w)) && Grows(s, FailStep(s, w))
  {
    var s' := FailStep(s, w);
    NextOk(s, s.workers[w]);
    WorkerStays(s, s', NextWorker(s.workers[w]));
    OthersTraced(s, s', w);
  }

  /** A step of the keeper leaves the flush where it is. */
  lemma KeeperTraced(s: State, s': State, w: nat)
    requires Traced(s) && w in s.workers && w in s'.workers && s'.workers == s.workers[w := s'.workers[w]]
    requires s'.workers[w].flush == s.workers[w].flush && s'.delivered == s.delivered && s'.dead == s.dead
    requires s'.written == s.written
    requires forall id :: id in s'.entries ==> id in s.entries && s'.entries[id].gen == s.entries[id].gen
    ensures Traced(s') && Grows(s, s')
  {
    assert WorkerOk(s, s.workers[w]);
    OthersTraced(s, s', w);
  }

  lemma RenewTraced(s: State, w: nat, time: nat)
    requires Traced(s) && w in s.workers && s.workers[w].round.Asking?
    ensures Traced(RenewStep(s, w, time)) && Grows(s, RenewStep(s, w, time))
  {
    KeeperTraced(s, RenewStep(s, w, time), w);
  }

  lemma KeepTraced(s: State, w: nat, move: Move)
    requires Traced(s) && w in s.workers
    ensures var s' := WithWorker(s, w, KeeperStep(s.workers[w], move)); Traced(s') && Grows(s, s')
  {
    KeeperTraced(s, WithWorker(s, w, KeeperStep(s.workers[w], move)), w);
  }

  lemma CrashTraced(s: State, w: nat)
    requires Traced(s)
    ensures var s' := s.(workers := s.workers - {w}); Traced(s') && Grows(s, s')
  {
    OthersTraced(s, s.(workers := s.workers - {w}), w);
  }

  lemma StepTraced(limit: nat, s: State, a: Action)
    requires Traced(s)
    ensures Traced(Step(limit, s, a)) && Grows(s, Step(limit, s, a))
  {
    match a
    case Put(id, system, available) => PutTraced(s, id, system, available);
    case ClaimBatch(_, _, _) => if Claimable(s, a) { ClaimTraced(s, a); }
    case DeliverHead(w, d) => if Deliverable(s, w, d) { DeliverTraced(s, w, d); }
    case Proceed(w) => if w in s.workers { ProceedTraced(limit, s, w); }
    case CallFails(w) => if w in s.workers { FailTraced(s, w); }
    case CallRenew(w, time) => if w in s.workers && s.workers[w].round.Asking? { RenewTraced(s, w, time); }
    case Crash(w) => CrashTraced(s, w);
    case Keep(w, move) => if w in s.workers { KeepTraced(s, w, move); }
  }

  lemma {:induction false} RunTraced(limit: nat, s: State, actions: seq<Action>)
    requires Traced(s)
    ensures Traced(Run(limit, s, actions)) && Grows(s, Run(limit, s, actions))
    decreases |actions|
  {
    if actions != [] {
      StepTraced(limit, s, actions[0]);
      RunTraced(limit, Step(limit, s, actions[0]), actions[1..]);
    }
  }

  // ---- Intents are not lost ----

  /** The claims a flush may still ack. */
  function AckTargets(flush: Flush): seq<Claim> {
    if flush.Deliver? || flush.Acking? then flush.batch
    else if (flush.Releasing? || flush.Recording?) && flush.batch != [] then flush.batch[1..]
    else []
  }

  /** Some flush may still ack the id for an earlier put than `gen`. */
  predicate Threatens(s: State, w: nat, id: Id, gen: nat) {
    w in s.workers && exists c :: c in AckTargets(s.workers[w].flush) && c.id == id && c.gen != gen
  }

  predicate Stored(s: State, c: Copy) { c.id in s.entries && s.entries[c.id].gen == c.gen }

  /** The put is in the outbox and only acks of its own delivery can remove it, or it has
      been delivered or dead-lettered. */
  ghost predicate Safe(s: State, c: Copy) {
    if Stored(s, c) then forall w :: !Threatens(s, w, c.id, c.gen) else c in s.delivered || c in s.dead
  }

  predicate Lost(s: State, c: Copy) { !Stored(s, c) && c !in s.delivered && c !in s.dead }

  lemma TargetsShrink(worker: Worker, c: Claim)
    requires c in AckTargets(NextWorker(worker).flush)
    ensures c in AckTargets(worker.flush)
  {
  }

  /** A step that leaves the copy where it is and gives no flush a new ack target. */
  lemma StillSafe(s: State, s': State, c: Copy)
    requires Safe(s, c) && Grows(s, s') && (Stored(s', c) ==> Stored(s, c))
    requires Stored(s, c) && !Stored(s', c) ==> c in s'.delivered || c in s'.dead
    requires forall w, x ::
      (w in s'.workers && x in AckTargets(s'.workers[w].flush) && x.id == c.id && x.gen != c.gen ==>
         w in s.workers && x in AckTargets(s.workers[w].flush))
    ensures Safe(s', c)
  {
    if Stored(s', c) {
      forall w ensures !Threatens(s', w, c.id, c.gen) {
        assert !Threatens(s, w, c.id, c.gen);
      }
    }
  }

  lemma ProceedSafe(limit: nat, s: State, w: nat, c: Copy)
    requires Traced(s) && Safe(s, c) && w in s.workers
    ensures Safe(ProceedStep(s, w, limit), c)
  {
    var s', flush := ProceedStep(s, w, limit), s.workers[w].flush;
    ProceedTraced(limit, s, w);
    CallGrows(s, flush, limit);
    if Stored(s, c) && !Stored(s', c) {
      assert WorkerOk(s, s.workers[w]) && !Threatens(s, w, c.id, c.gen);
      CallTakes(limit, s, flush, c);
    }
    forall x | x in AckTargets(NextWorker(s.workers[w]).flush) ensures x in AckTargets(flush) {
      TargetsShrink(s.workers[w], x);
    }
    StillSafe(s, s', c);
  }

  /** Only an ack or a dead-lettering record removes an entry. */
  lemma CallTakes(limit: nat, s: State, flush: Flush, c: Copy)
    requires Stored(s, c) && !Stored(StoreCall(s, flush, limit), c)
    requires flush.Acking? && flush.batch != [] ==> Copy(flush.batch[0].id, flush.batch[0].gen) in s.delivered
    requires forall x :: x in AckTargets(flush) && x.id == c.id ==> x.gen == c.gen
    ensures var s' := StoreCall(s, flush, limit); c in s'.delivered || c in s'.dead
  {
    if flush.Acking? { assert flush.batch[0] in AckTargets(flush); }
  }

  lemma ClaimSafe(s: State, a: Action, c: Copy)
    requires Traced(s) && Safe(s, c) && a.ClaimBatch? && Claimable(s, a)
    ensures Safe(ClaimStep(s, a.worker, a.time, a.ids), c)
  {
    var s' := ClaimStep(s, a.worker, a.time, a.ids);
    if Stored(s', c) {
      forall w ensures !Threatens(s', w, c.id, c.gen) {
        if w == a.worker {
          forall x | x in s'.workers[w].flush.batch && x.id == c.id ensures x.gen == c.gen {
            var i :| 0 <= i < |a.ids| && x == Claim(a.ids[i], s.entries[a.ids[i]].gen, a.time + LEASE_TTL);
          }
        } else {
          assert !Threatens(s, w, c.id, c.gen);
        }
      }
    }
  }

  lemma PutSafe(s: State, id: Id, system: bool, available: nat, c: Copy)
    requires Traced(s) && Safe(s, c) && c.gen <= Written(s, c.id)
    ensures Safe(PutEntry(s, id, system, available), c)
  {
    PutTraced(s, id, system, available);
    StillSafe(s, PutEntry(s, id, system, available), c);
  }

  lemma DeliverSafe(s: State, w: nat, d: Delivery, c: Copy)
    requires Safe(s, c) && w in s.workers && s.workers[w].flush.Deliver? && s.workers[w].flush.batch != []
    ensures Safe(DeliverStep(s, w, d), c)
  {
    var s' := DeliverStep(s, w, d);
    StillSafe(s, s', c);
  }

  lemma FailSafe(s: State, w: nat, c: Copy)
    requires Safe(s, c) && w in s.workers
    ensures Safe(FailStep(s, w), c)
  {
    forall x | x in AckTargets(NextWorker(s.workers[w]).flush) ensures x in AckTargets(s.workers[w].flush) {
      TargetsShrink(s.workers[w], x);
    }
    StillSafe(s, FailStep(s, w), c);
  }

  /** Steps that touch neither what is stored, delivered or dead nor any flush. */
  lemma KeeperSafe(s: State, s': State, c: Copy)
    requires Safe(s, c) && s'.delivered == s.delivered && s'.dead == s.dead && s'.written == s.written
    requires s'.entries.Keys == s.entries.Keys
    requires forall id :: id in s.entries ==> s'.entries[id].gen == s.entries[id].gen
    requires forall w :: w in s'.workers ==> w in s.workers && s'.workers[w].flush == s.workers[w].flush
    ensures Safe(s', c)
  {
    StillSafe(s, s', c);
  }

  lemma RenewSafe(s: State, w: nat, time: nat, c: Copy)
    requires Safe(s, c) && w in s.workers && s.workers[w].round.Asking?
    ensures Safe(RenewStep(s, w, time), c)
  {
    KeeperSafe(s, RenewStep(s, w, time), c);
  }

  lemma KeepSafe(s: State, w: nat, move: Move, c: Copy)
    requires Safe(s, c) && w in s.workers
    ensures Safe(WithWorker(s, w, KeeperStep(s.workers[w], move)), c)
  {
    KeeperSafe(s, WithWorker(s, w, KeeperStep(s.workers[w], move)), c);
  }

  lemma StepSafe(limit: nat, s: State, a: Action, c: Copy)
    requires Traced(s) && Safe(s, c) && c.gen <= Written(s, c.id)
    ensures Safe(Step(limit, s, a), c)
  {
    match a
    case Put(id, system, available) => PutSafe(s, id, system, available, c);
    case ClaimBatch(_, _, _) => if Claimable(s, a) { ClaimSafe(s, a, c); }
    case DeliverHead(w, d) => if Deliverable(s, w, d) { DeliverSafe(s, w, d, c); }
    case Proceed(w) => if w in s.workers { ProceedSafe(limit, s, w, c); }
    case CallFails(w) => if w in s.workers { FailSafe(s, w, c); }
    case CallRenew(w, time) => if w in s.workers && s.workers[w].round.Asking? { RenewSafe(s, w, time, c); }
    case Crash(w) => KeeperSafe(s, s.(workers := s.workers - {w}), c);
    case Keep(w, move) => if w in s.workers { KeepSafe(s, w, move, c); }
  }

  /** A put that is safe stays safe, whatever happens and whatever is put later. */
  lemma {:induction false} RunSafe(limit: nat, s: State, actions: seq<Action>, c: Copy)
    requires Traced(s) && Safe(s, c) && c.gen <= Written(s, c.id)
    ensures Safe(Run(limit, s, actions), c)
    decreases |actions|
  {
    if actions != [] {
      StepSafe(limit, s, actions[0], c);
      StepTraced(limit, s, actions[0]);
      RunSafe(limit, Step(limit, s, actions[0]), actions[1..], c);
    }
  }

  // ---- A put that an earlier delivery can take away ----

  /** A delivery of the entry in hand that will be acked. */
  function Good(s: State, id: Id): Delivery { if id in s.entries && s.entries[id].system then Applied else Enqueued }

  lemma {:induction false} RunJoins(limit: nat, s: State, actions: seq<Action>, more: seq<Action>)
    ensures Run(limit, s, actions + more) == Run(limit, Run(limit, s, actions), more)
    decreases |actions|
  {
    if actions == [] {
      assert actions + more == more;
    } else {
      assert (actions + more)[0] == actions[0] && (actions + more)[1..] == actions[1..] + more;
      RunJoins(limit, Step(limit, s, actions[0]), actions[1..], more);
    }
  }

  lemma RunOne(limit: nat, s: State, a: Action)
    ensures Run(limit, s, [a]) == Step(limit, s, a)
  {
    assert Run(limit, Step(limit, s, a), []) == Step(limit, s, a);
  }

  predicate Fragile(s: State, w: nat, c: Copy) {
    Traced(s) && Stored(s, c) && c !in s.delivered && c !in s.dead && Threatens(s, w, c.id, c.gen)
  }

  /** Acking the entry in hand takes the put away or brings the flush one entry closer. */
  lemma AckOne(limit: nat, s: State, w: nat, c: Copy)
    requires Fragile(s, w, c) && s.workers[w].flush.Acking? && s.workers[w].flush.batch != []
    ensures var s' := Step(limit, s, Proceed(w));
      Lost(s', c) || (Fragile(s', w, c) && s'.workers[w].flush == Deliver(s.workers[w].flush.batch[1..]))
  {
    var s', batch := Step(limit, s, Proceed(w)), s.workers[w].flush.batch;
    ProceedTraced(limit, s, w);
    if batch[0].id != c.id {
      var x :| x in batch && x.id == c.id && x.gen != c.gen;
      assert x in batch[1..];
    }
  }

  lemma GoodDelivers(limit: nat, s: State, w: nat)
    requires w in s.workers && s.workers[w].flush.Deliver? && s.workers[w].flush.batch != []
    ensures var batch := s.workers[w].flush.batch;
      Step(limit, s, DeliverHead(w, Good(s, batch[0].id)))
      == WithWorker(s.(delivered := s.delivered + {Copy(batch[0].id, batch[0].gen)}), w,
                    s.workers[w].(flush := Acking(batch)))
  {
  }

  lemma DeliverOne(limit: nat, s: State, w: nat, c: Copy)
    requires Fragile(s, w, c) && s.workers[w].flush.Deliver? && s.workers[w].flush.batch != []
    ensures var s' := Step(limit, s, DeliverHead(w, Good(s, s.workers[w].flush.batch[0].id)));
      Fragile(s', w, c) && s'.workers[w].flush == Acking(s.workers[w].flush.batch)
  {
    var batch := s.workers[w].flush.batch;
    GoodDelivers(limit, s, w);
    DeliverTraced(s, w, Good(s, batch[0].id));
    assert WorkerOk(s, s.workers[w]);
    var x :| x in batch && x.id == c.id && x.gen != c.gen;
    if batch[0].id == c.id { assert batch[0] == x; }
  }

  /** Driving the flush alone through its batch loses the put. */
  lemma {:induction false} DriveBatch(limit: nat, s: State, w: nat, c: Copy) returns (actions: seq<Action>)
    requires Fragile(s, w, c) && s.workers[w].flush.Deliver?
    ensures Lost(Run(limit, s, actions), c)
    decreases |s.workers[w].flush.batch|
  {
    var deliver := DeliverHead(w, Good(s, s.workers[w].flush.batch[0].id));
    DeliverOne(limit, s, w, c);
    RunOne(limit, s, deliver);
    var s1 := Step(limit, s, deliver);
    AckOne(limit, s1, w, c);
    RunOne(limit, s1, Proceed(w));
    RunJoins(limit, s, [deliver], [Proceed(w)]);
    actions := [deliver] + [Proceed(w)];
    var s2 := Step(limit, s1, Proceed(w));
    if !Lost(s2, c) {
      var rest := DriveBatch(limit, s2, w, c);
      RunJoins(limit, s, actions, rest);
      actions := actions + rest;
    }
  }

  /** A flush that is releasing or recording its entry in hand moves on to the next. */
  lemma MoveOn(limit: nat, s: State, w: nat, c: Copy)
    requires Fragile(s, w, c) && (s.workers[w].flush.Releasing? || s.workers[w].flush.Recording?)
    ensures var s' := Step(limit, s, CallFails(w));
      && Fragile(s', w, c)
      && (s.workers[w].flush.Releasing? ==> s'.workers[w].flush.Recording?)
      && (s.workers[w].flush.Recording? ==> s'.workers[w].flush.Deliver?)
  {
    FailTraced(s, w);
  }

  lemma LosingRun(limit: nat, s: State, w: nat, c: Copy) returns (actions: seq<Action>)
    requires Fragile(s, w, c)
    ensures Lost(Run(limit, s, actions), c)
  {
    var flush := s.workers[w].flush;
    var a := if flush.Acking? then Proceed(w) else CallFails(w);
    if flush.Deliver? {
      actions := DriveBatch(limit, s, w, c);
      return;
    }
    var s1 := Step(limit, s, a);
    RunOne(limit, s, a);
    if flush.Acking? { AckOne(limit, s, w, c); } else { MoveOn(limit, s, w, c); }
    if Lost(s1, c) { return [a]; }
    var rest: seq<Action>;
    if flush.Releasing? {
      MoveOn(limit, s1, w, c);
      RunOne(limit, s1, a);
      var more := DriveBatch(limit, Step(limit, s1, a), w, c);
      RunJoins(limit, s1, [a], more);
      rest := [a] + more;
    } else {
      rest := DriveBatch(limit, s1, w, c);
    }
    RunJoins(limit, s, [a], rest);
    actions := [a] + rest;
  }

  /** No flush may still ack an earlier put of the id than the next one. */
  ghost predicate Calm(s: State, id: Id) {
    var gen := Written(s, id) + 1;
    forall w :: !Threatens(s, w, id, gen)
  }

  /** What the next put under the id is known as. */
  function NextCopy(s: State, id: Id): Copy { Copy(id, Written(s, id) + 1) }

  lemma CalmIsSafe(limit: nat, s: State, id: Id, system: bool, available: nat, actions: seq<Action>)
    requires Traced(s) && id !in s.entries && Calm(s, id)
    ensures !Lost(Run(limit, PutEntry(s, id, system, available), actions), NextCopy(s, id))
  {
    var c, s' := NextCopy(s, id), PutEntry(s, id, system, available);
    PutTraced(s, id, system, available);
    forall w ensures !Threatens(s', w, id, c.gen) { assert !Threatens(s, w, id, c.gen); }
    RunSafe(limit, s', actions, c);
  }

  lemma ThreatenedIsLosable(limit: nat, s: State, id: Id, system: bool, available: nat) returns (actions: seq<Action>)
    requires Traced(s) && id !in s.entries && !Calm(s, id)
    ensures Lost(Run(limit, PutEntry(s, id, system, available), actions), NextCopy(s, id))
  {
    var c, s' := NextCopy(s, id), PutEntry(s, id, system, available);
    PutTraced(s, id, system, available);
    var w :| Threatens(s, w, id, c.gen);
    assert Threatens(s', w, id, c.gen);
    actions := LosingRun(limit, s', w, c);
  }

  ghost predicate Loses(limit: nat, s: State, actions: seq<Action>, c: Copy) { Lost(Run(limit, s, actions), c) }

  /** Whether a new put under an id can be lost: from any reachable state it can, in some
      continuation, if and only if at that moment some flush may still ack an earlier put
      of the same id. */
  lemma LosableIffThreatened(limit: nat, start: State, done: seq<Action>, id: Id, system: bool, available: nat)
    requires Empty(start) && id !in Run(limit, start, done).entries
    ensures var s := Run(limit, start, done);
      (exists actions :: Loses(limit, PutEntry(s, id, system, available), actions, NextCopy(s, id))) <==> !Calm(s, id)
  {
    RunTraced(limit, start, done);
    var s := Run(limit, start, done);
    var c, s' := NextCopy(s, id), PutEntry(s, id, system, available);
    if Calm(s, id) {
      forall actions ensures !Loses(limit, s', actions, c) { CalmIsSafe(limit, s, id, system, available, actions); }
    } else {
      var actions := ThreatenedIsLosable(limit, s, id, system, available);
      assert Loses(limit, s', actions, c);
    }
  }

  /** No put of the run finds a flush that may still ack an earlier put of its id. */
  ghost predicate Unthreatened(limit: nat, s: State, actions: seq<Action>)
    decreases |actions|
  {
    actions == [] ||
    (&& (actions[0].Put? && actions[0].id !in s.entries ==> Calm(s, actions[0].id))
     && Unthreatened(limit, Step(limit, s, actions[0]), actions[1..]))
  }

  ghost predicate AllSafe(s: State) {
    forall id, gen: nat | id in s.written && 0 < gen <= s.written[id] :: Safe(s, Copy(id, gen))
  }

  lemma StepAllSafe(limit: nat, s: State, a: Action)
    requires Traced(s) && AllSafe(s)
    requires a.Put? && a.id !in s.entries ==> Calm(s, a.id)
    ensures AllSafe(Step(limit, s, a))
  {
    var s' := Step(limit, s, a);
    forall id, gen: nat | id in s'.written && 0 < gen <= s'.written[id] ensures Safe(s', Copy(id, gen)) {
      if gen <= Written(s, id) {
        StepSafe(limit, s, a, Copy(id, gen));
      } else {
        NewPutSafe(limit, s, a, id, gen);
      }
    }
  }

  lemma NewPutSafe(limit: nat, s: State, a: Action, id: Id, gen: nat)
    requires Traced(s) && (a.Put? && a.id !in s.entries ==> Calm(s, a.id))
    requires Written(s, id) < gen <= Written(Step(limit, s, a), id)
    ensures Safe(Step(limit, s, a), Copy(id, gen))
  {
    WrittenByPut(limit, s, a, id);
    var s' := PutEntry(s, id, a.system, a.available);
    forall w ensures !Threatens(s', w, id, gen) { assert !Threatens(s, w, id, gen); }
  }

  lemma WrittenByPut(limit: nat, s: State, a: Action, id: Id)
    requires Traced(s) && Written(Step(limit, s, a), id) > Written(s, id)
    ensures a.Put? && a.id == id && id !in s.entries && Step(limit, s, a) == PutEntry(s, id, a.system, a.available)
  {
    if a.Proceed? && a.worker in s.workers { CallGrows(s, s.workers[a.worker].flush, limit); }
  }

  // ---- Attempts ----

  predicate Counts(s: State, a: Action, id: Id) {
    && a.Proceed? && a.worker in s.workers && s.workers[a.worker].flush.Recording?
    && s.workers[a.worker].flush.batch != [] && s.workers[a.worker].flush.batch[0].id == id
  }

  /** Attempts change only by a recorded failure, which adds one: neither a claim, a
      renewal, an ack nor a full queue touches them. */
  lemma AttemptsOnlyRecorded(limit: nat, s: State, a: Action, id: Id)
    requires id in s.entries && id in Step(limit, s, a).entries
    ensures var s', c := Step(limit, s, a), Copy(id, s.entries[id].gen);
      && s'.entries[id].gen == s.entries[id].gen
      && s'.entries[id].attempts == s.entries[id].attempts + (if Counts(s, a, id) then 1 else 0)
      && Recorded(s', c) == Recorded(s, c) + (if Counts(s, a, id) then 1 else 0)
  {
    if a.Proceed? {
      if a.worker in s.workers { CallAttempts(s, s.workers[a.worker].flush, limit, id); }
    } else if a.DeliverHead? || a.CallFails? || a.Keep? || a.Crash? {
      LocalStep(limit, s, a);
    } else {
      LeaseAttempts(limit, s, a, id);
    }
  }

  /** A put, a claim and a renewal. */
  lemma LeaseAttempts(limit: nat, s: State, a: Action, id: Id)
    requires id in s.entries && (a.Put? || a.ClaimBatch? || a.CallRenew?)
    ensures var s' := Step(limit, s, a);
      && s'.recorded == s.recorded && id in s'.entries
      && s'.entries[id].gen == s.entries[id].gen && s'.entries[id].attempts == s.entries[id].attempts
  {
  }

  lemma RecordCounts(s: State, id: Id, limit: nat, c: Copy)
    requires id in s.entries
    ensures Recorded(Record(s, id, limit), c) == Recorded(s, c) + if c == Copy(id, s.entries[id].gen) then 1 else 0
  {
  }

  lemma RecordAttempts(s: State, counted: Id, limit: nat, id: Id)
    requires id in s.entries && id in Record(s, counted, limit).entries
    ensures var s' := Record(s, counted, limit);
      && s'.entries[id].gen == s.entries[id].gen
      && s'.entries[id].attempts == s.entries[id].attempts + (if counted == id then 1 else 0)
  {
  }

  lemma CallAttempts(s: State, flush: Flush, limit: nat, id: Id)
    requires id in s.entries && id in StoreCall(s, flush, limit).entries
    ensures var s', c := StoreCall(s, flush, limit), Copy(id, s.entries[id].gen);
      var counted := flush.Recording? && flush.batch != [] && flush.batch[0].id == id;
      && s'.entries[id].gen == s.entries[id].gen
      && s'.entries[id].attempts == s.entries[id].attempts + (if counted then 1 else 0)
      && Recorded(s', c) == Recorded(s, c) + (if counted then 1 else 0)
  {
    if flush.Recording? && flush.batch != [] {
      var head := flush.batch[0].id;
      RecordAttempts(s, head, limit, id);
      if head in s.entries { RecordCounts(s, head, limit, Copy(id, s.entries[id].gen)); }
    }
  }

  predicate DeadCounted(limit: nat, s: State) {
    && (forall id :: id in s.entries ==> s.entries[id].attempts <= Recorded(s, Copy(id, s.entries[id].gen)))
    && (forall c :: c in s.dead ==> Recorded(s, c) >= limit)
  }

  lemma RecordDead(limit: nat, s: State, id: Id, c: Copy)
    requires DeadCounted(limit, s) && c in Record(s, id, limit).dead
    ensures Recorded(Record(s, id, limit), c) >= limit
  {
    if id in s.entries {
      var copy := Copy(id, s.entries[id].gen);
      RecordCounts(s, id, limit, c);
      if c in s.dead {
        assert Recorded(s, c) >= limit;
      } else {
        assert c == copy && s.entries[id].attempts <= Recorded(s, copy);
      }
    }
  }

  lemma CallDead(limit: nat, s: State, flush: Flush, c: Copy)
    requires DeadCounted(limit, s) && c in StoreCall(s, flush, limit).dead
    ensures Recorded(StoreCall(s, flush, limit), c) >= limit
  {
    if flush.Recording? && flush.batch != [] { RecordDead(limit, s, flush.batch[0].id, c); }
  }

  lemma CallCounted(limit: nat, s: State, flush: Flush)
    requires DeadCounted(limit, s)
    ensures DeadCounted(limit, StoreCall(s, flush, limit))
  {
    var s' := StoreCall(s, flush, limit);
    forall id | id in s'.entries ensures s'.entries[id].attempts <= Recorded(s', Copy(id, s'.entries[id].gen)) {
      CallAttempts(s, flush, limit, id);
    }
    forall c | c in s'.dead ensures Recorded(s', c) >= limit { CallDead(limit, s, flush, c); }
  }

  /** Steps that leave attempts, generations and records alone. */
  lemma SameCounted(limit: nat, s: State, s': State)
    requires DeadCounted(limit, s) && s'.dead == s.dead && s'.recorded == s.recorded
    requires forall id :: id in s'.entries ==>
      s'.entries[id].attempts == 0
      || (id in s.entries && s'.entries[id].gen == s.entries[id].gen
        && s'.entries[id].attempts == s.entries[id].attempts)
    ensures DeadCounted(limit, s')
  {
    forall id | id in s'.entries ensures s'.entries[id].attempts <= Recorded(s', Copy(id, s'.entries[id].gen)) {
    }
  }

  lemma StoreCounted(limit: nat, s: State, s': State)
    requires DeadCounted(limit, s) && s'.entries == s.entries && s'.dead == s.dead && s'.recorded == s.recorded
    ensures DeadCounted(limit, s')
  {
    SameCounted(limit, s, s');
  }

  lemma PutCounted(limit: nat, s: State, id: Id, system: bool, available: nat)
    requires DeadCounted(limit, s)
    ensures DeadCounted(limit, PutEntry(s, id, system, available))
  {
    SameCounted(limit, s, PutEntry(s, id, system, available));
  }

  lemma ClaimCounted(limit: nat, s: State, a: Action)
    requires DeadCounted(limit, s) && a.ClaimBatch? && Claimable(s, a)
    ensures DeadCounted(limit, ClaimStep(s, a.worker, a.time, a.ids))
  {
    SameCounted(limit, s, ClaimStep(s, a.worker, a.time, a.ids));
  }

  lemma RenewCounted(limit: nat, s: State, w: nat, time: nat)
    requires DeadCounted(limit, s) && w in s.workers && s.workers[w].round.Asking?
    ensures DeadCounted(limit, RenewStep(s, w, time))
  {
    SameCounted(limit, s, RenewStep(s, w, time));
  }

  lemma ProceedCounted(limit: nat, s: State, w: nat)
    requires DeadCounted(limit, s) && w in s.workers
    ensures DeadCounted(limit, ProceedStep(s, w, limit))
  {
    CallCounted(limit, s, s.workers[w].flush);
  }

  lemma StepCounted(limit: nat, s: State, a: Action)
    requires DeadCounted(limit, s)
    ensures DeadCounted(limit, Step(limit, s, a))
  {
    match a
    case Put(id, system, available) => PutCounted(limit, s, id, system, available);
    case ClaimBatch(_, _, _) => if Claimable(s, a) { ClaimCounted(limit, s, a); }
    case Proceed(w) => if w in s.workers { ProceedCounted(limit, s, w); }
    case CallRenew(w, time) => if w in s.workers && s.workers[w].round.Asking? { RenewCounted(limit, s, w, time); }
    case DeliverHead(_, _) => LocalCounted(limit, s, a);
    case CallFails(_) => LocalCounted(limit, s, a);
    case Keep(_, _) => LocalCounted(limit, s, a);
    case Crash(_) => LocalCounted(limit, s, a);
  }

  /** Steps that do not write the store. */
  lemma LocalCounted(limit: nat, s: State, a: Action)
    requires DeadCounted(limit, s) && (a.DeliverHead? || a.CallFails? || a.Keep? || a.Crash?)
    ensures DeadCounted(limit, Step(limit, s, a))
  {
    LocalStep(limit, s, a);
    StoreCounted(limit, s, Step(limit, s, a));
  }

  lemma LocalStep(limit: nat, s: State, a: Action)
    requires a.DeliverHead? || a.CallFails? || a.Keep? || a.Crash?
    ensures var s' := Step(limit, s, a); s'.entries == s.entries && s'.dead == s.dead && s'.recorded == s.recorded
  {
    if a.DeliverHead? && a.worker in s.workers && s.workers[a.worker].flush.Deliver?
       && s.workers[a.worker].flush.batch != [] {
      DeliverUntouched(s, a.worker, a.delivery);
    }
  }

  lemma DeliverUntouched(s: State, w: nat, d: Delivery)
    requires w in s.workers && s.workers[w].flush.Deliver? && s.workers[w].flush.batch != []
    ensures var s' := DeliverStep(s, w, d); s'.entries == s.entries && s'.dead == s.dead && s'.recorded == s.recorded
    ensures var s' := DeliverStep(s, w, d);
      s'.workers == s.workers[w := s'.workers[w]] && s'.workers[w] == s.workers[w].(flush := s'.workers[w].flush)
  {
  }

  lemma {:induction false} RunAccounted(limit: nat, s: State, actions: seq<Action>)
    requires Traced(s) && DeadCounted(limit, s) && AllSafe(s) && Unthreatened(limit, s, actions)
    ensures var s' := Run(limit, s, actions); DeadCounted(limit, s') && AllSafe(s')
    decreases |actions|
  {
    if actions != [] {
      StepTraced(limit, s, actions[0]);
      StepCounted(limit, s, actions[0]);
      StepAllSafe(limit, s, actions[0]);
      RunAccounted(limit, Step(limit, s, actions[0]), actions[1..]);
    }
  }

  /** With any number of flushes, crashes, full queues and failed calls, every put is still
      in the outbox unless it was delivered at least once or dead-lettered, and
      dead-lettered only after as many failures recorded against it as the limit. Puts
      under one id count apart. */
  lemma NothingLost(limit: nat, s: State, actions: seq<Action>)
    requires Empty(s) && Unthreatened(limit, s, actions)
    ensures var s' := Run(limit, s, actions);
      forall id, gen: nat | id in s'.written && 0 < gen <= s'.written[id] ::
        var c := Copy(id, gen); Stored(s', c) || c in s'.delivered || (c in s'.dead && Recorded(s', c) >= limit)
  {
    RunAccounted(limit, s, actions);
    var s' := Run(limit, s, actions);
    forall id, gen: nat | id in s'.written && 0 < gen <= s'.written[id]
      ensures var c := Copy(id, gen); Stored(s', c) || c in s'.delivered || (c in s'.dead && Recorded(s', c) >= limit)
    {
      assert Safe(s', Copy(id, gen));
    }
  }
}
