/** What a flush does to the entries it claims, delivery by delivery, and what failures can
    be recorded against a put. */
module Flushes {
  import opened Outbox

  predicate Failing(d: Delivery) { d.EnqueueFails? || d.HandlerFails? }

  predicate Succeeding(d: Delivery) { d.Enqueued? || d.Applied? || d.FoundInactive? }

  function CopyOf(c: Claim): Copy { Copy(c.id, c.gen) }

  // ---- An undisturbed flush ----

  /** The first delivery that finds the queue full. */
  function StopAt(ds: seq<Delivery>): (k: nat)
    ensures k <= |ds| && (k < |ds| ==> ds[k].Full?) && forall i | 0 <= i < k :: !ds[i].Full?
  {
    if ds == [] || ds[0].Full? then 0 else 1 + StopAt(ds[1..])
  }

  function Calls(w: nat, n: nat): seq<Action> { if n == 0 then [] else [Proceed(w)] + Calls(w, n - 1) }

  /** The flush of a batch whose deliveries come out as `ds`, with every store call applied
      and nobody else moving. */
  function Script(w: nat, ds: seq<Delivery>): seq<Action> {
    if ds == [] then Calls(w, 1)
    else if ds[0].Full? then [DeliverHead(w, Full)] + Calls(w, |ds| + 1)
    else [DeliverHead(w, ds[0])] + Calls(w, if Failing(ds[0]) then 2 else 1) + Script(w, ds[1..])
  }

  /** The claims are of what is stored. */
  predicate Stocked(s: State, batch: seq<Claim>) {
    forall i | 0 <= i < |batch| :: batch[i].id in s.entries && s.entries[batch[i].id].gen == batch[i].gen
  }

  /** Each delivery up to the stop is one its entry can have. */
  predicate AllPossible(s: State, batch: seq<Claim>, ds: seq<Delivery>)
    requires |ds| == |batch|
  {
    forall i | 0 <= i < |batch| && i <= StopAt(ds) :: Possible(s, batch[i].id, ds[i])
  }

  predicate InHand(s: State, w: nat, batch: seq<Claim>, ds: seq<Delivery>) {
    && w in s.workers && s.workers[w].flush == Deliver(batch) && |ds| == |batch| && Distinct(batch)
    && Stocked(s, batch) && AllPossible(s, batch, ds)
  }

  /** What becomes of a claimed entry: acked once delivered; released with one more attempt,
      or dead-lettered at the limit, if its delivery failed; released as it was if the flush
      stopped before or at it. */
  predicate Fate(limit: nat, s: State, s': State, c: Claim, d: Delivery, reached: bool)
    requires c.id in s.entries
  {
    var e, dies := s.entries[c.id], s.entries[c.id].attempts + 1 >= limit;
    && (if !reached then c.id in s'.entries && s'.entries[c.id] == e.(until := 0)
        else if Succeeding(d) || dies then c.id !in s'.entries
        else c.id in s'.entries && s'.entries[c.id] == e.(attempts := e.attempts + 1, until := 0))
    && (CopyOf(c) in s'.delivered <==> CopyOf(c) in s.delivered || (reached && Succeeding(d)))
    && (CopyOf(c) in s'.dead <==> CopyOf(c) in s.dead || (reached && !Succeeding(d) && dies))
    && Recorded(s', CopyOf(c)) == Recorded(s, CopyOf(c)) + if reached && !Succeeding(d) then 1 else 0
  }

  predicate Named(batch: seq<Claim>, id: Id) { exists i | 0 <= i < |batch| :: batch[i].id == id }

  predicate NamedCopy(batch: seq<Claim>, c: Copy) { exists i | 0 <= i < |batch| :: CopyOf(batch[i]) == c }

  predicate SameEntry(s: State, s': State, id: Id) {
    (id in s'.entries <==> id in s.entries) && (id in s.entries ==> s'.entries[id] == s.entries[id])
  }

  predicate SameCopy(s: State, s': State, c: Copy) {
    && (c in s'.delivered <==> c in s.delivered) && (c in s'.dead <==> c in s.dead)
    && Recorded(s', c) == Recorded(s, c)
  }

  /** Entries and puts outside the batch are as they were. */
  ghost predicate Spared(s: State, s': State, batch: seq<Claim>) {
    && (forall id :: !Named(batch, id) ==> SameEntry(s, s', id))
    && (forall c :: !NamedCopy(batch, c) ==> SameCopy(s, s', c))
  }

  lemma RunCalls(limit: nat, s: State, w: nat, n: nat)
    requires n > 0
    ensures Run(limit, s, Calls(w, n)) == Run(limit, Step(limit, s, Proceed(w)), Calls(w, n - 1))
  {
    assert Calls(w, n)[0] == Proceed(w) && Calls(w, n)[1..] == Calls(w, n - 1);
  }

  /** The entry in hand is delivered and acked. */
  lemma DeliveredOne(limit: nat, s: State, w: nat, batch: seq<Claim>, d: Delivery)
    requires w in s.workers && s.workers[w].flush == Deliver(batch) && batch != [] && Succeeding(d)
    requires Possible(s, batch[0].id, d)
    ensures Run(limit, s, [DeliverHead(w, d)] + Calls(w, 1)) ==
      s.(entries := s.entries - {batch[0].id}, delivered := s.delivered + {CopyOf(batch[0])},
         workers := s.workers[w := Worker(Deliver(batch[1..]), s.workers[w].held - {batch[0].id}, s.workers[w].round)])
  {
    var s1 := Step(limit, s, DeliverHead(w, d));
    assert s1 == DeliverStep(s, w, d);
    RunJoins(limit, s, [DeliverHead(w, d)], Calls(w, 1));
    RunOne(limit, s, DeliverHead(w, d));
    RunCalls(limit, s1, w, 1);
    assert Step(limit, s1, Proceed(w)) == ProceedStep(s1, w, limit);
  }

  /** The delivery in hand failed: the lease is released and the failure recorded. */
  lemma FailedOne(limit: nat, s: State, w: nat, batch: seq<Claim>, d: Delivery)
    requires w in s.workers && s.workers[w].flush == Deliver(batch) && batch != [] && Failing(d)
    requires Possible(s, batch[0].id, d) && batch[0].id in s.entries && s.entries[batch[0].id].gen == batch[0].gen
    ensures var id, copy, s' := batch[0].id, CopyOf(batch[0]), Run(limit, s, [DeliverHead(w, d)] + Calls(w, 2));
      var e := s.entries[id];
      && s'.workers == s.workers[w := Worker(Deliver(batch[1..]), s.workers[w].held - {id}, s.workers[w].round)]
      && s'.recorded == s.recorded[copy := Recorded(s, copy) + 1]
      && s'.delivered == s.delivered && s'.written == s.written
      && (e.attempts + 1 >= limit ==> s'.entries == s.entries - {id} && s'.dead == s.dead + {copy})
      && (e.attempts + 1 < limit ==>
            s'.dead == s.dead && s'.entries == s.entries[id := e.(attempts := e.attempts + 1, until := 0)])
  {
    var s1 := Step(limit, s, DeliverHead(w, d));
    assert s1 == DeliverStep(s, w, d);
    var s2 := Step(limit, s1, Proceed(w));
    assert s2 == ProceedStep(s1, w, limit);
    RunJoins(limit, s, [DeliverHead(w, d)], Calls(w, 2));
    RunOne(limit, s, DeliverHead(w, d));
    RunCalls(limit, s1, w, 2);
    RunCalls(limit, s2, w, 1);
    assert Step(limit, s2, Proceed(w)) == ProceedStep(s2, w, limit);
  }

  lemma GivesBackOne(limit: nat, s: State, w: nat, batch: seq<Claim>)
    requires w in s.workers && s.workers[w].flush == GivingBack(batch) && batch != []
    ensures var s', id := Step(limit, s, Proceed(w)), batch[0].id;
      && s' == s.(entries := s'.entries, workers := s'.workers) && s'.entries.Keys == s.entries.Keys
      && s'.workers == s.workers[w := s'.workers[w]] && s'.workers[w].flush == GivingBack(batch[1..])
      && s'.workers[w].round == s.workers[w].round
      && forall k :: k in s.entries ==> s'.entries[k] == if k == id then s.entries[k].(until := 0) else s.entries[k]
  {
    assert Step(limit, s, Proceed(w)) == ProceedStep(s, w, limit);
  }

  /** The rest of the batch is released, the flush ended, and nothing else changed. */
  predicate GivenBack(s: State, s': State, w: nat, batch: seq<Claim>)
    requires w in s.workers
  {
    && s' == s.(entries := s'.entries, workers := s.workers[w := Worker(Done, map[], s.workers[w].round)])
    && Released(s.entries, s'.entries, batch)
  }

  lemma GivenBackJoin(s: State, s1: State, s': State, w: nat, batch: seq<Claim>)
    requires w in s.workers && w in s1.workers && batch != [] && GivenBack(s1, s', w, batch[1..])
    requires s1 == s.(entries := s1.entries, workers := s1.workers) && s1.entries.Keys == s.entries.Keys
    requires s1.workers == s.workers[w := s1.workers[w]] && s1.workers[w].round == s.workers[w].round
    requires forall k :: k in s.entries ==>
      s1.entries[k] == if k == batch[0].id then s.entries[k].(until := 0) else s.entries[k]
    ensures GivenBack(s, s', w, batch)
  {
    ReleasedJoin(s.entries, s1.entries, s'.entries, batch);
  }

  lemma GivesBackNone(limit: nat, s: State, w: nat, batch: seq<Claim>)
    requires w in s.workers && s.workers[w].flush == GivingBack(batch) && batch == []
    ensures GivenBack(s, Step(limit, s, Proceed(w)), w, batch)
  {
    assert Step(limit, s, Proceed(w)) == ProceedStep(s, w, limit);
  }

  /** A full queue: the rest of the batch is given back, one call per entry, and the flush
      ends. Nothing is counted. */
  lemma {:induction false} GivesBackRest(limit: nat, s: State, w: nat, batch: seq<Claim>)
    requires w in s.workers && s.workers[w].flush == GivingBack(batch)
    ensures GivenBack(s, Run(limit, s, Calls(w, |batch| + 1)), w, batch)
    decreases |batch|
  {
    var s1 := Step(limit, s, Proceed(w));
    RunCalls(limit, s, w, |batch| + 1);
    if batch == [] {
      GivesBackNone(limit, s, w, batch);
    } else {
      GivesBackOne(limit, s, w, batch);
      GivesBackRest(limit, s1, w, batch[1..]);
      GivenBackJoin(s, s1, Run(limit, s1, Calls(w, |batch|)), w, batch);
    }
  }

  predicate Released(entries: map<Id, Entry>, entries': map<Id, Entry>, batch: seq<Claim>) {
    && entries'.Keys == entries.Keys
    && forall id :: id in entries ==>
         entries'[id] == if Named(batch, id) then entries[id].(until := 0) else entries[id]
  }

  lemma ReleasedJoin(entries: map<Id, Entry>, entries1: map<Id, Entry>, entries': map<Id, Entry>, batch: seq<Claim>)
    requires batch != [] && entries1.Keys == entries.Keys && Released(entries1, entries', batch[1..])
    requires forall id :: id in entries ==>
      entries1[id] == if id == batch[0].id then entries[id].(until := 0) else entries[id]
    ensures Released(entries, entries', batch)
  {
    forall id | id in entries
      ensures entries'[id] == if Named(batch, id) then entries[id].(until := 0) else entries[id]
    {
      NamedNext(batch, id);
    }
  }

  lemma NamedNext(batch: seq<Claim>, id: Id)
    requires batch != []
    ensures Named(batch, id) <==> id == batch[0].id || Named(batch[1..], id)
  {
    if i :| 0 <= i < |batch| && batch[i].id == id {
      if i > 0 { assert batch[1..][i - 1].id == id; }
    }
    if i :| 0 <= i < |batch[1..]| && batch[1..][i].id == id { assert batch[i + 1].id == id; }
  }

  lemma FullStops(limit: nat, s: State, w: nat, batch: seq<Claim>, ds: seq<Delivery>)
    requires InHand(s, w, batch, ds) && ds != [] && ds[0].Full?
    ensures var s' := Run(limit, s, Script(w, ds));
      && s'.workers == s.workers[w := Worker(Done, map[], s.workers[w].round)] && Spared(s, s', batch)
      && forall i | 0 <= i < |batch| :: Fate(limit, s, s', batch[i], ds[i], false)
  {
    var deliver := DeliverHead(w, Full);
    var s1 := Step(limit, s, deliver);
    assert s1 == DeliverStep(s, w, Full);
    RunJoins(limit, s, [deliver], Calls(w, |ds| + 1));
    RunOne(limit, s, deliver);
    GivesBackRest(limit, s1, w, batch);
  }

  /** One delivery before the queue is full, and the rest of the batch in hand. */
  function AfterOne(w: nat, d: Delivery): seq<Action> { [DeliverHead(w, d)] + Calls(w, if Failing(d) then 2 else 1) }

  /** A change of one entry and one put. */
  lemma OnlyOne(s: State, s': State, c: Claim)
    requires forall id :: id != c.id ==> SameEntry(s, s', id)
    requires forall x: Copy :: x != CopyOf(c) ==> SameCopy(s, s', x)
    ensures Spared(s, s', [c])
  {
    assert [c][0] == c && Named([c], c.id) && NamedCopy([c], CopyOf(c));
  }

  lemma RestInHand(s: State, s': State, w: nat, batch: seq<Claim>, ds: seq<Delivery>)
    requires InHand(s, w, batch, ds) && ds != [] && !ds[0].Full?
    requires w in s'.workers && s'.workers[w].flush == Deliver(batch[1..])
    requires forall id :: id != batch[0].id ==> SameEntry(s, s', id)
    ensures InHand(s', w, batch[1..], ds[1..])
  {
    forall i | 0 <= i < |batch[1..]|
      ensures batch[1..][i] == batch[i + 1] && batch[i + 1].id != batch[0].id && ds[1..][i] == ds[i + 1]
      ensures SameEntry(s, s', batch[1..][i].id)
    {
    }
  }

  lemma OneDelivered(limit: nat, s: State, w: nat, batch: seq<Claim>, ds: seq<Delivery>)
    requires InHand(s, w, batch, ds) && ds != [] && Succeeding(ds[0])
    ensures var s', c := Run(limit, s, AfterOne(w, ds[0])), batch[0];
      && (forall id :: id != c.id ==> SameEntry(s, s', id))
      && (forall x: Copy :: x != CopyOf(c) ==> SameCopy(s, s', x))
      && Fate(limit, s, s', c, ds[0], true)
      && s'.workers == s.workers[w := Worker(Deliver(batch[1..]), s.workers[w].held - {c.id}, s.workers[w].round)]
  {
    DeliveredOne(limit, s, w, batch, ds[0]);
  }

  lemma OneFailed(limit: nat, s: State, w: nat, batch: seq<Claim>, ds: seq<Delivery>)
    requires InHand(s, w, batch, ds) && ds != [] && Failing(ds[0])
    ensures var s', c := Run(limit, s, AfterOne(w, ds[0])), batch[0];
      && (forall id :: id != c.id ==> SameEntry(s, s', id))
      && (forall x: Copy :: x != CopyOf(c) ==> SameCopy(s, s', x))
      && Fate(limit, s, s', c, ds[0], true)
      && s'.workers == s.workers[w := Worker(Deliver(batch[1..]), s.workers[w].held - {c.id}, s.workers[w].round)]
  {
    FailedOne(limit, s, w, batch, ds[0]);
  }

  lemma OneSettled(limit: nat, s: State, w: nat, batch: seq<Claim>, ds: seq<Delivery>)
    requires InHand(s, w, batch, ds) && ds != [] && !ds[0].Full?
    ensures var s' := Run(limit, s, AfterOne(w, ds[0]));
      && InHand(s', w, batch[1..], ds[1..]) && Spared(s, s', [batch[0]])
      && Fate(limit, s, s', batch[0], ds[0], true)
      && s'.workers == s.workers[w := s'.workers[w]] && s'.workers[w].round == s.workers[w].round
  {
    if Failing(ds[0]) { OneFailed(limit, s, w, batch, ds); } else { OneDelivered(limit, s, w, batch, ds); }
    OnlyOne(s, Run(limit, s, AfterOne(w, ds[0])), batch[0]);
    RestInHand(s, Run(limit, s, AfterOne(w, ds[0])), w, batch, ds);
  }

  /** Every entry of the batch met its fate, every other entry and put is as it was. */
  ghost predicate Settled(limit: nat, s: State, s': State, batch: seq<Claim>, ds: seq<Delivery>)
    requires |ds| == |batch| && Stocked(s, batch)
  {
    Spared(s, s', batch) && forall i | 0 <= i < |batch| :: Fate(limit, s, s', batch[i], ds[i], i < StopAt(ds))
  }

  lemma EmptyEnds(limit: nat, s: State, w: nat, batch: seq<Claim>, ds: seq<Delivery>)
    requires InHand(s, w, batch, ds) && ds == []
    ensures Run(limit, s, Script(w, ds)) == s.(workers := s.workers[w := Worker(Done, map[], s.workers[w].round)])
  {
    RunCalls(limit, s, w, 1);
    assert Step(limit, s, Proceed(w)) == ProceedStep(s, w, limit);
  }

  lemma ScriptNext(limit: nat, s: State, w: nat, ds: seq<Delivery>)
    requires ds != [] && !ds[0].Full?
    ensures Run(limit, s, Script(w, ds)) == Run(limit, Run(limit, s, AfterOne(w, ds[0])), Script(w, ds[1..]))
  {
    RunJoins(limit, s, AfterOne(w, ds[0]), Script(w, ds[1..]));
  }

  /** Every entry of the batch meets its fate, every other entry and put is as it was, and
      the flush ends holding nothing. */
  lemma {:induction false} FlushSettles(limit: nat, s: State, w: nat, batch: seq<Claim>, ds: seq<Delivery>)
    requires InHand(s, w, batch, ds)
    ensures var s' := Run(limit, s, Script(w, ds));
      s'.workers == s.workers[w := Worker(Done, map[], s.workers[w].round)] && Settled(limit, s, s', batch, ds)
    decreases |ds|
  {
    if ds == [] {
      EmptyEnds(limit, s, w, batch, ds);
    } else if ds[0].Full? {
      FullStops(limit, s, w, batch, ds);
    } else {
      var s1 := Run(limit, s, AfterOne(w, ds[0]));
      OneSettled(limit, s, w, batch, ds);
      ScriptNext(limit, s, w, ds);
      FlushSettles(limit, s1, w, batch[1..], ds[1..]);
      FatesJoin(limit, s, s1, Run(limit, s1, Script(w, ds[1..])), batch, ds);
    }
  }

  /** The fate of the first entry is not touched by the rest. */
  lemma FirstFate(limit: nat, s: State, s1: State, s': State, batch: seq<Claim>, d: Delivery)
    requires batch != [] && Distinct(batch) && batch[0].id in s.entries
    requires Fate(limit, s, s1, batch[0], d, true) && Spared(s1, s', batch[1..])
    ensures Fate(limit, s, s', batch[0], d, true)
  {
    assert forall i | 0 <= i < |batch[1..]| :: batch[1..][i].id == batch[i + 1].id != batch[0].id;
    assert !Named(batch[1..], batch[0].id) && !NamedCopy(batch[1..], CopyOf(batch[0]));
    assert SameEntry(s1, s', batch[0].id) && SameCopy(s1, s', CopyOf(batch[0]));
  }

  /** The fate of a later entry does not depend on the first. */
  lemma LaterFate(limit: nat, s: State, s1: State, s': State, first: Claim, c: Claim, d: Delivery, reached: bool)
    requires c.id != first.id && c.id in s.entries && Spared(s, s1, [first]) && c.id in s1.entries
    requires Fate(limit, s1, s', c, d, reached)
    ensures Fate(limit, s, s', c, d, reached)
  {
    assert !Named([first], c.id) && !NamedCopy([first], CopyOf(c));
    assert SameEntry(s, s1, c.id) && SameCopy(s, s1, CopyOf(c));
  }

  lemma SparedJoin(s: State, s1: State, s': State, batch: seq<Claim>)
    requires batch != [] && Spared(s, s1, [batch[0]]) && Spared(s1, s', batch[1..])
    ensures Spared(s, s', batch)
  {
    forall id | !Named(batch, id) ensures SameEntry(s, s', id) {
      NamedNext(batch, id);
      assert !Named([batch[0]], id);
      assert SameEntry(s, s1, id) && SameEntry(s1, s', id);
    }
    forall c | !NamedCopy(batch, c) ensures SameCopy(s, s', c) {
      assert CopyOf(batch[0]) != c && !NamedCopy([batch[0]], c);
      assert forall i | 0 <= i < |batch[1..]| :: batch[1..][i] == batch[i + 1];
      assert !NamedCopy(batch[1..], c);
      assert SameCopy(s, s1, c) && SameCopy(s1, s', c);
    }
  }

  /** The fate of the first entry, and then of the rest. */
  lemma FatesJoin(limit: nat, s: State, s1: State, s': State, batch: seq<Claim>, ds: seq<Delivery>)
    requires |ds| == |batch| > 0 && Distinct(batch) && !ds[0].Full? && Stocked(s, batch) && Stocked(s1, batch[1..])
    requires Spared(s, s1, [batch[0]]) && Fate(limit, s, s1, batch[0], ds[0], true)
    requires Settled(limit, s1, s', batch[1..], ds[1..])
    ensures Settled(limit, s, s', batch, ds)
  {
    SparedJoin(s, s1, s', batch);
    FirstFate(limit, s, s1, s', batch, ds[0]);
    forall i | 0 <= i < |batch| ensures Fate(limit, s, s', batch[i], ds[i], i < StopAt(ds)) {
      if i > 0 {
        assert batch[1..][i - 1] == batch[i] && ds[1..][i - 1] == ds[i];
        LaterFate(limit, s, s1, s', batch[0], batch[i], ds[i], i < StopAt(ds));
      }
    }
  }

  /** A claim moves the deadlines of its entries and nothing else in the store. */
  predicate Claimed(s: State, s': State, time: nat, ids: seq<Id>) {
    && s'.entries.Keys == s.entries.Keys
    && (forall id :: id in s.entries && id in ids ==> s'.entries[id] == s.entries[id].(until := time + LEASE_TTL))
    && (forall id :: id in s.entries && id !in ids ==> s'.entries[id] == s.entries[id])
    && s'.delivered == s.delivered && s'.dead == s.dead && s'.recorded == s.recorded
  }

  lemma ClaimMovesDeadlines(limit: nat, s: State, w: nat, time: nat, ids: seq<Id>)
    requires Claimable(s, ClaimBatch(w, time, ids))
    ensures var s' := Step(limit, s, ClaimBatch(w, time, ids));
      && Claimed(s, s', time, ids) && s'.workers == s.workers[w := s'.workers[w]]
      && s'.workers[w].flush == Deliver(Claims(s, ids, time + LEASE_TTL)) && s'.workers[w].round == Idle
  {
    assert Step(limit, s, ClaimBatch(w, time, ids)) == ClaimStep(s, w, time, ids);
  }

  lemma ClaimAt(s: State, ids: seq<Id>, deadline: nat, i: nat)
    requires (forall id :: id in ids ==> id in s.entries) && i < |ids|
    ensures ids[i] in ids && ids[i] in s.entries
    ensures Claims(s, ids, deadline)[i] == Claim(ids[i], s.entries[ids[i]].gen, deadline)
  {
    assert ids[i] in ids;
  }

  lemma ClaimedStocked(s: State, s': State, time: nat, ids: seq<Id>)
    requires (forall id :: id in ids ==> id in s.entries) && Claimed(s, s', time, ids)
    ensures Stocked(s, Claims(s, ids, time + LEASE_TTL)) && Stocked(s', Claims(s, ids, time + LEASE_TTL))
  {
    forall i: nat | i < |ids| ensures ids[i] in s.entries && s'.entries[ids[i]].gen == s.entries[ids[i]].gen {
      ClaimAt(s, ids, time + LEASE_TTL, i);
    }
  }

  lemma ClaimedPossible(s: State, s': State, time: nat, ids: seq<Id>, ds: seq<Delivery>)
    requires (forall id :: id in ids ==> id in s.entries) && Claimed(s, s', time, ids) && |ds| == |ids|
    requires AllPossible(s, Claims(s, ids, time + LEASE_TTL), ds)
    ensures AllPossible(s', Claims(s, ids, time + LEASE_TTL), ds)
  {
    var batch := Claims(s, ids, time + LEASE_TTL);
    forall i: nat | i < |batch| && i <= StopAt(ds) ensures Possible(s', batch[i].id, ds[i]) {
      ClaimAt(s, ids, time + LEASE_TTL, i);
      assert Possible(s, batch[i].id, ds[i]);
    }
  }

  lemma ClaimsDistinct(s: State, ids: seq<Id>, deadline: nat)
    requires forall id :: id in ids ==> id in s.entries
    requires forall j, k | 0 <= j < k < |ids| :: ids[j] != ids[k]
    ensures Distinct(Claims(s, ids, deadline))
  {
  }

  /** What is released or removed afterwards does not show the claim. */
  lemma FateWithoutClaim(limit: nat, s: State, s1: State, s': State, time: nat, ids: seq<Id>, c: Claim, d: Delivery,
                         reached: bool)
    requires Claimed(s, s1, time, ids) && c.id in s.entries && c.id in ids && Fate(limit, s1, s', c, d, reached)
    ensures Fate(limit, s, s', c, d, reached)
  {
  }

  lemma SparedByClaim(s: State, s1: State, s': State, time: nat, ids: seq<Id>, batch: seq<Claim>)
    requires Claimed(s, s1, time, ids) && Spared(s1, s', batch) && |batch| == |ids|
    requires forall i | 0 <= i < |ids| :: batch[i].id == ids[i]
    ensures Spared(s, s', batch)
  {
    forall id | !Named(batch, id) ensures SameEntry(s, s', id) {
      assert SameEntry(s1, s', id);
      assert forall i | 0 <= i < |ids| :: batch[i].id != id;
    }
    forall c | !NamedCopy(batch, c) ensures SameCopy(s, s', c) { assert SameCopy(s1, s', c); }
  }

  lemma SettledWithoutClaim(limit: nat, s: State, s1: State, s': State, time: nat, ids: seq<Id>, ds: seq<Delivery>)
    requires (forall id :: id in ids ==> id in s.entries) && Claimed(s, s1, time, ids) && |ds| == |ids|
    requires var batch := Claims(s, ids, time + LEASE_TTL);
      Stocked(s, batch) && Stocked(s1, batch) && Settled(limit, s1, s', batch, ds)
    ensures Settled(limit, s, s', Claims(s, ids, time + LEASE_TTL), ds)
  {
    var batch := Claims(s, ids, time + LEASE_TTL);
    forall i: nat | i < |ids| ensures batch[i].id == ids[i] { ClaimAt(s, ids, time + LEASE_TTL, i); }
    SparedByClaim(s, s1, s', time, ids, batch);
    forall i: nat | i < |batch| ensures Fate(limit, s, s', batch[i], ds[i], i < StopAt(ds)) {
      ClaimAt(s, ids, time + LEASE_TTL, i);
      FateWithoutClaim(limit, s, s1, s', time, ids, batch[i], ds[i], i < StopAt(ds));
    }
  }

  lemma FlushOfClaims(limit: nat, s: State, s1: State, w: nat, time: nat, ids: seq<Id>, ds: seq<Delivery>)
    requires Claimable(s, ClaimBatch(w, time, ids)) && |ds| == |ids| && Claimed(s, s1, time, ids)
    requires AllPossible(s, Claims(s, ids, time + LEASE_TTL), ds)
    requires w in s1.workers && s1.workers[w].flush == Deliver(Claims(s, ids, time + LEASE_TTL))
    ensures var batch, s' := Claims(s, ids, time + LEASE_TTL), Run(limit, s1, Script(w, ds));
      && Stocked(s, batch) && s'.workers == s1.workers[w := Worker(Done, map[], s1.workers[w].round)]
      && Settled(limit, s, s', batch, ds)
  {
    ClaimedStocked(s, s1, time, ids);
    ClaimedPossible(s, s1, time, ids, ds);
    ClaimsDistinct(s, ids, time + LEASE_TTL);
    FlushSettles(limit, s1, w, Claims(s, ids, time + LEASE_TTL), ds);
    SettledWithoutClaim(limit, s, s1, Run(limit, s1, Script(w, ds)), time, ids, ds);
  }

  /** A new flush may take up to 256 entries, each stored, due and not under a running lease. */
  predicate Takes(s: State, w: nat, time: nat, ids: seq<Id>) {
    && w !in s.workers && |ids| <= 256 && (forall j, k | 0 <= j < k < |ids| :: ids[j] != ids[k])
    && forall i | 0 <= i < |ids| ::
         ids[i] in s.entries && s.entries[ids[i]].until <= time && s.entries[ids[i]].available <= time
  }

  /** System intents are handled in process, all others are enqueued. */
  predicate Suits(e: Entry, d: Delivery) {
    if e.system then d.Applied? || d.FoundInactive? || d.HandlerFails? else d.Enqueued? || d.Full? || d.EnqueueFails?
  }

  lemma TakesClaimable(s: State, w: nat, time: nat, ids: seq<Id>)
    requires Takes(s, w, time, ids)
    ensures Claimable(s, ClaimBatch(w, time, ids))
  {
  }

  lemma SuitsPossible(s: State, w: nat, time: nat, ids: seq<Id>, ds: seq<Delivery>)
    requires Takes(s, w, time, ids) && |ds| == |ids| && Claimable(s, ClaimBatch(w, time, ids))
    requires forall i | 0 <= i < |ids| && i <= StopAt(ds) :: Suits(s.entries[ids[i]], ds[i])
    ensures AllPossible(s, Claims(s, ids, time + LEASE_TTL), ds)
  {
    forall i: nat | i < |ids| && i <= StopAt(ds) ensures Possible(s, Claims(s, ids, time + LEASE_TTL)[i].id, ds[i]) {
      ClaimAt(s, ids, time + LEASE_TTL, i);
      assert Suits(s.entries[ids[i]], ds[i]);
    }
  }

  /** A delivery that does not suit the entry in hand does not happen. */
  lemma UnsuitedIgnored(limit: nat, s: State, w: nat, d: Delivery)
    requires w in s.workers && s.workers[w].flush.Deliver? && s.workers[w].flush.batch != []
    requires var id := s.workers[w].flush.batch[0].id; id in s.entries && !Suits(s.entries[id], d)
    ensures Step(limit, s, DeliverHead(w, d)) == s
  {
  }

  /** The batch is settled, and the flush has ended holding nothing. */
  ghost predicate Flushed(limit: nat, s: State, s': State, w: nat, batch: seq<Claim>, ds: seq<Delivery>) {
    && |ds| == |batch| && Stocked(s, batch) && Settled(limit, s, s', batch, ds)
    && s'.workers == s.workers[w := Worker(Done, map[], Idle)]
  }

  lemma FlushOfTaken(limit: nat, s: State, s1: State, w: nat, time: nat, ids: seq<Id>, ds: seq<Delivery>)
    requires Takes(s, w, time, ids) && |ds| == |ids| && Claimable(s, ClaimBatch(w, time, ids))
    requires forall i | 0 <= i < |ids| && i <= StopAt(ds) :: Suits(s.entries[ids[i]], ds[i])
    requires Claimed(s, s1, time, ids) && w in s1.workers && s1.workers == s.workers[w := s1.workers[w]]
    requires s1.workers[w].flush == Deliver(Claims(s, ids, time + LEASE_TTL)) && s1.workers[w].round == Idle
    ensures Flushed(limit, s, Run(limit, s1, Script(w, ds)), w, Claims(s, ids, time + LEASE_TTL), ds)
  {
    SuitsPossible(s, w, time, ids, ds);
    FlushOfClaims(limit, s, s1, w, time, ids, ds);
  }

  /** A whole flush: whatever is due is claimed, each entry meets the fate of its delivery as
      if the claim had not been there, no other entry or put changes, and the flush ends
      holding nothing. */
  lemma ClaimedFlush(limit: nat, s: State, s1: State, w: nat, time: nat, ids: seq<Id>, ds: seq<Delivery>)
    requires Takes(s, w, time, ids) && |ds| == |ids| && s1 == Step(limit, s, ClaimBatch(w, time, ids))
    requires forall i | 0 <= i < |ids| && i <= StopAt(ds) :: Suits(s.entries[ids[i]], ds[i])
    ensures Claimable(s, ClaimBatch(w, time, ids))
    ensures Flushed(limit, s, Run(limit, s1, Script(w, ds)), w, Claims(s, ids, time + LEASE_TTL), ds)
  {
    TakesClaimable(s, w, time, ids);
    ClaimMovesDeadlines(limit, s, w, time, ids);
    FlushOfTaken(limit, s, s1, w, time, ids, ds);
  }

  /** A put of an absent id is a new entry, due from its time on, unleased and uncounted; a
      put of one that is stored changes nothing. */
  lemma PutStores(limit: nat, s: State, id: Id, system: bool, available: nat)
    ensures var s' := Step(limit, s, Put(id, system, available));
      if id in s.entries then s' == s
      else
        && s'.entries == s.entries[id := Entry(Written(s, id) + 1, system, available, 0, 0)]
        && Written(s', id) == Written(s, id) + 1 && s'.workers == s.workers
  {
  }

  /** Calls that fail change nothing in the store. A failed ack ends the flush, with the
      entry left for the next; after a failed release the failure is still recorded; a
      failed record or give-back is passed over. */
  lemma LostCalls(limit: nat, s: State, w: nat)
    requires w in s.workers && !s.workers[w].flush.Done? && s.workers[w].flush.batch != []
    ensures var s', flush := Step(limit, s, CallFails(w)), s.workers[w].flush;
      && s' == s.(workers := s'.workers)
      && (flush.Acking? ==> s'.workers == s.workers - {w})
      && (flush.Releasing? ==> w in s'.workers && s'.workers[w].flush == Recording(flush.batch))
      && (flush.Recording? ==> w in s'.workers && s'.workers[w].flush == Deliver(flush.batch[1..]))
      && (flush.GivingBack? ==> w in s'.workers && s'.workers[w].flush == GivingBack(flush.batch[1..]))
      && (flush.Deliver? ==> s'.workers == s.workers)
  {
  }

  // ---- Failures recorded and deliveries failed ----

  /** The step is a failed delivery of that id. */
  predicate Fails(s: State, a: Action, id: Id) {
    && a.DeliverHead? && Failing(a.delivery) && Deliverable(s, a.worker, a.delivery)
    && s.workers[a.worker].flush.batch[0].id == id
  }

  /** How many deliveries of the id failed in the run. */
  function FailedDeliveries(limit: nat, s: State, actions: seq<Action>, id: Id): nat
    decreases |actions|
  {
    if actions == [] then 0
    else
      (if Fails(s, actions[0], id) then 1 else 0)
      + FailedDeliveries(limit, Step(limit, s, actions[0]), actions[1..], id)
  }

  predicate AboutToRecord(worker: Worker, id: Id) {
    && (worker.flush.Releasing? || worker.flush.Recording?)
    && worker.flush.batch != [] && worker.flush.batch[0].id == id
  }

  /** The flushes that still have to record a failure of the id. */
  function Pending(s: State, id: Id): set<nat> { set w | w in s.workers && AboutToRecord(s.workers[w], id) }

  function Due(s: State, c: Copy): nat { Recorded(s, c) + |Pending(s, c.id)| }

  lemma SizesAt(a: set<nat>, b: set<nat>, w: nat)
    requires forall x :: x != w ==> (x in a <==> x in b)
    ensures |b| == |a| - (if w in a then 1 else 0) + (if w in b then 1 else 0)
  {
    var rest := a - {w};
    assert rest == b - {w};
    if w in a { assert a == rest + {w}; } else { assert a == rest; }
    if w in b { assert b == rest + {w}; } else { assert b == rest; }
  }

  /** Workers other than the one that moves are as they were. */
  lemma PendingOne(s: State, s': State, w: nat, id: Id)
    requires forall x :: x != w ==> (x in s'.workers <==> x in s.workers)
    requires forall x :: x != w && x in s.workers ==> s'.workers[x].flush == s.workers[x].flush
    ensures |Pending(s', id)| == |Pending(s, id)|
      - (if w in s.workers && AboutToRecord(s.workers[w], id) then 1 else 0)
      + (if w in s'.workers && AboutToRecord(s'.workers[w], id) then 1 else 0)
  {
    forall x | x != w ensures x in Pending(s, id) <==> x in Pending(s', id) {}
    SizesAt(Pending(s, id), Pending(s', id), w);
  }

  lemma DeliverDue(limit: nat, s: State, w: nat, d: Delivery, c: Copy)
    requires Deliverable(s, w, d)
    ensures Due(DeliverStep(s, w, d), c) == Due(s, c) + if Fails(s, DeliverHead(w, d), c.id) then 1 else 0
  {
    PendingOne(s, DeliverStep(s, w, d), w, c.id);
  }

  lemma ProceedRecords(limit: nat, s: State, w: nat, c: Copy)
    requires w in s.workers
    ensures Recorded(ProceedStep(s, w, limit), c) <= Recorded(s, c)
      + if s.workers[w].flush.Recording? && AboutToRecord(s.workers[w], c.id) then 1 else 0
  {
    var flush := s.workers[w].flush;
    if flush.Recording? && flush.batch != [] && flush.batch[0].id in s.entries {
      RecordCounts(s, flush.batch[0].id, limit, c);
    }
  }

  lemma NextDue(worker: Worker, id: Id)
    ensures AboutToRecord(NextWorker(worker), id) ==> worker.flush.Releasing? && AboutToRecord(worker, id)
  {
  }

  lemma ProceedDue(limit: nat, s: State, w: nat, c: Copy)
    requires w in s.workers
    ensures Due(ProceedStep(s, w, limit), c) <= Due(s, c)
  {
    PendingOne(s, ProceedStep(s, w, limit), w, c.id);
    ProceedRecords(limit, s, w, c);
    NextDue(s.workers[w], c.id);
  }

  lemma FailDue(s: State, w: nat, c: Copy)
    requires w in s.workers
    ensures Due(FailStep(s, w), c) <= Due(s, c)
  {
    PendingOne(s, FailStep(s, w), w, c.id);
    NextDue(s.workers[w], c.id);
  }

  /** A put, a claim, a move of the keeper or a crash. */
  lemma QuietDue(s: State, s': State, w: nat, c: Copy)
    requires s'.recorded == s.recorded
    requires forall x :: x != w ==> (x in s'.workers <==> x in s.workers)
    requires forall x :: x != w && x in s.workers ==> s'.workers[x].flush == s.workers[x].flush
    requires w in s'.workers ==>
      s'.workers[w].flush.Deliver? || (w in s.workers && s'.workers[w].flush == s.workers[w].flush)
    ensures Due(s', c) <= Due(s, c)
  {
    PendingOne(s, s', w, c.id);
  }

  /** A step adds to what is recorded or about to be only if it is a failed delivery. */
  lemma StepDue(limit: nat, s: State, a: Action, c: Copy)
    ensures Due(Step(limit, s, a), c) <= Due(s, c) + if Fails(s, a, c.id) then 1 else 0
  {
    match a
    case Put(id, system, available) => QuietDue(s, PutEntry(s, id, system, available), 0, c);
    case ClaimBatch(w, time, ids) => if Claimable(s, a) { QuietDue(s, ClaimStep(s, w, time, ids), w, c); }
    case DeliverHead(w, d) => if Deliverable(s, w, d) { DeliverDue(limit, s, w, d, c); }
    case Proceed(w) => if w in s.workers { ProceedDue(limit, s, w, c); }
    case CallFails(w) => if w in s.workers { FailDue(s, w, c); }
    case CallRenew(w, time) =>
      if w in s.workers && s.workers[w].round.Asking? { QuietDue(s, RenewStep(s, w, time), w, c); }
    case Crash(w) => QuietDue(s, s.(workers := s.workers - {w}), w, c);
    case Keep(w, move) => if w in s.workers { QuietDue(s, WithWorker(s, w, KeeperStep(s.workers[w], move)), w, c); }
  }

  lemma {:induction false} RunDue(limit: nat, s: State, actions: seq<Action>, c: Copy)
    ensures Due(Run(limit, s, actions), c) <= Due(s, c) + FailedDeliveries(limit, s, actions, c.id)
    decreases |actions|
  {
    if actions != [] {
      StepDue(limit, s, actions[0], c);
      RunDue(limit, Step(limit, s, actions[0]), actions[1..], c);
    }
  }

  /** Over any run the failures recorded against a put are at most the deliveries of its id
      that failed: a full queue, a crash, a lapsed lease or a lost call never counts. */
  lemma RecordedWithinFailed(limit: nat, start: State, actions: seq<Action>, c: Copy)
    requires Empty(start)
    ensures Recorded(Run(limit, start, actions), c) <= FailedDeliveries(limit, start, actions, c.id)
  {
    RunDue(limit, start, actions, c);
    assert Pending(start, c.id) == {};
  }

  predicate DeadRecorded(s: State) { forall c :: c in s.dead ==> Recorded(s, c) > 0 }

  lemma RecordDeadRecorded(limit: nat, s: State, id: Id)
    requires DeadRecorded(s) && id in s.entries
    ensures DeadRecorded(Record(s, id, limit))
  {
    var s' := Record(s, id, limit);
    forall c | c in s'.dead ensures Recorded(s', c) > 0 { RecordCounts(s, id, limit, c); }
  }

  lemma CallDeadRecorded(limit: nat, s: State, flush: Flush)
    requires DeadRecorded(s)
    ensures DeadRecorded(StoreCall(s, flush, limit))
  {
    if flush.Recording? && flush.batch != [] && flush.batch[0].id in s.entries {
      RecordDeadRecorded(limit, s, flush.batch[0].id);
    }
  }

  lemma StepDeadRecorded(limit: nat, s: State, a: Action)
    requires DeadRecorded(s)
    ensures DeadRecorded(Step(limit, s, a))
  {
    var s' := Step(limit, s, a);
    if a.Proceed? {
      if a.worker in s.workers { CallDeadRecorded(limit, s, s.workers[a.worker].flush); }
    } else if a.DeliverHead? || a.CallFails? || a.Keep? || a.Crash? {
      LocalStep(limit, s, a);
    } else {
      LeaseBooks(limit, s, a);
    }
  }

  lemma LeaseBooks(limit: nat, s: State, a: Action)
    requires a.Put? || a.ClaimBatch? || a.CallRenew?
    ensures Step(limit, s, a).dead == s.dead && Step(limit, s, a).recorded == s.recorded
  {
  }

  lemma {:induction false} RunBooked(limit: nat, s: State, actions: seq<Action>)
    requires DeadRecorded(s) && DeadCounted(limit, s)
    ensures DeadRecorded(Run(limit, s, actions)) && DeadCounted(limit, Run(limit, s, actions))
    decreases |actions|
  {
    if actions != [] {
      StepDeadRecorded(limit, s, actions[0]);
      StepCounted(limit, s, actions[0]);
      RunBooked(limit, Step(limit, s, actions[0]), actions[1..]);
    }
  }

  /** An id none of whose deliveries failed has no attempts against it and no put of it was
      dead-lettered. */
  lemma UnfailedUncounted(limit: nat, start: State, actions: seq<Action>, id: Id)
    requires Empty(start) && FailedDeliveries(limit, start, actions, id) == 0
    ensures var s := Run(limit, start, actions);
      (id in s.entries ==> s.entries[id].attempts == 0) && forall c :: c in s.dead ==> c.id != id
  {
    var s := Run(limit, start, actions);
    RunBooked(limit, start, actions);
    forall c: Copy | c.id == id ensures Recorded(s, c) == 0 { RecordedWithinFailed(limit, start, actions, c); }
  }
}
