/** One pass of the deadline sweep: which due executions it attempts when some of them
    are set aside by the backoff table. */
module Sweeping {
  import opened Common
  import opened Backoff

  /** How one expiry call comes back: it wrote the timeout, finished an earlier cascade,
      found nothing to do, found the execution canceling or gone, failed, or was cut
      short by the sweep's own shutdown. */
  datatype Attempt = Expired | Resumed | Benign | Aside | Fails | Interrupted

  datatype Stop = NotStopped | LeadershipLost | Canceled

  datatype Result = Result(
    listed: nat, attempted: nat, released: nat, expired: nat, failed: nat, skipped: nat, deferred: nat, stop: Stop)

  predicate Distinct(keys: seq<Key>) { forall j, k | 0 <= j < k < |keys| :: keys[j] != keys[k] }

  /** The first `upto` keys that are not set aside, in order. */
  function Open(keys: seq<Key>, entries: map<Key, Entry>, now: nat, upto: nat): seq<Key>
    requires upto <= |keys|
  {
    if upto == 0 then []
    else Open(keys, entries, now, upto - 1) + if Allowed(entries, keys[upto - 1], now) then [keys[upto - 1]] else []
  }

  function AtMost(n: nat, keys: seq<Key>): seq<Key> { if |keys| <= n then keys else keys[..n] }

  lemma {:induction false} OpenGrows(keys: seq<Key>, entries: map<Key, Entry>, now: nat, i: nat, j: nat)
    requires i <= j <= |keys|
    ensures Open(keys, entries, now, i) <= Open(keys, entries, now, j)
    decreases j
  {
    if i < j { OpenGrows(keys, entries, now, i, j - 1); }
  }

  lemma {:induction false} OpenPage(keys: seq<Key>, entries: map<Key, Entry>, now: nat, n: nat, i: nat)
    requires i <= n <= |keys|
    ensures Open(keys[..n], entries, now, i) == Open(keys, entries, now, i)
    decreases i
  {
    if i > 0 { OpenPage(keys, entries, now, n, i - 1); }
  }

  /** The keys among the first `upto` that are set aside. */
  function Blocked(keys: seq<Key>, entries: map<Key, Entry>, now: nat, upto: nat): (blocked: set<Key>)
    requires upto <= |keys|
    ensures blocked <= WaitingKeys(entries, now) && forall k :: k in blocked ==> k in keys[..upto]
  {
    if upto == 0 then {}
    else
      assert keys[..upto] == keys[..upto - 1] + [keys[upto - 1]];
      Blocked(keys, entries, now, upto - 1) + if Allowed(entries, keys[upto - 1], now) then {} else {keys[upto - 1]}
  }

  /** What a page skips is waiting, so it leaves at least the rest open. */
  lemma {:induction false} OpenCount(keys: seq<Key>, entries: map<Key, Entry>, now: nat, upto: nat)
    requires upto <= |keys| && Distinct(keys)
    ensures |Open(keys, entries, now, upto)| + |Blocked(keys, entries, now, upto)| == upto
    decreases upto
  {
    if upto > 0 {
      OpenCount(keys, entries, now, upto - 1);
      assert keys[upto - 1] !in keys[..upto - 1];
    }
  }

  function KeySet(keys: seq<Key>): set<Key> { set k | k in keys }

  /** A page of a batch plus one place per waiting key is enough to find a batch of open
      executions, if that many are due. */
  lemma PageSuffices(due: seq<Key>, entries: map<Key, Entry>, now: nat, batch: nat, n: nat)
    requires Distinct(due) && n <= |due| && (n == |due| || n >= batch + |WaitingKeys(entries, now)|)
    ensures AtMost(batch, Open(due[..n], entries, now, n)) == AtMost(batch, Open(due, entries, now, |due|))
  {
    OpenPage(due, entries, now, n, n);
    OpenGrows(due, entries, now, n, |due|);
    if n < |due| {
      OpenCount(due, entries, now, n);
      Subset(Blocked(due, entries, now, n), WaitingKeys(entries, now));
    }
  }

  /** Recording one attempt changes nothing for the other keys, as long as fewer keys wait
      than the table can hold. */
  predicate OthersKeep(before: map<Key, Entry>, after: map<Key, Entry>, key: Key, now: nat) {
    && WaitingKeys(after, now) <= WaitingKeys(before, now) + {key}
    && (forall k :: k in before.Keys + after.Keys && k != key ==> (Allowed(after, k, now) <==> Allowed(before, k, now)))
  }

  lemma StoredKeeps(before: map<Key, Entry>, capacity: nat, key: Key, e: Entry, after: map<Key, Entry>, now: nat)
    requires Stored(before, capacity, key, e, after) && |WaitingKeys(before, now)| < capacity
    ensures OthersKeep(before, after, key, now)
  {
    var room :| RoomFor(before, capacity, key, room) && after == room[key := e];
    RoomKeepsWaiting(before, capacity, key, room, now);
    forall k | k in WaitingKeys(after, now) && k != key ensures k in WaitingKeys(before, now) {
      assert k in WaitingKeys(room, now);
    }
    forall k | k in before.Keys + after.Keys && k != key ensures Allowed(after, k, now) <==> Allowed(before, k, now) {
      assert Allowed(room, k, now) <==> Allowed(before, k, now);
    }
  }

  /** What one settled attempt adds to the result. */
  function Counted(r: Result, a: Attempt): Result {
    r.(attempted := r.attempted + 1,
       released := r.released + (if a.Expired? || a.Resumed? then 1 else 0),
       expired := r.expired + (if a.Expired? then 1 else 0),
       failed := r.failed + (if a.Fails? then 1 else 0),
       deferred := r.deferred + (if a.Aside? then 1 else 0))
  }

  /** What the expiry of a key comes back with; keys not listed find nothing to do. */
  function Answer(call: map<Key, Attempt>, key: Key): Attempt { if key in call then call[key] else Benign }

  /** How many of the attempts came back that way. */
  function Total(call: map<Key, Attempt>, keys: seq<Key>, kind: Attempt): nat {
    if keys == [] then 0
    else Total(call, keys[..|keys| - 1], kind) + if Answer(call, keys[|keys| - 1]) == kind then 1 else 0
  }

  lemma TotalNext(call: map<Key, Attempt>, keys: seq<Key>, key: Key, kind: Attempt)
    ensures Total(call, keys + [key], kind) == Total(call, keys, kind) + if Answer(call, key) == kind then 1 else 0
  {
    assert (keys + [key])[..|keys|] == keys;
  }

  /** The result counts the attempts by how they came back. */
  predicate Reports(call: map<Key, Attempt>, r: Result, attempted: seq<Key>) {
    && r.attempted == |attempted| && r.expired == Total(call, attempted, Expired)
    && r.released == Total(call, attempted, Expired) + Total(call, attempted, Resumed)
    && r.failed == Total(call, attempted, Fails) && r.deferred == Total(call, attempted, Aside)
  }

  lemma ReportsNext(call: map<Key, Attempt>, r: Result, attempted: seq<Key>, key: Key)
    requires Reports(call, r, attempted)
    ensures Reports(call, Counted(r, Answer(call, key)), attempted + [key])
  {
    TotalNext(call, attempted, key, Expired);
    TotalNext(call, attempted, key, Resumed);
    TotalNext(call, attempted, key, Fails);
    TotalNext(call, attempted, key, Aside);
  }

  /** Leadership is asked for every so many candidates, and was lost at this one. */
  predicate LostAt(i: nat, every: nat, lost: set<nat>)
    requires every > 0
  {
    i > 0 && i % every == 0 && i in lost
  }

  /** How far a page got: it visited every candidate before the first that finds leadership
      lost or the sweep canceled, or up to an interrupted attempt, or to the end of the page
      or the batch. */
  predicate Visited(page: seq<Key>, call: map<Key, Attempt>, lost: set<nat>, ended: set<nat>, every: nat,
                    batch: nat, r: Result, attempted: seq<Key>)
    requires every > 0
  {
    var v := r.skipped + r.attempted;
    && r.listed == |page| && v <= |page| && |attempted| <= batch
    && (forall j: nat | j < v :: j !in ended && !LostAt(j, every, lost))
    && match r.stop
       case LeadershipLost => v < |page| && LostAt(v, every, lost)
       case Canceled =>
         || (v < |page| && !LostAt(v, every, lost) && v in ended)
         || (attempted != [] && Answer(call, attempted[|attempted| - 1]).Interrupted?)
       case NotStopped => v == |page| || |attempted| == batch
  }

  /** Every candidate before `i` has been visited and none of them ended the page. */
  predicate Underway(page: seq<Key>, i: nat, call: map<Key, Attempt>, lost: set<nat>, ended: set<nat>, every: nat,
                     batch: nat, r: Result, attempted: seq<Key>)
    requires every > 0
  {
    && r.listed == |page| && r.stop.NotStopped? && r.skipped + r.attempted == i <= |page| && |attempted| <= batch
    && Reports(call, r, attempted) && forall j: nat | j < i :: j !in ended && !LostAt(j, every, lost)
  }

  lemma PageBegins(page: seq<Key>, call: map<Key, Attempt>, lost: set<nat>, ended: set<nat>, every: nat,
                   batch: nat, entries: map<Key, Entry>, now: nat)
    requires every > 0
    ensures Underway(page, 0, call, lost, ended, every, batch, Result(|page|, 0, 0, 0, 0, 0, 0, NotStopped), [])
    ensures OnCourse(entries, entries, page, 0, [], now)
  {
  }

  lemma PageEnds(page: seq<Key>, call: map<Key, Attempt>, lost: set<nat>, ended: set<nat>, every: nat,
                 batch: nat, r: Result, attempted: seq<Key>, start: map<Key, Entry>, now: nat)
    requires every > 0 && Underway(page, |page|, call, lost, ended, every, batch, r, attempted)
    ensures Visited(page, call, lost, ended, every, batch, r, attempted)
    ensures attempted == Open(page, start, now, |page|) ==>
      attempted == AtMost(batch, Open(page, start, now, |page|))
  {
  }

  class DeadlineSweep {
    const backoff: ExpireBackoff
    const batch: nat
    const factor: nat
    const continueEvery: nat
    var saturated: bool

    constructor (backoff: ExpireBackoff, batch: nat, factor: nat, continueEvery: nat)
      ensures this.backoff == backoff && !saturated
      ensures this.batch == (if batch > 0 then batch else 100) && this.factor == (if factor > 0 then factor else 10)
      ensures this.continueEvery == if continueEvery > 0 then continueEvery else 32
    {
      this.backoff := backoff;
      this.batch := if batch > 0 then batch else 100;
      this.factor := if factor > 0 then factor else 10;
      this.continueEvery := if continueEvery > 0 then continueEvery else 32;
      saturated := false;
    }

    method FetchLimit(now: nat) returns (limit: nat, capped: bool)
      ensures capped <==> batch + |WaitingKeys(backoff.entries, now)| > batch * factor
      ensures limit == if capped then batch * factor else batch + |WaitingKeys(backoff.entries, now)|
    {
      var waiting := backoff.Waiting(now);
      limit, capped := batch + waiting, false;
      if limit > batch * factor { limit, capped := batch * factor, true; }
    }

    /** Settles one attempt in the table and the counters. */
    method Record(key: Key, a: Attempt, now: nat, r: Result) returns (r': Result)
      requires backoff.Valid() && !a.Interrupted?
      modifies backoff
      ensures backoff.Valid()
      ensures |WaitingKeys(old(backoff.entries), now)| < backoff.capacity ==>
        OthersKeep(old(backoff.entries), backoff.entries, key, now)
      ensures a.Fails? || a.Aside? ==> !Allowed(backoff.entries, key, now)
      ensures a.Fails? ==> EntryOf(backoff.entries, key).failures == EntryOf(old(backoff.entries), key).failures + 1
      ensures a.Aside? ==> EntryOf(backoff.entries, key).failures == EntryOf(old(backoff.entries), key).failures
      ensures a.Expired? || a.Resumed? || a.Benign? ==> key !in backoff.entries
      ensures r' == r.(released := r.released + (if a.Expired? || a.Resumed? then 1 else 0),
                       expired := r.expired + (if a.Expired? then 1 else 0),
                       failed := r.failed + (if a.Fails? then 1 else 0),
                       deferred := r.deferred + (if a.Aside? then 1 else 0))
    {
      r' := r;
      if a.Aside? {
        SetAside(key, now);
        r' := r.(deferred := r.deferred + 1);
      } else if a.Fails? {
        CountFailure(key, now);
        r' := r.(failed := r.failed + 1);
      } else {
        backoff.Success(key);
        if a.Expired? { r' := r.(released := r.released + 1, expired := r.expired + 1); }
        else if a.Resumed? { r' := r.(released := r.released + 1); }
      }
    }

    method SetAside(key: Key, now: nat)
      requires backoff.Valid()
      modifies backoff
      ensures backoff.Valid() && !Allowed(backoff.entries, key, now)
      ensures EntryOf(backoff.entries, key).failures == EntryOf(old(backoff.entries), key).failures
      ensures |WaitingKeys(old(backoff.entries), now)| < backoff.capacity ==>
        OthersKeep(old(backoff.entries), backoff.entries, key, now)
    {
      ghost var before := backoff.entries;
      backoff.Defer(key, now);
      DelayPositive(EntryOf(before, key).deferrals + 1);
      if |WaitingKeys(before, now)| < backoff.capacity {
        StoredKeeps(before, backoff.capacity, key, Deferred(EntryOf(before, key), now), backoff.entries, now);
      }
    }

    method CountFailure(key: Key, now: nat)
      requires backoff.Valid()
      modifies backoff
      ensures backoff.Valid() && !Allowed(backoff.entries, key, now)
      ensures EntryOf(backoff.entries, key).failures == EntryOf(old(backoff.entries), key).failures + 1
      ensures |WaitingKeys(old(backoff.entries), now)| < backoff.capacity ==>
        OthersKeep(old(backoff.entries), backoff.entries, key, now)
    {
      ghost var before := backoff.entries;
      var failures := backoff.Failure(key, now);
      DelayPositive(failures);
      if |WaitingKeys(before, now)| < backoff.capacity {
        ghost var e := Recorded(EntryOf(before, key), failures, now);
        StoredKeeps(before, backoff.capacity, key, e, backoff.entries, now);
      }
    }

    /** A recorded attempt as the page loop sees it. */
    method Try(key: Key, a: Attempt, now: nat, r: Result) returns (r': Result)
      requires backoff.Valid() && !a.Interrupted?
      modifies backoff
      ensures backoff.Valid() && r' == Counted(r, a)
      ensures |WaitingKeys(old(backoff.entries), now)| < backoff.capacity ==>
        OthersKeep(old(backoff.entries), backoff.entries, key, now)
    {
      r' := Record(key, a, now, r.(attempted := r.attempted + 1));
    }

    /** One pass over the due executions, listed oldest deadline first. `call` is what each
        expiry comes back with; leadership is gone at the candidates in `lost` and the sweep
        itself is over at those in `ended`.
        A pass that is neither capped nor stopped attempts exactly the first batch of the
        executions whose window had elapsed, and the table stays within its capacity. */
    method Sweep(due: seq<Key>, now: nat, call: map<Key, Attempt>, lost: set<nat>, ended: set<nat>)
      returns (r: Result, attempted: seq<Key>, capped: bool)
      requires backoff.Valid() && continueEvery > 0
      modifies this, backoff
      ensures backoff.Valid()
      ensures capped <==> batch + |WaitingKeys(old(backoff.entries), now)| > batch * factor
      ensures capped ==> saturated
      ensures !capped && batch + |WaitingKeys(old(backoff.entries), now)| <= batch * factor / 2 ==> !saturated
      ensures !capped && batch + |WaitingKeys(old(backoff.entries), now)| > batch * factor / 2 ==>
        saturated == old(saturated)
      ensures Reports(call, r, attempted) && r.listed <= |due|
      ensures Visited(due[..r.listed], call, lost, ended, continueEvery, batch, r, attempted)
      ensures var limit := if capped then batch * factor else batch + |WaitingKeys(old(backoff.entries), now)|;
        r.listed == if limit < |due| then limit else |due|
      ensures !capped && r.stop.NotStopped? && Distinct(due) && backoff.capacity > batch * factor ==>
        attempted == AtMost(batch, Open(due, old(backoff.entries), now, |due|))
    {
      var limit;
      limit, capped := FetchLimit(now);
      if capped { saturated := true; } else if limit <= batch * factor / 2 { saturated := false; }
      var n := if limit < |due| then limit else |due|;
      r, attempted := Page(due[..n], now, call, lost, ended);
      if !capped && r.stop.NotStopped? && Distinct(due) && backoff.capacity > batch * factor {
        PageSuffices(due, old(backoff.entries), now, batch, n);
      }
    }

    /** What ends the page before candidate `i`: every so many candidates lost leadership,
        and at each of them a canceled sweep. */
    method Halts(i: nat, lost: set<nat>, ended: set<nat>) returns (stop: Stop)
      requires continueEvery > 0
      ensures stop.LeadershipLost? <==> LostAt(i, continueEvery, lost)
      ensures stop.NotStopped? <==> !LostAt(i, continueEvery, lost) && i !in ended
    {
      if i > 0 && i % continueEvery == 0 && i in lost { return LeadershipLost; }
      stop := if i !in ended then NotStopped else Canceled;
    }

    /** One candidate: passed over inside its window, tried otherwise. */
    method Visit(key: Key, now: nat, call: map<Key, Attempt>, r: Result, attempted: seq<Key>)
      returns (r': Result, attempted': seq<Key>)
      requires backoff.Valid() && Reports(call, r, attempted) && r.stop.NotStopped?
      modifies backoff
      ensures backoff.Valid() && Reports(call, r', attempted') && r'.listed == r.listed
      ensures r'.skipped == r.skipped + if Allowed(old(backoff.entries), key, now) then 0 else 1
      ensures attempted' == if Allowed(old(backoff.entries), key, now) then attempted + [key] else attempted
      ensures r'.stop.NotStopped? || r'.stop.Canceled?
      ensures r'.stop.Canceled? <==> Allowed(old(backoff.entries), key, now) && Answer(call, key).Interrupted?
      ensures !Allowed(old(backoff.entries), key, now) ==> backoff.entries == old(backoff.entries)
      ensures r'.stop.NotStopped? && Allowed(old(backoff.entries), key, now) ==>
        |WaitingKeys(old(backoff.entries), now)| < backoff.capacity ==>
          OthersKeep(old(backoff.entries), backoff.entries, key, now)
    {
      attempted' := attempted;
      var ok := backoff.Allow(key, now);
      if !ok { return r.(skipped := r.skipped + 1), attempted; }
      var a := Answer(call, key);
      attempted' := attempted + [key];
      ReportsNext(call, r, attempted, key);
      if a.Interrupted? { return r.(attempted := r.attempted + 1, stop := Canceled), attempted'; }
      r' := Try(key, a, now, r);
    }

    /** Candidate `i` of a page: whether the page goes on after it. */
    method Next(page: seq<Key>, i: nat, now: nat, call: map<Key, Attempt>, lost: set<nat>, ended: set<nat>,
                r: Result, attempted: seq<Key>, ghost start: map<Key, Entry>)
      returns (r': Result, attempted': seq<Key>, more: bool)
      requires backoff.Valid() && continueEvery > 0 && i < |page|
      requires Underway(page, i, call, lost, ended, continueEvery, batch, r, attempted)
      requires Fits(page, start, now, batch, backoff.capacity) ==>
        OnCourse(start, backoff.entries, page, i, attempted, now)
      modifies backoff
      ensures backoff.Valid() && Reports(call, r', attempted')
      ensures more ==> Underway(page, i + 1, call, lost, ended, continueEvery, batch, r', attempted')
      ensures !more ==> Visited(page, call, lost, ended, continueEvery, batch, r', attempted')
      ensures more && Fits(page, start, now, batch, backoff.capacity) ==>
        OnCourse(start, backoff.entries, page, i + 1, attempted', now)
      ensures !more && r'.stop.NotStopped? && Fits(page, start, now, batch, backoff.capacity) ==>
        attempted' == AtMost(batch, Open(page, start, now, |page|))
    {
      ghost var fits := Fits(page, start, now, batch, backoff.capacity);
      var stop := Halts(i, lost, ended);
      if !stop.NotStopped? { return r.(stop := stop), attempted, false; }
      if r.attempted >= batch {
        if fits { BatchFull(start, backoff.entries, page, i, attempted, batch, now); }
        return r, attempted, false;
      }
      ghost var before := backoff.entries;
      r', attempted' := Visit(page[i], now, call, r, attempted);
      more := r'.stop.NotStopped?;
      if fits && more { VisitStep(start, before, backoff.entries, page, i, attempted, backoff.capacity, batch, now); }
    }

    /** The candidates of one page. */
    method Page(page: seq<Key>, now: nat, call: map<Key, Attempt>, lost: set<nat>, ended: set<nat>)
      returns (r: Result, attempted: seq<Key>)
      requires backoff.Valid() && continueEvery > 0
      modifies backoff
      ensures backoff.Valid() && Reports(call, r, attempted)
      ensures Visited(page, call, lost, ended, continueEvery, batch, r, attempted)
      ensures r.stop.NotStopped? && Fits(page, old(backoff.entries), now, batch, backoff.capacity) ==>
        attempted == AtMost(batch, Open(page, old(backoff.entries), now, |page|))
    {
      r, attempted := Result(|page|, 0, 0, 0, 0, 0, 0, NotStopped), [];
      ghost var start := backoff.entries;
      PageBegins(page, call, lost, ended, continueEvery, batch, start, now);
      var i := 0;
      while i < |page|
        invariant i <= |page| && backoff.Valid()
        invariant Underway(page, i, call, lost, ended, continueEvery, batch, r, attempted)
        invariant Fits(page, start, now, batch, backoff.capacity) ==>
          OnCourse(start, backoff.entries, page, i, attempted, now)
      {
        var more;
        r, attempted, more := Next(page, i, now, call, lost, ended, r, attempted, start);
        if !more { return; }
        i := i + 1;
      }
      PageEnds(page, call, lost, ended, continueEvery, batch, r, attempted, start, now);
    }
  }

  /** The page names no key twice and the table has room for the batch beside what waits. */
  predicate Fits(page: seq<Key>, start: map<Key, Entry>, now: nat, batch: nat, capacity: nat) {
    Distinct(page) && |WaitingKeys(start, now)| + batch < capacity
  }

  /** Half-way through a page the keys still ahead look as they did at the start, and
      nothing waits that did not wait then or was not attempted since. */
  ghost predicate Ahead(start: map<Key, Entry>, entries: map<Key, Entry>, page: seq<Key>, i: nat,
                        attempted: seq<Key>, now: nat)
    requires i <= |page|
  {
    && WaitingKeys(entries, now) <= WaitingKeys(start, now) + KeySet(attempted)
    && forall j | i <= j < |page| :: Allowed(entries, page[j], now) <==> Allowed(start, page[j], now)
  }

  /** So far exactly the open keys have been attempted. */
  ghost predicate OnCourse(start: map<Key, Entry>, entries: map<Key, Entry>, page: seq<Key>, i: nat,
                           attempted: seq<Key>, now: nat)
    requires i <= |page|
  {
    attempted == Open(page, start, now, i) && Ahead(start, entries, page, i, attempted, now)
  }

  lemma BatchFull(start: map<Key, Entry>, entries: map<Key, Entry>, page: seq<Key>, i: nat, attempted: seq<Key>,
                  batch: nat, now: nat)
    requires i <= |page| && OnCourse(start, entries, page, i, attempted, now) && |attempted| == batch
    ensures attempted == AtMost(batch, Open(page, start, now, |page|))
  {
    OpenGrows(page, start, now, i, |page|);
  }

  lemma SkipStep(start: map<Key, Entry>, entries: map<Key, Entry>, page: seq<Key>, i: nat, attempted: seq<Key>,
                 now: nat)
    requires i < |page| && OnCourse(start, entries, page, i, attempted, now) && !Allowed(entries, page[i], now)
    ensures OnCourse(start, entries, page, i + 1, attempted, now)
  {
    assert Allowed(entries, page[i], now) <==> Allowed(start, page[i], now);
  }

  lemma TryStep(start: map<Key, Entry>, before: map<Key, Entry>, after: map<Key, Entry>, page: seq<Key>, i: nat,
                attempted: seq<Key>, capacity: nat, batch: nat, now: nat)
    requires i < |page| && Distinct(page) && OnCourse(start, before, page, i, attempted, now)
    requires Allowed(before, page[i], now)
    requires |attempted| < batch && |WaitingKeys(start, now)| + batch < capacity
    requires |WaitingKeys(before, now)| < capacity ==> OthersKeep(before, after, page[i], now)
    ensures OnCourse(start, after, page, i + 1, attempted + [page[i]], now)
  {
    assert Allowed(before, page[i], now) <==> Allowed(start, page[i], now);
    AheadStep(start, before, after, page, i, attempted, capacity, batch, now);
  }

  /** One candidate visited. */
  lemma VisitStep(start: map<Key, Entry>, before: map<Key, Entry>, after: map<Key, Entry>, page: seq<Key>, i: nat,
                  attempted: seq<Key>, capacity: nat, batch: nat, now: nat)
    requires i < |page| && Distinct(page) && OnCourse(start, before, page, i, attempted, now)
    requires |attempted| < batch && |WaitingKeys(start, now)| + batch < capacity
    requires !Allowed(before, page[i], now) ==> after == before
    requires Allowed(before, page[i], now) && |WaitingKeys(before, now)| < capacity ==>
      OthersKeep(before, after, page[i], now)
    ensures var tried := if Allowed(before, page[i], now) then attempted + [page[i]] else attempted;
      OnCourse(start, after, page, i + 1, tried, now)
  {
    if Allowed(before, page[i], now) {
      TryStep(start, before, after, page, i, attempted, capacity, batch, now);
    } else {
      SkipStep(start, before, page, i, attempted, now);
    }
  }

  lemma AheadStep(start: map<Key, Entry>, before: map<Key, Entry>, after: map<Key, Entry>, page: seq<Key>,
                  i: nat, attempted: seq<Key>, capacity: nat, batch: nat, now: nat)
    requires i < |page| && Distinct(page) && Ahead(start, before, page, i, attempted, now)
    requires |attempted| < batch && |WaitingKeys(start, now)| + batch < capacity
    requires |WaitingKeys(before, now)| < capacity ==> OthersKeep(before, after, page[i], now)
    ensures Ahead(start, after, page, i + 1, attempted + [page[i]], now)
  {
    FewWaiting(start, before, attempted, now);
    AheadWaiting(start, before, after, page[i], attempted, now);
    forall j | i + 1 <= j < |page| ensures Allowed(after, page[j], now) <==> Allowed(start, page[j], now) {
      SameAllowed(before, after, page[i], page[j], now);
    }
  }

  lemma AheadWaiting(start: map<Key, Entry>, before: map<Key, Entry>, after: map<Key, Entry>, key: Key,
                     attempted: seq<Key>, now: nat)
    requires WaitingKeys(before, now) <= WaitingKeys(start, now) + KeySet(attempted)
    requires OthersKeep(before, after, key, now)
    ensures WaitingKeys(after, now) <= WaitingKeys(start, now) + KeySet(attempted + [key])
  {
    assert KeySet(attempted + [key]) == KeySet(attempted) + {key};
  }

  lemma SameAllowed(before: map<Key, Entry>, after: map<Key, Entry>, key: Key, k: Key, now: nat)
    requires OthersKeep(before, after, key, now) && k != key
    ensures Allowed(after, k, now) <==> Allowed(before, k, now)
  {
    assert k in before.Keys + after.Keys || (k !in before && k !in after);
  }

  lemma FewWaiting(start: map<Key, Entry>, before: map<Key, Entry>, attempted: seq<Key>, now: nat)
    requires WaitingKeys(before, now) <= WaitingKeys(start, now) + KeySet(attempted)
    ensures |WaitingKeys(before, now)| <= |WaitingKeys(start, now)| + |attempted|
  {
    var a, b := WaitingKeys(start, now), KeySet(attempted);
    Subset(WaitingKeys(before, now), a + b);
    KeySetSize(attempted);
  }

  lemma {:induction false} KeySetSize(keys: seq<Key>)
    ensures |KeySet(keys)| <= |keys|
    decreases |keys|
  {
    if keys == [] {
      assert KeySet(keys) == {};
    } else {
      KeySetSize(keys[1..]);
      assert KeySet(keys) == KeySet(keys[1..]) + {keys[0]};
    }
  }
}
