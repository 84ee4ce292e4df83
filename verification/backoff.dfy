/** The table that spaces out retries of expiries that keep failing. */
module Backoff {
  import opened Common

  /** Keys are opaque; only their identity and order matter. */
  type Key = nat

  const BASE: nat := 1000

  const MAX_DELAY: nat := 300000

  const MAX_ENTRIES: nat := 4096

  datatype Entry = Entry(failures: nat, deferrals: nat, retryAt: nat)

  function Pow2(n: nat): nat { if n == 0 then 1 else 2 * Pow2(n - 1) }

  /** One second doubled per consecutive failure, at most five minutes. */
  function Delay(failures: nat): nat {
    var d := BASE * Pow2(if failures == 0 then 0 else failures - 1);
    if d > MAX_DELAY then MAX_DELAY else d
  }

  lemma {:induction false} Pow2Grows(m: nat, n: nat)
    requires m <= n
    ensures Pow2(m) <= Pow2(n)
    decreases n
  {
    if m < n { Pow2Grows(m, n - 1); }
  }

  method ExpireBackoffDelay(failures: nat) returns (d: nat)
    ensures d == Delay(failures)
  {
    d := BASE;
    var i := 1;
    while i < failures && d < MAX_DELAY
      invariant 1 <= i && (i <= failures || i == 1) && d == BASE * Pow2(i - 1)
      decreases failures - i
    {
      d := d * 2;
      i := i + 1;
    }
    if i < failures { Pow2Grows(i - 1, failures - 1); }
    if d > MAX_DELAY { d := MAX_DELAY; }
  }

  // ---- The table as a value ----

  predicate Allowed(entries: map<Key, Entry>, key: Key, now: nat) {
    key !in entries || now >= entries[key].retryAt
  }

  function WaitingKeys(entries: map<Key, Entry>, now: nat): set<Key> {
    set k | k in entries && now < entries[k].retryAt
  }

  /** The record due soonest, the smallest key first on a tie. */
  predicate DueFirst(entries: map<Key, Entry>, victim: Key) {
    && victim in entries
    && forall k :: k in entries && k != victim ==>
         entries[victim].retryAt < entries[k].retryAt || (entries[victim].retryAt == entries[k].retryAt && victim < k)
  }

  /** What making room for `key` may leave: nothing is dropped unless the table is full
      and the key is new, and then only the record due soonest. */
  ghost predicate RoomFor(entries: map<Key, Entry>, capacity: nat, key: Key, after: map<Key, Entry>) {
    if key in entries || |entries| < capacity then after == entries
    else exists victim :: DueFirst(entries, victim) && after == entries - {victim}
  }

  /** The key's record is replaced after room has been made for it. */
  ghost predicate Stored(entries: map<Key, Entry>, capacity: nat, key: Key, e: Entry, after: map<Key, Entry>) {
    exists room :: RoomFor(entries, capacity, key, room) && after == room[key := e]
  }

  function EntryOf(entries: map<Key, Entry>, key: Key): Entry {
    if key in entries then entries[key] else Entry(0, 0, 0)
  }

  class ExpireBackoff {
    var entries: map<Key, Entry>
    const capacity: nat

    ghost predicate Valid()
      reads this
    {
      capacity > 0 && |entries| <= capacity
    }

    constructor (maxEntries: nat)
      ensures Valid() && entries == map[] && capacity == if maxEntries > 0 then maxEntries else MAX_ENTRIES
    {
      entries := map[];
      capacity := if maxEntries > 0 then maxEntries else MAX_ENTRIES;
    }

    method Allow(key: Key, now: nat) returns (ok: bool)
      ensures ok <==> Allowed(entries, key, now)
    {
      ok := key !in entries || now >= entries[key].retryAt;
    }

    method Waiting(now: nat) returns (count: nat)
      ensures count == |WaitingKeys(entries, now)|
    {
      count := 0;
      var rest := entries.Keys;
      ghost var counted: set<Key> := {};
      while rest != {}
        invariant rest <= entries.Keys && count == |counted| && counted !! rest
        invariant forall k :: k in counted <==> k in entries && k !in rest && now < entries[k].retryAt
        decreases |rest|
      {
        var k :| k in rest;
        rest := rest - {k};
        if now < entries[k].retryAt {
          count := count + 1;
          counted := counted + {k};
        }
      }
      assert counted == WaitingKeys(entries, now);
    }

    method EvictEarliest()
      requires entries != map[]
      modifies this
      ensures exists victim :: DueFirst(old(entries), victim) && entries == old(entries) - {victim}
    {
      var rest := entries.Keys;
      var victim :| victim in rest;
      rest := rest - {victim};
      while rest != {}
        invariant rest <= entries.Keys && victim in entries && victim !in rest
        invariant forall k :: k in entries && k !in rest && k != victim ==>
          entries[victim].retryAt < entries[k].retryAt || (entries[victim].retryAt == entries[k].retryAt && victim < k)
        decreases |rest|
      {
        var k :| k in rest;
        rest := rest - {k};
        if entries[k].retryAt < entries[victim].retryAt
           || (entries[k].retryAt == entries[victim].retryAt && k < victim) {
          victim := k;
        }
      }
      assert DueFirst(entries, victim);
      entries := entries - {victim};
    }

    method MakeRoom(key: Key)
      requires Valid()
      modifies this
      ensures RoomFor(old(entries), capacity, key, entries) && (key in entries || |entries| < capacity)
      ensures key in entries <==> key in old(entries)
    {
      if key !in entries && |entries| >= capacity {
        assert |entries| > 0;
        EvictEarliest();
        ghost var victim :| DueFirst(old(entries), victim) && entries == old(entries) - {victim};
        assert entries.Keys == old(entries).Keys - {victim};
      }
    }

    method Failure(key: Key, now: nat) returns (failures: nat)
      requires Valid()
      modifies this
      ensures Valid()
      ensures Stored(old(entries), capacity, key, Recorded(EntryOf(old(entries), key), failures, now), entries)
      ensures failures == EntryOf(old(entries), key).failures + 1
    {
      ghost var e0 := EntryOf(entries, key);
      MakeRoom(key);
      ghost var room := entries;
      var e := if key in entries then entries[key] else Entry(0, 0, 0);
      assert e == e0;
      failures := e.failures + 1;
      var delay := ExpireBackoffDelay(failures);
      entries := entries[key := e.(failures := failures, retryAt := now + delay)];
      assert entries == room[key := Recorded(e0, failures, now)];
    }

    method Defer(key: Key, now: nat)
      requires Valid()
      modifies this
      ensures Valid()
      ensures Stored(old(entries), capacity, key, Deferred(EntryOf(old(entries), key), now), entries)
    {
      ghost var e0 := EntryOf(entries, key);
      MakeRoom(key);
      ghost var room := entries;
      var e := if key in entries then entries[key] else Entry(0, 0, 0);
      assert e == e0;
      var delay := ExpireBackoffDelay(e.deferrals + 1);
      entries := entries[key := e.(deferrals := e.deferrals + 1, retryAt := now + delay)];
      assert entries == room[key := Deferred(e0, now)];
    }

    method Success(key: Key)
      requires Valid()
      modifies this
      ensures Valid() && entries == old(entries) - {key}
    {
      entries := entries - {key};
      assert entries.Keys <= old(entries).Keys;
      assert old(entries).Keys == entries.Keys + (old(entries).Keys - entries.Keys);
    }
  }

  /** A failure and a deferral follow the same schedule but are counted apart. */
  function Recorded(e: Entry, failures: nat, now: nat): Entry {
    e.(failures := failures, retryAt := now + Delay(failures))
  }

  function Deferred(e: Entry, now: nat): Entry {
    e.(deferrals := e.deferrals + 1, retryAt := now + Delay(e.deferrals + 1))
  }

  lemma DelayPositive(n: nat)
    ensures BASE <= Delay(n) <= MAX_DELAY
  {
    Pow2Grows(0, if n == 0 then 0 else n - 1);
  }

  /** Making room never forgets a key that is still waiting, as long as fewer keys wait
      than the table can hold. */
  lemma RoomKeepsWaiting(entries: map<Key, Entry>, capacity: nat, key: Key, after: map<Key, Entry>, now: nat)
    requires RoomFor(entries, capacity, key, after) && |WaitingKeys(entries, now)| < capacity
    ensures WaitingKeys(after, now) == WaitingKeys(entries, now)
    ensures forall k :: Allowed(after, k, now) <==> Allowed(entries, k, now)
    ensures forall k :: k in after ==> k in entries && after[k] == entries[k]
  {
    if !(key in entries || |entries| < capacity) {
      var victim :| DueFirst(entries, victim) && after == entries - {victim};
      var waiting := WaitingKeys(entries, now);
      if victim in waiting {
        assert entries.Keys <= waiting;
        Subset(entries.Keys, waiting);
      }
    }
  }
}
