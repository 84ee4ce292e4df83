/** Splitting a map node's items into batches, storing them once instead of inline,
    and folding the batches' results back: how the split is made must not show. */
module Batches {

  /** What one item produced: its data, or the placeholder that keeps its place. */
  datatype Slot<T> = Value(data: T) | Failure(index: int) | WholeBatch(batch: nat)

  /** One batch's stored result: absent, without an items array, or with one. */
  datatype BatchResult<T> = Missing | NoItems(batch: nat) | Items(slots: seq<Slot<T>>)

  function Concat<T>(batches: seq<seq<T>>): seq<T> {
    if batches == [] then [] else batches[0] + Concat(batches[1..])
  }

  /** Where batch `i` starts in the whole array. */
  function Offset<T>(batches: seq<seq<T>>, i: nat): nat
    requires i <= |batches|
  {
    if i == 0 then 0 else Offset(batches, i - 1) + |batches[i - 1]|
  }

  lemma {:induction false} ConcatSnoc<T>(batches: seq<seq<T>>, last: seq<T>)
    ensures Concat(batches + [last]) == Concat(batches) + last
    decreases |batches|
  {
    if batches == [] {
      assert [] + [last] == [last];
    } else {
      ConcatSnoc(batches[1..], last);
      assert (batches + [last])[0] == batches[0] && (batches + [last])[1..] == batches[1..] + [last];
    }
  }

  /** The prefix before batch `i` is as long as the batch's offset. */
  lemma {:induction false} OffsetIsLength<T>(batches: seq<seq<T>>, i: nat)
    requires i <= |batches|
    ensures |Concat(batches[..i])| == Offset(batches, i)
  {
    if i > 0 {
      OffsetIsLength(batches, i - 1);
      assert batches[..i] == batches[..i - 1] + [batches[i - 1]];
      ConcatSnoc(batches[..i - 1], batches[i - 1]);
    }
  }

  lemma {:induction false} ConcatSplit<T>(batches: seq<seq<T>>, i: nat)
    requires i <= |batches|
    ensures Concat(batches) == Concat(batches[..i]) + Concat(batches[i..])
    decreases i
  {
    if i == 0 {
      assert batches[0..] == batches;
    } else {
      ConcatSplit(batches, i - 1);
      assert batches[..i] == batches[..i - 1] + [batches[i - 1]];
      ConcatSnoc(batches[..i - 1], batches[i - 1]);
      assert batches[i - 1..][1..] == batches[i..];
    }
  }

  /** Batch `i` is the window of the whole array that starts at its offset. */
  lemma Window<T>(batches: seq<seq<T>>, i: nat)
    requires i < |batches|
    ensures Offset(batches, i) + |batches[i]| <= |Concat(batches)|
    ensures Concat(batches)[Offset(batches, i)..Offset(batches, i) + |batches[i]|] == batches[i]
  {
    OffsetIsLength(batches, i);
    ConcatSplit(batches, i);
    assert Concat(batches[i..]) == batches[i] + Concat(batches[i..][1..]);
    Middle(Concat(batches[..i]), batches[i], Concat(batches[i..][1..]));
  }

  lemma Middle<T>(a: seq<T>, b: seq<T>, c: seq<T>)
    ensures (a + (b + c))[|a|..|a| + |b|] == b
  {
  }

  // ---- Flattening ----

  function SlotsOf<T>(r: BatchResult<T>): seq<Slot<T>> {
    match r
    case Missing => []
    case NoItems(b) => [WholeBatch(b)]
    case Items(slots) => slots
  }

  function Flat<T>(results: seq<BatchResult<T>>): seq<Slot<T>> {
    if results == [] then [] else SlotsOf(results[0]) + Flat(results[1..])
  }

  lemma {:induction false} FlatSnoc<T>(results: seq<BatchResult<T>>, last: BatchResult<T>)
    ensures Flat(results + [last]) == Flat(results) + SlotsOf(last)
    decreases |results|
  {
    if results == [] {
      assert [] + [last] == [last] && [last][1..] == [];
    } else {
      FlatSnoc(results[1..], last);
      assert (results + [last])[0] == results[0] && (results + [last])[1..] == results[1..] + [last];
    }
  }

  method FlattenBatchResults<T>(results: seq<BatchResult<T>>) returns (flat: seq<Slot<T>>)
    ensures flat == Flat(results)
  {
    flat := [];
    for i := 0 to |results|
      invariant flat == Flat(results[..i])
    {
      assert results[..i + 1] == results[..i] + [results[i]];
      FlatSnoc(results[..i], results[i]);
      match results[i]
      case Missing =>
      case NoItems(b) => flat := flat + [WholeBatch(b)];
      case Items(slots) => flat := flat + slots;
    }
    assert results[..|results|] == results;
  }

  /** With one slot per item, slot `j` of batch `i` lands at the place of that item. */
  lemma {:induction false} SlotPlace<T, U>(batches: seq<seq<T>>, results: seq<BatchResult<U>>, i: nat, j: nat)
    requires |results| == |batches| && i < |batches| && j < |batches[i]|
    requires forall k | 0 <= k < |results| :: results[k].Items? && |results[k].slots| == |batches[k]|
    ensures Offset(batches, i) + j < |Flat(results)| && Flat(results)[Offset(batches, i) + j] == results[i].slots[j]
    decreases i
  {
    if i > 0 {
      SlotPlace(batches[1..], results[1..], i - 1, j);
      OffsetShift(batches, i);
    }
  }

  lemma {:induction false} OffsetShift<T>(batches: seq<seq<T>>, i: nat)
    requires 0 < i <= |batches|
    ensures Offset(batches, i) == |batches[0]| + Offset(batches[1..], i - 1)
  {
    if i > 1 { OffsetShift(batches, i - 1); }
  }

  // ---- The global index ----

  function GlobalIndex(batch: nat, size: int, pos: nat): int {
    if size <= 0 then pos else batch * size + pos
  }

  /** The index a batch computes for its items agrees with their place in the whole
      array if and only if every non-empty batch starts at its multiple of the size; a
      size that is not positive counts each batch from nothing. */
  lemma GlobalIndexIff<T>(batches: seq<seq<T>>, size: int)
    ensures (forall i, j: nat | 0 <= i < |batches| && j < |batches[i]| ::
      GlobalIndex(i, size, j) == Offset(batches, i) + j)
       <==> (forall i | 0 <= i < |batches| && batches[i] != [] ::
         Offset(batches, i) == if size > 0 then i * size else 0)
  {
    if forall i, j: nat | 0 <= i < |batches| && j < |batches[i]| :: GlobalIndex(i, size, j) == Offset(batches, i) + j {
      forall i | 0 <= i < |batches| && batches[i] != []
        ensures Offset(batches, i) == if size > 0 then i * size else 0
      {
        assert GlobalIndex(i, size, 0) == Offset(batches, i) + 0;
      }
    }
  }

  /** Full batches followed by one that may be short. */
  predicate Uniform<T>(batches: seq<seq<T>>, size: nat) {
    && (forall k | 0 <= k < |batches| - 1 :: |batches[k]| == size)
    && (forall k | 0 <= k < |batches| :: 0 < |batches[k]| <= size)
  }

  lemma {:induction false} UniformOffsets<T>(batches: seq<seq<T>>, size: nat, i: nat)
    requires i < |batches| && Uniform(batches, size)
    ensures Offset(batches, i) == i * size
  {
    if i > 0 { UniformOffsets(batches, size, i - 1); }
  }

  /** The split a map node makes: chunks of the batch size. */
  function Chunks<T>(items: seq<T>, size: nat): (batches: seq<seq<T>>)
    requires size > 0
    decreases |items|
  {
    if items == [] then [] else if |items| <= size then [items] else [items[..size]] + Chunks(items[size..], size)
  }

  lemma {:induction false} ChunksConcat<T>(items: seq<T>, size: nat)
    requires size > 0
    ensures Concat(Chunks(items, size)) == items
    decreases |items|
  {
    if |items| > size {
      ChunksConcat(items[size..], size);
      assert Chunks(items, size)[1..] == Chunks(items[size..], size);
      assert items == items[..size] + items[size..];
    } else if items != [] {
      assert Chunks(items, size)[1..] == [];
    }
  }

  lemma UniformCons<T>(first: seq<T>, rest: seq<seq<T>>, size: nat)
    requires |first| == size > 0 && Uniform(rest, size)
    ensures Uniform([first] + rest, size)
  {
    var batches := [first] + rest;
    forall k | 0 <= k < |batches| ensures 0 < |batches[k]| <= size && (k < |batches| - 1 ==> |batches[k]| == size) {
      if k > 0 { assert batches[k] == rest[k - 1]; }
    }
  }

  lemma {:induction false} ChunksUniform<T>(items: seq<T>, size: nat)
    requires size > 0
    ensures Uniform(Chunks(items, size), size)
    decreases |items|
  {
    if |items| > size {
      ChunksUniform(items[size..], size);
      UniformCons(items[..size], Chunks(items[size..], size), size);
    }
  }

  lemma ChunksOffsets<T>(items: seq<T>, size: nat)
    requires size > 0
    ensures var batches := Chunks(items, size);
      forall i: nat, j: nat | i < |batches| && j < |batches[i]| :: GlobalIndex(i, size, j) == Offset(batches, i) + j
  {
    var batches := Chunks(items, size);
    ChunksUniform(items, size);
    forall i | 0 <= i < |batches| && batches[i] != []
        ensures Offset(batches, i) == if size > 0 then i * size else 0
      {
      UniformOffsets(batches, size, i);
    }
    GlobalIndexIff(batches, size);
  }

  /** The split a map node makes: the global index of every item of every batch is its
      place in the array, and every batch reads back from the stored array as its inline
      items. */
  lemma ChunksIndexed<T>(items: seq<T>, size: nat, i: nat, j: nat)
    requires size > 0 && i < |Chunks(items, size)| && j < |Chunks(items, size)[i]|
    ensures 0 <= GlobalIndex(i, size, j) < |items| && Chunks(items, size)[i][j] == items[GlobalIndex(i, size, j)]
    ensures Resolves(items, Chunks(items, size), i)
  {
    var batches := Chunks(items, size);
    ChunksConcat(items, size);
    ChunksOffsets(items, size);
    assert GlobalIndex(i, size, j) == Offset(batches, i) + j;
    Window(batches, i);
    WindowResolves(items, batches, i);
  }

  /** The whole array mapped item by item: a body sees the item, its index in the array
      and the array. */
  function Mapped<T, U>(body: (int, T, seq<T>) -> Slot<U>, all: seq<T>): (r: seq<Slot<U>>)
    ensures |r| == |all| && forall k | 0 <= k < |r| :: r[k] == body(k, all[k], all)
  {
    seq(|all|, k requires 0 <= k < |all| => body(k, all[k], all))
  }

  /** One batch mapped by the index it computes for its items. */
  function MappedBatch<T, U>(body: (int, T, seq<T>) -> Slot<U>, all: seq<T>, batch: seq<T>, i: nat, size: nat)
    : (r: seq<Slot<U>>)
    ensures |r| == |batch| && forall j | 0 <= j < |r| :: r[j] == body(GlobalIndex(i, size, j), batch[j], all)
  {
    seq(|batch|, j requires 0 <= j < |batch| => body(GlobalIndex(i, size, j), batch[j], all))
  }

  function MappedBatches<T, U>(
    body: (int, T, seq<T>) -> Slot<U>, all: seq<T>, batches: seq<seq<T>>, first: nat, size: nat): seq<BatchResult<U>>
    decreases |batches|
  {
    if batches == [] then []
    else
      var rest := MappedBatches(body, all, batches[1..], first + 1, size);
      [Items(MappedBatch(body, all, batches[0], first, size))] + rest
  }

  /** A batch that is the array from the place of its first item on. */
  lemma BatchInPlace<T, U>(body: (int, T, seq<T>) -> Slot<U>, all: seq<T>, i: nat, size: nat, start: nat, end: nat)
    requires size > 0 && start == i * size && start <= end <= |all|
    ensures MappedBatch(body, all, all[start..end], i, size) == Mapped(body, all)[start..end]
  {
    forall j | 0 <= j < end - start ensures GlobalIndex(i, size, j) == start + j {}
  }

  lemma FlatCons<T>(slots: seq<Slot<T>>, rest: seq<BatchResult<T>>)
    ensures Flat([Items(slots)] + rest) == slots + Flat(rest)
  {
    assert ([Items(slots)] + rest)[1..] == rest;
  }

  /** What is left is one batch. */
  lemma FlatLast<T, U>(body: (int, T, seq<T>) -> Slot<U>, all: seq<T>, first: nat, size: nat, start: nat)
    requires size > 0 && start == first * size < |all| <= start + size
    ensures Flat(MappedBatches(body, all, [all[start..]], first, size)) == Mapped(body, all)[start..]
  {
    var batches := [all[start..]];
    BatchInPlace(body, all, first, size, start, |all|);
    assert all[start..|all|] == all[start..] && batches[1..] == [];
    FlatCons(MappedBatch(body, all, batches[0], first, size), []);
  }

  /** A full batch in front of the rest. */
  lemma FlatMore<T, U>(body: (int, T, seq<T>) -> Slot<U>, all: seq<T>, first: nat, size: nat, start: nat, end: nat,
                       more: seq<seq<T>>)
    requires size > 0 && start == first * size && start <= end <= |all|
    requires Flat(MappedBatches(body, all, more, first + 1, size)) == Mapped(body, all)[end..]
    ensures Flat(MappedBatches(body, all, [all[start..end]] + more, first, size)) == Mapped(body, all)[start..]
  {
    var batches := [all[start..end]] + more;
    BatchInPlace(body, all, first, size, start, end);
    assert batches[0] == all[start..end] && batches[1..] == more;
    FlatCons(MappedBatch(body, all, batches[0], first, size), MappedBatches(body, all, more, first + 1, size));
    assert Mapped(body, all)[start..] == Mapped(body, all)[start..end] + Mapped(body, all)[end..];
  }

  /** The chunks of a tail of the array that starts at a multiple of the size. */
  lemma {:induction false} FlatTail<T, U>(
    body: (int, T, seq<T>) -> Slot<U>, all: seq<T>, first: nat, size: nat, start: nat)
    requires size > 0 && start == first * size <= |all|
    ensures Flat(MappedBatches(body, all, Chunks(all[start..], size), first, size)) == Mapped(body, all)[start..]
    decreases |all| - start
  {
    var rest := all[start..];
    if 0 < |rest| <= size {
      FlatLast(body, all, first, size, start);
    } else if rest != [] {
      var end := start + size;
      assert end == (first + 1) * size;
      FlatTail(body, all, first + 1, size, end);
      FlatMore(body, all, first, size, start, end, Chunks(all[end..], size));
      assert rest[..size] == all[start..end] && rest[size..] == all[end..];
    }
  }

  /** The batch size is invisible: whatever it is, the flattened array of a map node's
      batches holds one slot per item, slot `k` being what the body makes of item `k`, its
      index `k` and the whole array. */
  lemma SplitInvisible<T, U>(body: (int, T, seq<T>) -> Slot<U>, items: seq<T>, size: nat, size': nat)
    requires size > 0 && size' > 0
    ensures var flat := Flat(MappedBatches(body, items, Chunks(items, size), 0, size));
      && flat == Flat(MappedBatches(body, items, Chunks(items, size'), 0, size')) && |flat| == |items|
      && forall k | 0 <= k < |flat| :: flat[k] == body(k, items[k], items)
  {
    assert items[0..] == items && Mapped(body, items)[0..] == Mapped(body, items);
    FlatTail(body, items, 0, size, 0);
    FlatTail(body, items, 0, size', 0);
  }

  // ---- Stored items ----

  /** A batch task: its items and the whole array inline, or a window of the stored
      array. */
  datatype Payload<T> = Inline(items: seq<T>, all: seq<T>) | Stored(start: int, end: int)

  datatype Resolved<T> = Failed | View(items: seq<T>, all: seq<T>)

  function Total<T>(batches: seq<seq<T>>): nat {
    if batches == [] then 0 else |batches[0]| + Total(batches[1..])
  }

  lemma {:induction false} TotalIsLength<T>(batches: seq<seq<T>>)
    ensures Total(batches) == |Concat(batches)|
    decreases |batches|
  {
    if batches != [] { TotalIsLength(batches[1..]); }
  }

  lemma {:induction false} TotalPrefix<T>(batches: seq<seq<T>>, i: nat)
    requires i <= |batches|
    ensures Total(batches[..i]) == Offset(batches, i)
  {
    OffsetIsLength(batches, i);
    TotalIsLength(batches[..i]);
  }

  /** The form batch `i` takes: a window of the stored array, provided the batches add up
      to as many elements as the array has and the store takes it. */
  function PayloadOf<T>(items: seq<T>, batches: seq<seq<T>>, stores: bool, i: nat): Payload<T>
    requires i < |batches|
  {
    if Total(batches) == |items| && stores then Stored(Offset(batches, i), Offset(batches, i) + |batches[i]|)
    else Inline(batches[i], items)
  }

  method SumLengths<T>(batches: seq<seq<T>>) returns (total: nat)
    ensures total == Total(batches)
  {
    total := 0;
    for i := 0 to |batches|
      invariant total == Offset(batches, i)
    {
      total := total + |batches[i]|;
    }
    TotalPrefix(batches, |batches|);
    assert batches[..|batches|] == batches;
  }

  method ExternalizeBatches<T>(items: seq<T>, batches: seq<seq<T>>, stores: bool) returns (payloads: seq<Payload<T>>)
    ensures |payloads| == |batches|
    ensures forall i | 0 <= i < |batches| :: payloads[i] == PayloadOf(items, batches, stores, i)
  {
    var total := SumLengths(batches);
    payloads := [];
    var start := 0;
    for i := 0 to |batches|
      invariant |payloads| == i && start == Offset(batches, i)
      invariant forall k | 0 <= k < i :: payloads[k] == PayloadOf(items, batches, stores, k)
    {
      var end := start + |batches[i]|;
      payloads := payloads + [if total == |items| && stores then Stored(start, end) else Inline(batches[i], items)];
      start := end;
    }
  }

  /** Reads a batch back: a window that does not fit the stored array is refused. */
  function ResolveView<T>(payload: Payload<T>, stored: seq<T>): Resolved<T> {
    match payload
    case Inline(items, all) => View(items, all)
    case Stored(start, end) =>
      if start < 0 || start > end || end > |stored| then Failed else View(stored[start..end], stored)
  }

  /** The stored form of batch `i` reads back as its inline form. */
  ghost predicate Resolves<T>(items: seq<T>, batches: seq<seq<T>>, i: nat)
    requires i < |batches|
  {
    ResolveView(PayloadOf(items, batches, true, i), items) == View(batches[i], items)
  }

  /** With a store that takes the array, every batch resolves to exactly its inline items
      and the whole array if and only if the batches are the array cut in order or the
      guard keeps them inline. The guard compares lengths only, so what it wrongly lets
      through is a batch list of the right length in another order. */
  lemma ExternalizedIffCutInOrder<T>(items: seq<T>, batches: seq<seq<T>>)
    ensures (forall i | 0 <= i < |batches| :: Resolves(items, batches, i)) <==>
      Concat(batches) == items || Total(batches) != |items|
  {
    TotalIsLength(batches);
    if Total(batches) != |items| {
      forall i | 0 <= i < |batches| ensures Resolves(items, batches, i) {}
    } else if Concat(batches) == items {
      forall i | 0 <= i < |batches| ensures Resolves(items, batches, i) {
        WindowResolves(items, batches, i);
      }
    } else if forall i | 0 <= i < |batches| :: Resolves(items, batches, i) {
      WindowsCover(items, batches);
    }
  }

  lemma WindowResolves<T>(items: seq<T>, batches: seq<seq<T>>, i: nat)
    requires i < |batches| && Concat(batches) == items
    ensures Resolves(items, batches, i)
  {
    Window(batches, i);
  }

  lemma WindowsCover<T>(items: seq<T>, batches: seq<seq<T>>)
    requires Total(batches) == |items|
    requires forall i | 0 <= i < |batches| :: Resolves(items, batches, i)
    ensures Concat(batches) == items
  {
    ConcatWindows(items, batches, |batches|);
    assert batches[..|batches|] == batches;
    TotalPrefix(batches, |batches|);
    assert items[..|items|] == items;
  }

  lemma {:induction false} ConcatWindows<T>(items: seq<T>, batches: seq<seq<T>>, upto: nat)
    requires upto <= |batches| && Total(batches) == |items|
    requires forall i | 0 <= i < |batches| :: Resolves(items, batches, i)
    ensures Offset(batches, upto) <= |items| && Concat(batches[..upto]) == items[..Offset(batches, upto)]
  {
    if upto > 0 {
      ConcatWindows(items, batches, upto - 1);
      assert batches[..upto] == batches[..upto - 1] + [batches[upto - 1]];
      ConcatSnoc(batches[..upto - 1], batches[upto - 1]);
      assert Resolves(items, batches, upto - 1);
    }
  }

  /** An item; only its identity matters. */
  type Item = int

  /** A window of an array: an append writes in place as long as it stays below `cap`. */
  datatype Slice = Slice(data: array<Item>, start: nat, end: nat, cap: nat)

  predicate SliceOk(s: Slice) { s.start <= s.end <= s.cap <= s.data.Length }

  /** The view a batch gets: a copy of the cached array of its own, and its items as a
      window of that copy that ends where its capacity ends. A window that does not fit
      is refused. */
  method ResolveWindow(cached: array<Item>, start: int, end: int) returns (ok: bool, items: Slice, all: array<Item>)
    ensures ok <==> 0 <= start <= end <= cached.Length
    ensures ok ==> fresh(all) && all[..] == cached[..] == old(cached[..])
    ensures ok ==> SliceOk(items) && items.data == all && items.start == start && items.end == items.cap == end
    ensures ok ==> Resolved.View(all[items.start..items.end], all[..]) == ResolveView(Stored(start, end), cached[..])
  {
    ok, all := 0 <= start <= end <= cached.Length, cached;
    items := Slice(all, 0, 0, 0);
    if !ok { return; }
    all := new Item[cached.Length](i requires 0 <= i < cached.Length reads cached => cached[i]);
    items := Slice(all, start, end, end);
  }

  /** Appending to a window keeps what the array shows beyond it if and only if nothing of
      it is within the window's capacity. */
  method AppendItem(s: Slice, x: Item) returns (s': Slice)
    requires SliceOk(s)
    modifies s.data
    ensures SliceOk(s') && s'.data[s'.start..s'.end] == old(s.data[s.start..s.end]) + [x]
    ensures s.end == s.cap ==> fresh(s'.data) && s.data[..] == old(s.data[..])
    ensures s.end < s.cap ==> s'.data == s.data && s.data[..] == old(s.data[..])[s.end := x]
  {
    if s.end < s.cap {
      s.data[s.end] := x;
      s' := s.(end := s.end + 1);
    } else {
      var n := s.end - s.start;
      var grown := new Item[n + 1](i requires 0 <= i <= n reads s.data => if i < n then s.data[s.start + i] else x);
      s' := Slice(grown, 0, n + 1, n + 1);
    }
  }

  // ---- One batch's verdict ----

  datatype ItemResult<T> = ItemResult(index: int, failed: bool, timeout: bool, data: T)

  function FailedCount<T>(results: seq<ItemResult<T>>): nat {
    if results == [] then 0
    else FailedCount(results[..|results| - 1]) + (if results[|results| - 1].failed then 1 else 0)
  }

  lemma {:induction false} FailedCountBounds<T>(results: seq<ItemResult<T>>)
    ensures FailedCount(results) <= |results|
    ensures FailedCount(results) == 0 <==> forall k | 0 <= k < |results| :: !results[k].failed
    ensures FailedCount(results) == |results| <==> forall k | 0 <= k < |results| :: results[k].failed
    decreases |results|
  {
    if results != [] { FailedCountBounds(results[..|results| - 1]); }
  }

  /** Folds item results into one slot per item and the batch's verdict: it fails if an
      item failed, unless failures are tolerated and some item succeeded. */
  method BatchResultForCommit<T>(results: seq<ItemResult<T>>, continueOnError: bool)
    returns (slots: seq<Slot<T>>, failed: nat, timedOut: bool, ok: bool)
    ensures |slots| == |results|
    ensures forall k | 0 <= k < |slots| ::
      slots[k] == if results[k].failed then Failure(results[k].index) else Value(results[k].data)
    ensures failed == FailedCount(results)
    ensures timedOut <==> exists k | 0 <= k < |results| :: results[k].timeout
    ensures !ok <==>
      && (exists k | 0 <= k < |results| :: results[k].failed)
      && !(continueOnError && exists k | 0 <= k < |results| :: !results[k].failed)
  {
    slots, failed, timedOut := [], 0, false;
    for i := 0 to |results|
      invariant |slots| == i
      invariant forall k | 0 <= k < i ::
        slots[k] == if results[k].failed then Failure(results[k].index) else Value(results[k].data)
      invariant failed == FailedCount(results[..i])
      invariant timedOut <==> exists k | 0 <= k < i :: results[k].timeout
    {
      var r := results[i];
      assert results[..i + 1][..i] == results[..i];
      slots := slots + [if r.failed then Failure(r.index) else Value(r.data)];
      if r.failed { failed := failed + 1; }
      if r.timeout { timedOut := true; }
    }
    assert results[..|results|] == results;
    FailedCountBounds(results);
    ok := failed == 0 || (continueOnError && failed < |results|);
  }
}
