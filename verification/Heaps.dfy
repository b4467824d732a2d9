/** The binary heap that the scheduler builds on (Less, Swap, Push and Pop of
    internal/queue/schedule.go under the sift loops of Go's container/heap).

    A heap holds names. Their times are kept outside it, so that an operation states exactly whose
    time it looks at. Every swap also maintains the position stored for each name. */
module Heaps {
  import opened Ranks

  // ---------- the heap ----------

  datatype Slots = Slots(items: seq<Name>, index: map<Name, int>)

  /** Every item is stored once, at its recorded position. */
  predicate Indexed(h: Slots) {
    && (forall i {:trigger h.items[i]} :: 0 <= i < |h.items| ==> h.items[i] in h.index && h.index[h.items[i]] == i)
    && (forall x {:trigger h.index[x]} :: x in h.index ==> 0 <= h.index[x] < |h.items| && h.items[h.index[x]] == x)
  }

  /** The first n items have a time. */
  predicate Covers(at: Times, items: seq<Name>, n: int)
    requires n <= |items|
  {
    forall i :: 0 <= i < n ==> items[i] in at
  }

  function Parent(j: int): int {
    if j <= 0 then 0 else (j - 1) / 2
  }

  /** Item j does not precede its parent. */
  predicate EdgeOk(items: seq<Name>, at: Times, j: int)
    requires 0 < j < |items| && items[j] in at && items[Parent(j)] in at
  {
    !Less(at, items[j], items[Parent(j)])
  }

  predicate Ordered(items: seq<Name>, at: Times, n: int)
    requires n <= |items| && Covers(at, items, n)
  {
    forall j :: 0 < j < n ==> EdgeOk(items, at, j)
  }

  predicate SameFrom(a: seq<Name>, b: seq<Name>, n: int) {
    |a| == |b| && forall k :: 0 <= n <= k < |a| ==> a[k] == b[k]
  }

  function Swap(h: Slots, i: int, j: int): (r: Slots)
    requires Indexed(h) && 0 <= i < |h.items| && 0 <= j < |h.items|
    ensures Indexed(r) && r.index.Keys == h.index.Keys && |r.items| == |h.items|
  {
    Slots(h.items[i := h.items[j]][j := h.items[i]], h.index[h.items[j] := i][h.items[i] := j])
  }

  /** The first item precedes all others. */
  lemma {:induction false} RootIsLeast(items: seq<Name>, at: Times, j: int)
    requires Covers(at, items, |items|) && Ordered(items, at, |items|) && 0 <= j < |items|
    ensures !Less(at, items[j], items[0])
    decreases j
  {
    if j > 0 {
      assert EdgeOk(items, at, j);
      RootIsLeast(items, at, Parent(j));
    }
  }

  /** The first n items are in order except for the edges around position i, and what hangs below
      i does not precede what is above i. Item i itself need not have a time. */
  predicate Around(items: seq<Name>, at: Times, n: int, i: int)
    requires 0 <= n <= |items|
  {
    && (forall k :: 0 <= k < n && k != i ==> items[k] in at)
    && (forall k :: 0 < k < n && k != i && Parent(k) != i ==> EdgeOk(items, at, k))
    && (0 < i < n ==> forall k :: 0 < k < n && Parent(k) == i ==> !Less(at, items[k], items[Parent(i)]))
  }

  /** Nothing below i precedes it. */
  predicate BelowOk(items: seq<Name>, at: Times, n: int, i: int)
    requires 0 <= i < n <= |items| && Covers(at, items, n)
  {
    forall k :: 0 < k < n && Parent(k) == i ==> EdgeOk(items, at, k)
  }

  predicate AboveOk(items: seq<Name>, at: Times, n: int, i: int)
    requires 0 <= i < n <= |items| && Covers(at, items, n)
  {
    0 < i ==> EdgeOk(items, at, i)
  }

  /** One swap towards the root moves the disorder to the parent. */
  lemma UpStep(items: seq<Name>, at: Times, n: int, j: int)
    requires 0 < j < n <= |items| && Covers(at, items, n)
    requires Around(items, at, n, j) && BelowOk(items, at, n, j) && Less(at, items[j], items[Parent(j)])
    ensures
      var i := Parent(j);
      var after := items[i := items[j]][j := items[i]];
      Covers(at, after, n) && Around(after, at, n, i) && BelowOk(after, at, n, i)
  {
    var i := Parent(j);
    var x, p := items[j], items[i];
    var after := items[i := x][j := p];
    forall k | 0 < k < n && k != i && Parent(k) != i ensures EdgeOk(after, at, k) {
      assert k != j;
      if Parent(k) == j {
        assert !Less(at, items[k], items[Parent(j)]);
      } else {
        assert EdgeOk(items, at, k);
      }
    }
    forall k | 0 < k < n && Parent(k) == i
      ensures EdgeOk(after, at, k) && (0 < i ==> !Less(at, after[k], after[Parent(i)]))
    {
      if k != j {
        assert EdgeOk(items, at, k);
      }
      if 0 < i {
        assert EdgeOk(items, at, i);
      }
    }
  }

  lemma Whole(items: seq<Name>, at: Times, n: int, j: int)
    requires 0 <= j < n <= |items| && Covers(at, items, n)
    requires Around(items, at, n, j) && BelowOk(items, at, n, j) && AboveOk(items, at, n, j)
    ensures Ordered(items, at, n)
  {
    forall k | 0 < k < n ensures EdgeOk(items, at, k) {
      if k != j { assert EdgeOk(items, at, k); }
    }
  }

  /** One swap away from the root moves the disorder to the earlier child. */
  lemma DownStep(items: seq<Name>, at: Times, n: int, i: int, j: int)
    requires 0 <= i < j < n <= |items| && Parent(j) == i && Covers(at, items, n)
    requires Around(items, at, n, i)
    requires Less(at, items[j], items[i])
    requires forall k :: 0 < k < n && Parent(k) == i ==> !Less(at, items[k], items[j])
    ensures
      var after := items[i := items[j]][j := items[i]];
      Covers(at, after, n) && Around(after, at, n, j) && AboveOk(after, at, n, j) && AboveOk(after, at, n, i)
  {
    var p, x := items[i], items[j];
    var after := items[i := x][j := p];
    forall k | 0 < k < n && k != j && Parent(k) != j ensures EdgeOk(after, at, k) {
      if k != i && Parent(k) != i { assert EdgeOk(items, at, k); }
    }
    forall k | 0 < k < n && Parent(k) == j ensures !Less(at, after[k], after[Parent(j)]) {
      assert EdgeOk(items, at, k);
    }
  }

  /** The child of i that comes first. */
  function FirstChild(items: seq<Name>, at: Times, n: int, i: int): (j: int)
    requires 0 <= i && 2 * i + 1 < n <= |items| && Covers(at, items, n)
    ensures i < j < n && Parent(j) == i
    ensures forall k :: 0 < k < n && Parent(k) == i ==> !Less(at, items[k], items[j])
  {
    var left := 2 * i + 1;
    if left + 1 < n && Less(at, items[left + 1], items[left]) then left + 1 else left
  }

  lemma NothingBelow(items: seq<Name>, at: Times, n: int, i: int)
    requires 0 <= i < n <= |items| && Covers(at, items, n)
    requires 2 * i + 1 < n ==> !Less(at, items[FirstChild(items, at, n, i)], items[i])
    ensures BelowOk(items, at, n, i)
  {
    forall k | 0 < k < n && Parent(k) == i ensures EdgeOk(items, at, k) {
      var j := FirstChild(items, at, n, i);
    }
  }

  /** h holds what h0 held, and only the first n positions moved. */
  predicate Shuffled(h: Slots, h0: Slots, at: Times, n: int) {
    && Indexed(h) && h.index.Keys == h0.index.Keys && SameFrom(h.items, h0.items, n) && n <= |h.items|
    && Covers(at, h.items, n)
  }

  /** How far a sift up has come. */
  predicate Rising(h: Slots, h0: Slots, at: Times, n: int, j: int) {
    0 <= j < n && Shuffled(h, h0, at, n) && Around(h.items, at, n, j) && BelowOk(h.items, at, n, j)
  }

  lemma RiseStep(h: Slots, h0: Slots, at: Times, n: int, j: int)
    requires Rising(h, h0, at, n, j) && 0 < j && Less(at, h.items[j], h.items[Parent(j)])
    ensures Rising(Swap(h, Parent(j), j), h0, at, n, Parent(j))
  {
    UpStep(h.items, at, n, j);
    assert Swap(h, Parent(j), j).items == h.items[Parent(j) := h.items[j]][j := h.items[Parent(j)]];
  }

  /** Sifts position j of the first n items up. */
  method Up(h0: Slots, at: Times, n: int, j0: int) returns (h: Slots)
    requires Rising(h0, h0, at, n, j0)
    ensures Shuffled(h, h0, at, n) && Ordered(h.items, at, n)
  {
    h := h0;
    var j := j0;
    while j > 0 && Less(at, h.items[j], h.items[Parent(j)])
      invariant Rising(h, h0, at, n, j)
      decreases j
    {
      RiseStep(h, h0, at, n, j);
      h := Swap(h, Parent(j), j);
      j := Parent(j);
    }
    Whole(h.items, at, n, j);
  }

  /** How far a sift down from i0 has come. */
  predicate Sinking(h: Slots, h0: Slots, at: Times, n: int, i0: int, i: int) {
    && 0 <= i0 <= i < n && Shuffled(h, h0, at, n)
    && Around(h.items, at, n, i)
    && (if i == i0 then h == h0 else AboveOk(h.items, at, n, i))
  }

  lemma SinkStep(h: Slots, h0: Slots, at: Times, n: int, i0: int, i: int)
    requires Sinking(h, h0, at, n, i0, i) && 2 * i + 1 < n
    requires Less(at, h.items[FirstChild(h.items, at, n, i)], h.items[i])
    ensures var j := FirstChild(h.items, at, n, i); Sinking(Swap(h, i, j), h0, at, n, i0, j)
  {
    var j := FirstChild(h.items, at, n, i);
    DownStep(h.items, at, n, i, j);
    assert Swap(h, i, j).items == h.items[i := h.items[j]][j := h.items[i]];
  }

  lemma Sunk(h: Slots, h0: Slots, at: Times, n: int, i0: int, i: int)
    requires Sinking(h, h0, at, n, i0, i)
    requires 2 * i + 1 < n ==> !Less(at, h.items[FirstChild(h.items, at, n, i)], h.items[i])
    ensures if i == i0 then BelowOk(h.items, at, n, i) else Ordered(h.items, at, n)
  {
    NothingBelow(h.items, at, n, i);
    if i != i0 {
      Whole(h.items, at, n, i);
    }
  }

  /** Sifts position i of the first n items down and reports whether it moved. */
  method Down(h0: Slots, at: Times, i0: int, n: int) returns (h: Slots, moved: bool)
    requires Indexed(h0) && 0 <= i0 < n <= |h0.items| && Covers(at, h0.items, n)
    requires Around(h0.items, at, n, i0)
    ensures Shuffled(h, h0, at, n)
    ensures if moved then Ordered(h.items, at, n) else h == h0 && BelowOk(h.items, at, n, i0)
  {
    h := h0;
    var i := i0;
    while 2 * i + 1 < n && Less(at, h.items[FirstChild(h.items, at, n, i)], h.items[i])
      invariant Sinking(h, h0, at, n, i0, i)
      decreases n - i
    {
      var j := FirstChild(h.items, at, n, i);
      SinkStep(h, h0, at, n, i0, i);
      h := Swap(h, i, j);
      i := j;
    }
    Sunk(h, h0, at, n, i0, i);
    moved := i > i0;
  }

  // ---------- the heap as a map from names to times ----------

  /** The slots together with the times of the names in them. */
  datatype RawHeap = RawHeap(slots: Slots, at: Times)

  predicate HeapOk(h: RawHeap) {
    && Indexed(h.slots) && h.slots.index.Keys == h.at.Keys
    && Covers(h.at, h.slots.items, |h.slots.items|) && Ordered(h.slots.items, h.at, |h.slots.items|)
  }

  const EMPTY := RawHeap(Slots([], map[]), map[])

  type Heap = h: RawHeap | HeapOk(h) witness EMPTY

  lemma EmptySlots(h: Heap)
    ensures h.slots.items == [] <==> h.at == map[]
  {
    if h.slots.items != [] {
      assert h.slots.items[0] in h.slots.index;
    } else {
      forall x | x in h.slots.index.Keys ensures false {
        assert false;
      }
      assert h.at.Keys == {};
    }
  }

  /** The name in the first slot. */
  function First(h: Heap): (x: Name)
    requires h.at != map[]
    ensures Earliest(h.at, x)
  {
    EmptySlots(h);
    FirstIsEarliest(h);
    h.slots.items[0]
  }

  lemma FirstIsEarliest(h: Heap)
    requires h.slots.items != []
    ensures Earliest(h.at, h.slots.items[0])
  {
    var x := h.slots.items[0];
    assert x in h.slots.index;
    forall y | y in h.at && y != x ensures Less(h.at, x, y) {
      assert y in h.slots.index;
      RootIsLeast(h.slots.items, h.at, h.slots.index[y]);
    }
  }

  /** A heap's order only depends on the times of its items. */
  lemma OrderedFrame(items: seq<Name>, at: Times, at': Times, n: int)
    requires n <= |items| && Covers(at, items, n) && Ordered(items, at, n)
    requires forall k :: 0 <= k < n ==> items[k] in at' && at'[items[k]] == at[items[k]]
    ensures Covers(at', items, n) && Ordered(items, at', n)
  {
    forall k | 0 < k < n ensures EdgeOk(items, at', k) {
      assert EdgeOk(items, at, k);
    }
  }

  /** When only item i changed its time, or lost it, the disorder is confined to the edges around i. */
  lemma AroundFrame(items: seq<Name>, at: Times, at': Times, i: int)
    requires Covers(at, items, |items|) && Ordered(items, at, |items|) && 0 <= i < |items|
    requires forall k :: 0 <= k < |items| && k != i ==> items[k] in at' && at'[items[k]] == at[items[k]]
    ensures Around(items, at', |items|, i)
  {
    forall k | 0 < k < |items| && k != i && Parent(k) != i ensures EdgeOk(items, at', k) {
      assert EdgeOk(items, at, k);
    }
    forall k | 0 < i && 0 < k < |items| && Parent(k) == i ensures !Less(at', items[k], items[Parent(i)]) {
      assert EdgeOk(items, at, k) && EdgeOk(items, at, i);
    }
  }

  /** Forgets the last item. */
  function DropLast(h: Slots): (r: Slots)
    requires Indexed(h) && h.items != []
    ensures Indexed(r) && r.index.Keys == h.index.Keys - {h.items[|h.items| - 1]}
  {
    var last := |h.items| - 1;
    Slots(h.items[..last], h.index - {h.items[last]})
  }

  lemma PrefixOrdered(h: Slots, at: Times)
    requires Indexed(h) && h.items != []
    requires Covers(at, h.items, |h.items| - 1) && Ordered(h.items, at, |h.items| - 1)
    ensures var r := DropLast(h); Covers(at, r.items, |r.items|) && Ordered(r.items, at, |r.items|)
  {
    var r := DropLast(h);
    forall k | 0 < k < |r.items| ensures EdgeOk(r.items, at, k) {
      assert EdgeOk(h.items, at, k);
    }
  }

  lemma AppendRises(h: Slots, at: Times, x: Name)
    requires Indexed(h) && x !in h.index && x in at
    requires Covers(at, h.items, |h.items|) && Ordered(h.items, at, |h.items|)
    ensures
      var r := Slots(h.items + [x], h.index[x := |h.items|]);
      Rising(r, r, at, |r.items|, |h.items|)
  {
    var r := Slots(h.items + [x], h.index[x := |h.items|]);
    forall k | 0 < k < |h.items| ensures EdgeOk(r.items, at, k) {
      assert EdgeOk(h.items, at, k);
    }
  }

  /** Adds a name. */
  method Push(h: Heap, x: Name, when: int) returns (r: Heap)
    requires x !in h.at
    ensures r.at == h.at[x := when]
  {
    var at := h.at[x := when];
    assert forall k :: 0 <= k < |h.slots.items| ==> h.slots.items[k] in h.slots.index;
    OrderedFrame(h.slots.items, h.at, at, |h.slots.items|);
    AppendRises(h.slots, at, x);
    var slots := Slots(h.slots.items + [x], h.slots.index[x := |h.slots.items|]);
    slots := Up(slots, at, |slots.items|, |h.slots.items|);
    r := RawHeap(slots, at);
  }

  /** Sifts position i of the first n items wherever it belongs. */
  method Settle(h0: Slots, at: Times, n: int, i: int) returns (h: Slots)
    requires Indexed(h0) && 0 <= i < n <= |h0.items| && Covers(at, h0.items, n)
    requires Around(h0.items, at, n, i)
    ensures Shuffled(h, h0, at, n) && Ordered(h.items, at, n)
  {
    var moved;
    h, moved := Down(h0, at, i, n);
    if !moved {
      h := Up(h, at, n, i);
    }
  }

  /** Gives a name in the heap another time. */
  method Fix(h: Heap, x: Name, when: int) returns (r: Heap)
    requires x in h.at
    ensures r.at == h.at[x := when]
  {
    var at := h.at[x := when];
    assert x in h.slots.index;
    AroundFrame(h.slots.items, h.at, at, h.slots.index[x]);
    var slots := Settle(h.slots, at, |h.slots.items|, h.slots.index[x]);
    r := RawHeap(slots, at);
  }

  lemma SwapLastAround(h: Slots, at: Times, i: int)
    requires Indexed(h) && 0 <= i < |h.items| - 1 && Around(h.items, at, |h.items|, i)
    ensures
      var n := |h.items| - 1;
      var items := Swap(h, i, n).items;
      Covers(at, items, n) && Around(items, at, n, i)
  {
    var n := |h.items| - 1;
    var items := Swap(h, i, n).items;
    forall k | 0 < k < n && k != i && Parent(k) != i ensures EdgeOk(items, at, k) {
      assert EdgeOk(h.items, at, k);
    }
  }

  lemma LastAround(items: seq<Name>, at: Times)
    requires items != [] && Around(items, at, |items|, |items| - 1)
    ensures Covers(at, items, |items| - 1) && Ordered(items, at, |items| - 1)
  {
    forall k | 0 < k < |items| - 1 ensures EdgeOk(items, at, k) {
      assert k != |items| - 1 && Parent(k) != |items| - 1;
    }
  }

  /** Brings position i to the end and restores the order of the others. The time of the item at
      position i is never looked at: `at` need not hold it. */
  method Extract(h0: Slots, at: Times, i: int) returns (h: Slots)
    requires Indexed(h0) && 0 <= i < |h0.items| && Around(h0.items, at, |h0.items|, i)
    ensures Indexed(h) && h.index.Keys == h0.index.Keys && |h.items| == |h0.items|
    ensures h.items[|h.items| - 1] == h0.items[i]
    ensures Covers(at, h.items, |h.items| - 1) && Ordered(h.items, at, |h.items| - 1)
  {
    var n := |h0.items| - 1;
    if n == i {
      LastAround(h0.items, at);
      return h0;
    }
    h := SettleSwapped(h0, at, i, n);
    ShuffledLast(h, h0, at, i);
  }

  method SettleSwapped(h0: Slots, at: Times, i: int, n: int) returns (h: Slots)
    requires Indexed(h0) && n == |h0.items| - 1 && 0 <= i < n && Around(h0.items, at, |h0.items|, i)
    ensures Shuffled(h, Swap(h0, i, n), at, n) && Ordered(h.items, at, n)
  {
    SwapLastAround(h0, at, i);
    h := Settle(Swap(h0, i, n), at, n, i);
  }

  lemma ShuffledLast(h: Slots, h0: Slots, at: Times, i: int)
    requires Indexed(h0) && 0 <= i < |h0.items| - 1 && Shuffled(h, Swap(h0, i, |h0.items| - 1), at, |h0.items| - 1)
    ensures Indexed(h) && h.index.Keys == h0.index.Keys && |h.items| == |h0.items|
    ensures h.items[|h.items| - 1] == h0.items[i] && Covers(at, h.items, |h.items| - 1)
  {
    var swapped, n := Swap(h0, i, |h0.items| - 1), |h0.items| - 1;
    assert h.items[n] == swapped.items[n] == h0.items[i];
  }

  /** Removes a name. */
  method Remove(h: Heap, x: Name) returns (r: Heap)
    requires x in h.at
    ensures r.at == h.at - {x}
  {
    var at := h.at - {x};
    assert x in h.slots.index;
    AroundFrame(h.slots.items, h.at, at, h.slots.index[x]);
    var slots := Extract(h.slots, at, h.slots.index[x]);
    PrefixOrdered(slots, at);
    r := RawHeap(DropLast(slots), at);
  }

  /** Takes the first name. */
  method Pop(h: Heap) returns (r: Heap, x: Name)
    requires h.at != map[]
    ensures x == First(h) && r.at == h.at - {x}
  {
    EmptySlots(h);
    x := h.slots.items[0];
    assert x in h.slots.index;
    var at := h.at - {x};
    AroundFrame(h.slots.items, h.at, at, 0);
    var slots := Extract(h.slots, at, 0);
    PrefixOrdered(slots, at);
    r := RawHeap(DropLast(slots), at);
  }
}
