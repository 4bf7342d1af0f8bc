/** The priority queue of a query: one cursor per partition, the newest head on top. */
module QueryHeap {
  import opened PartitionIndex

  datatype IndexCursor = IndexCursor(path: string, entries: seq<Entry>, position: nat, order: nat)

  predicate Ready(c: IndexCursor) { c.position < |c.entries| }

  /** Less: the newer head first, and the earlier partition among equals. */
  predicate CursorBefore(a: IndexCursor, b: IndexCursor)
    requires Ready(a) && Ready(b)
  {
    var x, y := a.entries[a.position], b.entries[b.position];
    if x.receivedAt == y.receivedAt then a.order < b.order else x.receivedAt > y.receivedAt
  }

  predicate NotAfter(a: IndexCursor, b: IndexCursor) {
    Ready(a) && Ready(b) && !CursorBefore(b, a)
  }

  function Parent(k: int): int
    requires k > 0
  {
    (k - 1) / 2
  }

  ghost predicate AllReady(items: seq<IndexCursor>) {
    forall k :: 0 <= k < |items| ==> Ready(items[k])
  }

  /** Heap order below every node from lo on, except below skip, within the first n. */
  ghost predicate HeapBut(items: seq<IndexCursor>, lo: int, n: int, skip: int)
    requires n <= |items|
  {
    forall k :: 0 < k < n && Parent(k) >= lo && Parent(k) != skip ==> NotAfter(items[Parent(k)], items[k])
  }

  /** The element at top is not after any child of i. */
  ghost predicate AboveChildren(items: seq<IndexCursor>, top: int, i: int, n: int)
    requires 0 <= top < |items| && n <= |items|
  {
    forall k :: 0 < k < n && Parent(k) == i ==> NotAfter(items[top], items[k])
  }

  ghost predicate IsHeap(items: seq<IndexCursor>) {
    AllReady(items) && HeapBut(items, 0, |items|, -1)
  }

  function Swapped(items: seq<IndexCursor>, i: int, j: int): seq<IndexCursor>
    requires 0 <= i < |items| && 0 <= j < |items|
  {
    items[i := items[j]][j := items[i]]
  }

  lemma SwapPermutes(items: seq<IndexCursor>, i: int, j: int)
    requires 0 <= i < |items| && 0 <= j < |items|
    ensures multiset(Swapped(items, i, j)) == multiset(items)
  {
  }

  /** The root of a heap is before, or equal to, everything in it. */
  lemma {:induction false} RootFirst(items: seq<IndexCursor>, k: int)
    requires IsHeap(items) && 0 <= k < |items|
    ensures NotAfter(items[0], items[k])
    decreases k
  {
    if k > 0 {
      RootFirst(items, Parent(k));
      assert NotAfter(items[Parent(k)], items[k]);
    }
  }

  class Heap {
    var items: seq<IndexCursor>

    constructor (items: seq<IndexCursor>)
      ensures this.items == items
    {
      this.items := items;
    }

    predicate Less(i: int, j: int)
      requires 0 <= i < |items| && 0 <= j < |items| && Ready(items[i]) && Ready(items[j])
      reads this
    {
      CursorBefore(items[i], items[j])
    }

    method Swap(i: int, j: int)
      requires 0 <= i < |items| && 0 <= j < |items|
      modifies this
      ensures items == Swapped(old(items), i, j)
      ensures multiset(items) == multiset(old(items))
    {
      SwapPermutes(items, i, j);
      items := items[i := items[j]][j := items[i]];
    }

    /** The child that no other child precedes. */
    method FirstChild(i: int, n: int) returns (j: int)
      requires 0 <= i && 2 * i + 1 < n <= |items| && AllReady(items)
      ensures (j == 2 * i + 1 || j == 2 * i + 2) && j < n
      ensures AboveChildren(items, j, i, n)
    {
      j := 2 * i + 1;
      if j + 1 < n && Less(j + 1, j) {
        j := j + 1;
      }
      forall k | 0 < k < n && Parent(k) == i ensures NotAfter(items[j], items[k]) {
        assert k == 2 * i + 1 || k == 2 * i + 2;
      }
    }

    /** Swaps the element at i with its first child if it is out of order; j is where the element is afterwards. */
    method DownStep(start: int, i: int, n: int) returns (j: int)
      requires 0 <= start <= i < n <= |items| && AllReady(items) && HeapBut(items, start, n, i)
      requires i > start ==> Parent(i) >= start && AboveChildren(items, Parent(i), i, n)
      modifies this
      ensures |items| == |old(items)| && AllReady(items) && multiset(items) == multiset(old(items))
      ensures items[n..] == old(items)[n..]
      ensures j == i ==> items == old(items) && HeapBut(items, start, n, -1)
      ensures j != i ==>
        i < j < n && Parent(j) >= start && HeapBut(items, start, n, j) && AboveChildren(items, Parent(j), j, n)
    {
      if 2 * i + 1 >= n { return i; }
      j := FirstChild(i, n);
      if !Less(j, i) {
        assert NotAfter(items[i], items[j]);
        return i;
      }
      ghost var before := items;
      Swap(i, j);
      AfterSink(before, items, start, n, i, j);
    }

    /** Moves the element at start down until the order below start holds. */
    method Down(start: int, n: int)
      requires 0 <= start <= n <= |items| && AllReady(items) && HeapBut(items, start, n, start)
      modifies this
      ensures |items| == |old(items)| && AllReady(items) && multiset(items) == multiset(old(items))
      ensures items[n..] == old(items)[n..]
      ensures HeapBut(items, start, n, -1)
    {
      var i := start;
      while i < n
        invariant start <= i <= n && |items| == |old(items)| && AllReady(items)
        invariant multiset(items) == multiset(old(items)) && items[n..] == old(items)[n..]
        invariant HeapBut(items, start, n, i)
        invariant i > start ==> Parent(i) >= start && AboveChildren(items, Parent(i), i, n)
        decreases n - i
      {
        var j := DownStep(start, i, n);
        if j == i { return; }
        i := j;
      }
    }

    /** Moves the last element up until the whole is a heap. */
    method Up()
      requires |items| > 0 && AllReady(items)
      requires forall k :: 0 < k < |items| - 1 ==> NotAfter(items[Parent(k)], items[k])
      modifies this
      ensures IsHeap(items) && multiset(items) == multiset(old(items))
    {
      var j := |items| - 1;
      while j > 0 && Less(j, (j - 1) / 2)
        invariant 0 <= j < |items| == |old(items)| && AllReady(items) && multiset(items) == multiset(old(items))
        invariant forall k :: 0 < k < |items| && k != j ==> NotAfter(items[Parent(k)], items[k])
        invariant j > 0 ==> forall k :: 0 < k < |items| && Parent(k) == j ==> NotAfter(items[Parent(j)], items[k])
      {
        var i := (j - 1) / 2;
        ghost var before := items;
        Swap(i, j);
        AfterRise(before, items, j);
        j := i;
      }
    }

    /** heap.Init. */
    method Init()
      requires AllReady(items)
      modifies this
      ensures IsHeap(items) && multiset(items) == multiset(old(items))
    {
      var n := |items|;
      var i := n / 2;
      while i > 0
        invariant 0 <= i <= n == |items| && AllReady(items) && multiset(items) == multiset(old(items))
        invariant HeapBut(items, i, n, -1)
      {
        i := i - 1;
        Down(i, n);
      }
    }

    /** heap.Push. */
    method Push(x: IndexCursor)
      requires IsHeap(items) && Ready(x)
      modifies this
      ensures IsHeap(items) && multiset(items) == multiset(old(items)) + multiset{x}
    {
      items := items + [x];
      Up();
    }

    /** heap.Pop: a cursor no other one precedes. */
    method Pop() returns (x: IndexCursor)
      requires IsHeap(items) && |items| > 0
      modifies this
      ensures IsHeap(items) && |items| == |old(items)| - 1
      ensures multiset(old(items)) == multiset(items) + multiset{x}
      ensures forall k :: 0 <= k < |old(items)| ==> NotAfter(x, old(items)[k])
    {
      forall k | 0 <= k < |items| ensures NotAfter(items[0], items[k]) { RootFirst(items, k); }
      var n := |items| - 1;
      ghost var before := items;
      Swap(0, n);
      Down(0, n);
      x := items[n];
      assert items[n..][0] == before[0];
      assert items == items[..n] + [x];
      items := items[..n];
    }
  }

  lemma AfterSink(before: seq<IndexCursor>, after: seq<IndexCursor>, start: int, n: int, i: int, j: int)
    requires 0 <= start <= i < n <= |before| && AllReady(before)
    requires (j == 2 * i + 1 || j == 2 * i + 2) && j < n && after == Swapped(before, i, j)
    requires HeapBut(before, start, n, i)
    requires i > start ==> Parent(i) >= start && AboveChildren(before, Parent(i), i, n)
    requires CursorBefore(before[j], before[i])
    requires AboveChildren(before, j, i, n)
    ensures HeapBut(after, start, n, j)
    ensures Parent(j) == i && AboveChildren(after, i, j, n)
  {
    forall k | 0 < k < n && Parent(k) >= start && Parent(k) != j ensures NotAfter(after[Parent(k)], after[k]) {
      if k == i { assert NotAfter(before[Parent(i)], before[j]); }
      else if Parent(k) == i { assert NotAfter(before[j], before[k]); }
      else { assert NotAfter(before[Parent(k)], before[k]); }
    }
  }

  lemma AfterRise(before: seq<IndexCursor>, after: seq<IndexCursor>, j: int)
    requires 0 < j < |before| && AllReady(before) && after == Swapped(before, Parent(j), j)
    requires forall k :: 0 < k < |before| && k != j ==> NotAfter(before[Parent(k)], before[k])
    requires forall k :: 0 < k < |before| && Parent(k) == j ==> NotAfter(before[Parent(j)], before[k])
    requires CursorBefore(before[j], before[Parent(j)])
    ensures forall k :: 0 < k < |after| && k != Parent(j) ==> NotAfter(after[Parent(k)], after[k])
    ensures Parent(j) > 0 ==> forall k :: 0 < k < |after| && Parent(k) == Parent(j) ==>
      NotAfter(after[Parent(Parent(j))], after[k])
  {
    var i := Parent(j);
    forall k | 0 < k < |after| && k != i ensures NotAfter(after[Parent(k)], after[k]) {
      if k != j {
        assert NotAfter(before[Parent(k)], before[k]);
      }
    }
    if i > 0 {
      assert NotAfter(before[Parent(i)], before[i]);
      forall k | 0 < k < |after| && Parent(k) == i ensures NotAfter(after[Parent(i)], after[k]) {
        if k != j { assert NotAfter(before[i], before[k]); }
      }
    }
  }
}
