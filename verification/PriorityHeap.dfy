/**
 The priority heap behind both tables of a channel: a tree of any fan-out laid out in an array, with
 the least priority number at the root.

 An ordinary insert takes the next priority number, one above the last, so that the heap hands
 items out in the order in which they came: it is a first-in first-out queue.
 */
module PriorityHeap {
  import opened Counting

  datatype Entry<T> = Entry(pri: nat, item: T)

  function Parent(base: nat, c: nat): nat
    requires base > 0 && c > 0
  {
    (c - 1) / base
  }

  /** The children of i are the base entries from base * i + 1 on. */
  lemma ParentIff(base: nat, i: nat, c: nat)
    requires base > 0 && c > 0
    ensures Parent(base, c) == i <==> base * i + 1 <= c < base * i + 1 + base
    ensures Parent(base, c) < c
  {
    var q := (c - 1) / base;
    assert q * base == base * q && base * q <= c - 1 < base * q + base;
    assert (i + 1) * base == base * i + base;
    if base * i + 1 <= c < base * i + 1 + base { DivBetween(c - 1, base, i, i + 1); }
    MulAtLeast(c, base);
    DivBetween(c - 1, base, 0, c);
  }

  // ---------------------------------------------------------------------------------------
  // Heap order
  // ---------------------------------------------------------------------------------------

  ghost predicate Above<T>(base: nat, h: seq<Entry<T>>, c: nat)
    requires base > 0
  {
    0 < c < |h| && Parent(base, c) < |h| ==> h[Parent(base, c)].pri <= h[c].pri
  }

  ghost predicate Ordered<T>(base: nat, h: seq<Entry<T>>)
    requires base > 0
  {
    forall c :: 0 < c < |h| ==> Above(base, h, c)
  }

  /** Nothing has a smaller number than the root. */
  lemma {:induction false} RootIsLeast<T>(base: nat, h: seq<Entry<T>>, c: nat)
    requires base > 0 && Ordered(base, h) && c < |h|
    ensures h[0].pri <= h[c].pri
  {
    if c > 0 {
      ParentIff(base, Parent(base, c), c);
      assert Above(base, h, c);
      RootIsLeast(base, h, Parent(base, c));
    }
  }

  function Swapped<T>(h: seq<Entry<T>>, i: nat, j: nat): seq<Entry<T>>
    requires i < |h| && j < |h|
  {
    h[i := h[j]][j := h[i]]
  }

  lemma SwapKeeps<T>(h: seq<Entry<T>>, i: nat, j: nat)
    requires i < |h| && j < |h|
    ensures multiset(Swapped(h, i, j)) == multiset(h)
  {
  }

  /** In order but for entry i, which may be too small for its place. */
  ghost predicate Rising<T>(base: nat, h: seq<Entry<T>>, i: nat)
    requires base > 0
  {
    && i < |h|
    && (forall c :: 0 < c < |h| && c != i ==> Above(base, h, c))
    && (forall c :: 0 < c < |h| && i > 0 && Parent(base, c) == i && Parent(base, i) < |h| ==>
          h[Parent(base, i)].pri <= h[c].pri)
  }

  lemma RiseStep<T>(base: nat, h: seq<Entry<T>>, i: nat)
    requires base > 0 && Rising(base, h, i) && i > 0 && Parent(base, i) < |h| && h[Parent(base, i)].pri > h[i].pri
    ensures Rising(base, Swapped(h, i, Parent(base, i)), Parent(base, i))
  {
    var p := Parent(base, i);
    var h' := Swapped(h, i, p);
    ParentIff(base, p, i);
    forall c | 0 < c < |h'| && c != p ensures Above(base, h', c) {
      ParentIff(base, Parent(base, c), c);
      if c != i { assert Above(base, h, c); }
    }
    forall c | 0 < c < |h'| && p > 0 && Parent(base, c) == p && Parent(base, p) < |h'|
      ensures h'[Parent(base, p)].pri <= h'[c].pri
    {
      ParentIff(base, Parent(base, p), p);
      ParentIff(base, p, c);
      assert Above(base, h, p);
      if c != i { assert Above(base, h, c); }
    }
  }

  /** In order but for entry i, which may be too large for its place. */
  ghost predicate Sinking<T>(base: nat, h: seq<Entry<T>>, i: nat)
    requires base > 0
  {
    && i < |h|
    && (forall c :: 0 < c < |h| && Parent(base, c) != i ==> Above(base, h, c))
    && (forall c :: 0 < c < |h| && i > 0 && Parent(base, c) == i && Parent(base, i) < |h| ==>
          h[Parent(base, i)].pri <= h[c].pri)
  }

  ghost predicate LeastChild<T>(base: nat, h: seq<Entry<T>>, i: nat, j: nat)
    requires base > 0
  {
    && 0 < j < |h| && Parent(base, j) == i < |h| && h[j].pri < h[i].pri
    && forall c :: 0 < c < |h| && Parent(base, c) == i ==> h[j].pri <= h[c].pri
  }

  lemma SinkStep<T>(base: nat, h: seq<Entry<T>>, i: nat, j: nat)
    requires base > 0 && Sinking(base, h, i) && LeastChild(base, h, i, j)
    ensures Sinking(base, Swapped(h, i, j), j)
  {
    var h' := Swapped(h, i, j);
    ParentIff(base, i, j);
    forall c | 0 < c < |h'| && Parent(base, c) != j ensures Above(base, h', c) {
      ParentIff(base, Parent(base, c), c);
      if Parent(base, c) != i { assert Above(base, h, c); }
    }
    forall c | 0 < c < |h'| && Parent(base, c) == j ensures h'[i].pri <= h'[c].pri {
      ParentIff(base, j, c);
      assert Above(base, h, c);
    }
  }

  // ---------------------------------------------------------------------------------------
  // The heap in memory
  // ---------------------------------------------------------------------------------------

  datatype Status = Success | Full | Empty

  /** The numbers go up strictly along the queue. */
  ghost predicate InOrder<T>(q: seq<Entry<T>>) {
    forall i, j :: 0 <= i < j < |q| ==> q[i].pri < q[j].pri
  }

  /**
   The root of a heap that holds the entries of a queue is a least one of them, and the front if the
   numbers go up.
   */
  lemma RootIsLeastOf<T>(base: nat, h: seq<Entry<T>>, q: seq<Entry<T>>) returns (at: nat)
    requires base > 0 && Ordered(base, h) && multiset(h) == multiset(q) && h != []
    ensures at < |q| && h[0] == q[at] && (forall i :: 0 <= i < |q| ==> h[0].pri <= q[i].pri)
    ensures InOrder(q) ==> at == 0
  {
    assert h[0] in multiset(h);
    at :| 0 <= at < |q| && q[at] == h[0];
    forall i | 0 <= i < |q| ensures h[0].pri <= q[i].pri {
      assert q[i] in multiset(q);
      var j :| 0 <= j < |h| && h[j] == q[i];
      RootIsLeast(base, h, j);
    }
    assert q[at].pri <= q[0].pri;
  }

  /** The numbers go up and have not passed the last one given out. */
  ghost predicate Numbered<T>(q: seq<Entry<T>>, last: nat) {
    InOrder(q) && forall i :: 0 <= i < |q| ==> q[i].pri <= last
  }

  /** The next number, in 64 bits. */
  function NextPri(last: nat): nat {
    if last + 1 == WORD then 0 else last + 1
  }

  class Heap<T(0)> {
    const base: nat
    const harr: array<Entry<T>>
    var len: nat
    var lastPri: nat
    ghost var queue: seq<Entry<T>>

    /**
     The entries in use form a heap and are those of the queue, in whatever order. The queue is in order
     of arrival.
     */
    ghost predicate Valid()
      reads this, harr
    {
      && base > 0 && len <= harr.Length && lastPri < WORD
      && Ordered(base, harr[..len])
      && multiset(harr[..len]) == multiset(queue)
    }

    /** The numbers have gone up with every arrival: the counter has not come round while anything was queued. */
    ghost predicate Fifo()
      reads this
    {
      Numbered(queue, lastPri)
    }

    constructor (base: nat, capacity: nat)
      requires base > 0
      ensures Valid() && Fifo() && queue == [] && lastPri == 0 && harr.Length == capacity && fresh(harr)
    {
      this.base := base;
      harr := new Entry<T>[capacity];
      len, lastPri, queue := 0, 0, [];
    }

    method Swap(i: nat, j: nat, ghost n: nat)
      requires i < n && j < n && n <= harr.Length
      modifies harr
      ensures harr[..n] == Swapped(old(harr[..n]), i, j) && multiset(harr[..n]) == multiset(old(harr[..n]))
      ensures harr[n..] == old(harr[n..])
    {
      SwapKeeps(harr[..n], i, j);
      harr[i], harr[j] := harr[j], harr[i];
    }

    /** _raise_priority: move entry i up until its parent is not above it. */
    method Raise(i: nat)
      requires base > 0 && i < harr.Length && Rising(base, harr[..i + 1], i)
      modifies harr
      ensures Ordered(base, harr[..i + 1]) && multiset(harr[..i + 1]) == multiset(old(harr[..i + 1]))
    {
      ghost var n := i + 1;
      var child := i;
      var parent := Up(child);
      while child > 0 && harr[parent].pri > harr[child].pri
        invariant Rising(base, harr[..n], child)
        invariant child > 0 ==> parent == Parent(base, child) && parent < child
        invariant multiset(harr[..n]) == multiset(old(harr[..n]))
        invariant harr[n..] == old(harr[n..])
        decreases child
      {
        RiseStep(base, harr[..n], child);
        Swap(child, parent, n);
        child := parent;
        parent := Up(child);
      }
      RiseEnd(base, harr[..n], child);
    }

    method Up(child: nat) returns (parent: nat)
      requires base > 0
      ensures child > 0 ==> parent == Parent(base, child) && parent < child
    {
      if child > 0 { ParentIff(base, 0, child); }
      parent := if child == 0 then 0 else (child - 1) / base;
    }

    /** The least of entry i and its children. */
    method Highest(i: nat, n: nat) returns (highest: nat)
      requires base > 0 && i < n <= harr.Length
      ensures highest == i ==> forall c :: 0 < c < n && Parent(base, c) == i ==> harr[i].pri <= harr[c].pri
      ensures highest != i ==> LeastChild(base, harr[..n], i, highest)
    {
      var first := base * i + 1;
      highest := i;
      for c := first to first + base
        invariant highest == i || (first <= highest < c && highest < n && harr[highest].pri < harr[i].pri)
        invariant forall d :: first <= d < c && d < n ==> harr[highest].pri <= harr[d].pri
      {
        if c < n && harr[c].pri < harr[highest].pri {
          highest := c;
        }
      }
      forall c | 0 < c < n && Parent(base, c) == i ensures harr[highest].pri <= harr[c].pri { ParentIff(base, i, c); }
      if highest != i { ParentIff(base, i, highest); }
    }

    /** _heap_maxify: move entry i down until no child is below it. */
    method Sink(start: nat, n: nat)
      requires base > 0 && start < n <= harr.Length && Sinking(base, harr[..n], start)
      modifies harr
      ensures Ordered(base, harr[..n]) && multiset(harr[..n]) == multiset(old(harr[..n]))
      ensures harr[n..] == old(harr[n..])
    {
      var i: nat := start;
      var looping := true;
      while looping
        invariant i < n && Sinking(base, harr[..n], i)
        invariant !looping ==> Ordered(base, harr[..n])
        invariant multiset(harr[..n]) == multiset(old(harr[..n]))
        invariant harr[n..] == old(harr[n..])
        decreases looping, n - i
      {
        var highest := Highest(i, n);
        if i != highest {
          SinkStep(base, harr[..n], i, highest);
          ParentIff(base, i, highest);
          Swap(i, highest, n);
          i := highest;
        } else {
          SinkEnd(base, harr[..n], i);
          looping := false;
        }
      }
    }

    /** _insert_item: behind the last entry, and up from there. */
    method Append(entry: Entry<T>)
      requires base > 0 && len < harr.Length && Ordered(base, harr[..len])
      modifies this`len, harr
      ensures len == old(len) + 1 && Ordered(base, harr[..len])
      ensures multiset(harr[..len]) == multiset(old(harr[..len])) + multiset{entry}
    {
      ghost var h := harr[..len];
      harr[len] := entry;
      assert harr[..len + 1] == h + [entry];
      AppendRises(base, h, entry);
      Raise(len);
      len := len + 1;
    }

    /** dragon_priority_heap_insert_item: at the back of the queue, with the next 64-bit number. */
    method Insert(item: T) returns (status: Status)
      requires Valid()
      modifies this, harr
      ensures Valid() && status == if old(len) == harr.Length then Full else Success
      ensures status.Full? ==> queue == old(queue) && lastPri == old(lastPri)
      ensures status.Success? ==> lastPri == NextPri(old(lastPri)) && queue == old(queue) + [Entry(lastPri, item)]
      ensures status.Success? && old(Fifo()) ==> (Fifo() <==> old(lastPri) + 1 < WORD || old(queue) == [])
    {
      if len == harr.Length {
        return Full;
      }
      var entry := Entry(NextPri(lastPri), item);
      if Fifo() { StillFifo(queue, lastPri, entry); }
      Append(entry);
      lastPri := entry.pri;
      queue := queue + [entry];
      return Success;
    }

    /** dragon_priority_heap_pop_highest_priority on a heap that is not empty. */
    method Pop()
      requires base > 0 && 0 < len <= harr.Length && Ordered(base, harr[..len])
      modifies this`len, harr
      ensures len == old(len) - 1 && Ordered(base, harr[..len])
      ensures multiset(harr[..len]) == multiset(old(harr[..len])[1..])
    {
      ghost var h := harr[..len];
      len := len - 1;
      if len > 0 {
        Swap(0, len, len + 1);
        DropLast(base, h);
        assert harr[..len] == Swapped(h, 0, len)[..len];
        Sink(0, len);
      } else {
        assert h[1..] == [];
      }
    }

    /**
     dragon_priority_heap_extract_highest_priority: an entry with the least number, and that is the
     front of the queue as long as the numbers go up.
     */
    method Extract() returns (status: Status, item: T, pri: nat, ghost at: nat)
      requires Valid()
      modifies this, harr
      ensures Valid() && lastPri == old(lastPri) && status == if old(queue) == [] then Empty else Success
      ensures status.Empty? ==> queue == []
      ensures status.Success? ==> at < |old(queue)| && old(queue)[at] == Entry(pri, item)
                                  && queue == old(queue)[..at] + old(queue)[at + 1..]
                                  && forall i :: 0 <= i < |old(queue)| ==> pri <= old(queue)[i].pri
      ensures old(Fifo()) ==> Fifo() && (status.Success? ==> at == 0)
    {
      at := 0;
      assert |multiset(harr[..len])| == len && |multiset(queue)| == |queue|;
      if len == 0 {
        return Empty, *, 0, 0;
      }
      ghost var rest;
      at, rest := Front(base, harr[..len], queue, lastPri);
      pri, item := harr[0].pri, harr[0].item;
      Pop();
      queue := rest;
      status := Success;
    }

    /** With the counter at its end and something queued, the next insert overtakes it: its number is 0. */
    method WrapOvertakes(x: T, y: T) returns (item: T)
      requires Valid() && lastPri == WORD - 1 && queue == [Entry(WORD - 1, x)] && len < harr.Length
      modifies this, harr
      ensures Valid() && item == y && queue == [Entry(WORD - 1, x)]
    {
      var _ := Insert(y);
      ghost var both := queue;
      assert both == [Entry(WORD - 1, x), Entry(0, y)];
      var status, least, pri;
      ghost var at;
      status, least, pri, at := Extract();
      assert pri <= both[1].pri;
      item := least;
    }
  }

  lemma RiseEnd<T>(base: nat, h: seq<Entry<T>>, i: nat)
    requires base > 0 && Rising(base, h, i) && (i == 0 || Above(base, h, i))
    ensures Ordered(base, h)
  {
  }

  lemma SinkEnd<T>(base: nat, h: seq<Entry<T>>, i: nat)
    requires base > 0 && Sinking(base, h, i)
    requires forall c :: 0 < c < |h| && Parent(base, c) == i ==> h[i].pri <= h[c].pri
    ensures Ordered(base, h)
  {
  }

  lemma AppendRises<T>(base: nat, h: seq<Entry<T>>, e: Entry<T>)
    requires base > 0 && Ordered(base, h)
    ensures Rising(base, h + [e], |h|)
  {
    var h' := h + [e];
    forall c | 0 < c < |h'| ensures Parent(base, c) < c { ParentIff(base, 0, c); }
    forall c | 0 < c < |h'| && c != |h| ensures Above(base, h', c) { assert Above(base, h, c); }
  }

  /** With the last entry moved to the root and the root taken off, only the root is out of place. */
  lemma DropLast<T>(base: nat, h: seq<Entry<T>>)
    requires base > 0 && Ordered(base, h) && |h| > 1
    ensures Sinking(base, Swapped(h, 0, |h| - 1)[..|h| - 1], 0)
    ensures multiset(Swapped(h, 0, |h| - 1)[..|h| - 1]) == multiset(h[1..])
  {
    var n := |h| - 1;
    var h' := Swapped(h, 0, n)[..n];
    forall c | 0 < c < |h'| && Parent(base, c) != 0 ensures Above(base, h', c) {
      assert Above(base, h, c);
    }
    assert h' == [h[n]] + h[1..n] && h[1..] == h[1..n] + [h[n]];
  }

  lemma StillFifo<T>(q: seq<Entry<T>>, last: nat, e: Entry<T>)
    requires Numbered(q, last) && e.pri == NextPri(last) && last < WORD
    ensures Numbered(q + [e], e.pri) <==> last + 1 < WORD || q == []
  {
    var r := q + [e];
    assert forall i :: 0 <= i < |q| ==> r[i] == q[i];
    assert r[|q|] == e;
    if last + 1 == WORD && q != [] { assert !(r[0].pri < r[|q|].pri); }
  }

  lemma RestNumbered<T>(q: seq<Entry<T>>, last: nat)
    requires Numbered(q, last) && q != []
    ensures Numbered(q[..0] + q[1..], last)
  {
    assert q[..0] + q[1..] == q[1..];
  }

  /** What the root of a heap is to the queue, and what is left without it. */
  lemma Front<T>(base: nat, h: seq<Entry<T>>, q: seq<Entry<T>>, last: nat) returns (at: nat, rest: seq<Entry<T>>)
    requires base > 0 && Ordered(base, h) && multiset(h) == multiset(q) && h != []
    ensures at < |q| && h[0] == q[at] && (forall i :: 0 <= i < |q| ==> h[0].pri <= q[i].pri)
    ensures rest == q[..at] + q[at + 1..] && multiset(h[1..]) == multiset(rest)
    ensures Numbered(q, last) ==> at == 0 && Numbered(rest, last)
  {
    at := RootIsLeastOf(base, h, q);
    rest := q[..at] + q[at + 1..];
    OneGone(h, q, at);
    if Numbered(q, last) { RestNumbered(q, last); }
  }

  lemma OneGone<T>(h: seq<Entry<T>>, q: seq<Entry<T>>, at: nat)
    requires multiset(h) == multiset(q) && h != [] && at < |q| && h[0] == q[at]
    ensures multiset(h[1..]) == multiset(q[..at] + q[at + 1..])
  {
    assert h == [h[0]] + h[1..] && q == q[..at] + [q[at]] + q[at + 1..];
    assert multiset(h[1..]) == multiset(h) - multiset{h[0]};
    assert multiset(q[..at] + q[at + 1..]) == multiset(q) - multiset{q[at]};
  }
}
