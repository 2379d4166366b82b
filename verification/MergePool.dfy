/**
 The merge pool: a tree of processes that merges sorted sources into one sorted stream.

 A node keeps a priority queue with the head of each of its sources, puts out the least of them and
 refills from the source it came from. With more sources than the fan-in the node first cuts them
 into chunks and starts a pool on each. A source is the sequence of values it delivers before it is
 closed. The priority queue may hand out any of its least entries.
 */
module MergePool {
  import opened Counting

  ghost predicate Sorted(q: seq<int>) {
    forall i, j :: 0 <= i < j < |q| ==> q[i] <= q[j]
  }

  ghost predicate AllSorted(qs: seq<seq<int>>) {
    forall i :: 0 <= i < |qs| ==> Sorted(qs[i])
  }

  /** Everything the sources hold, with repetitions. */
  ghost function Union(qs: seq<seq<int>>): multiset<int> {
    if qs == [] then multiset{} else Union(qs[..|qs| - 1]) + multiset(qs[|qs| - 1])
  }

  lemma {:induction false} UnionUpdate(qs: seq<seq<int>>, i: nat, q: seq<int>, x: int)
    requires i < |qs| && qs[i] == [x] + q
    ensures Union(qs) == Union(qs[i := q]) + multiset{x}
  {
    var n := |qs| - 1;
    if i < n {
      UnionUpdate(qs[..n], i, q, x);
      assert qs[i := q][..n] == qs[..n][i := q];
    } else {
      assert qs[i := q][..n] == qs[..n];
      assert multiset(qs[i]) == multiset{x} + multiset(q);
    }
  }

  lemma {:induction false} UnionOrigin(qs: seq<seq<int>>, x: int) returns (i: nat)
    requires x in Union(qs)
    ensures i < |qs| && x in qs[i]
  {
    var n := |qs| - 1;
    if x in qs[n] { i := n; } else { i := UnionOrigin(qs[..n], x); }
  }

  lemma {:induction false} UnionAppend(ps: seq<seq<int>>, qs: seq<seq<int>>)
    ensures Union(ps + qs) == Union(ps) + Union(qs)
  {
    if qs == [] {
      assert ps + qs == ps;
    } else {
      var n := |qs| - 1;
      UnionAppend(ps, qs[..n]);
      var both := ps + qs;
      assert both[..|both| - 1] == ps + qs[..n] && both[|both| - 1] == qs[n];
      assert Union(both) == Union(ps + qs[..n]) + multiset(qs[n]);
    }
  }

  /** Nothing is left when every source is empty. */
  lemma {:induction false} UnionEmpty(qs: seq<seq<int>>)
    requires forall i :: 0 <= i < |qs| ==> qs[i] == []
    ensures Union(qs) == multiset{}
  {
    if qs != [] { UnionEmpty(qs[..|qs| - 1]); }
  }

  /** Nothing in q is above anything in m. */
  ghost predicate Below(q: seq<int>, m: multiset<int>) {
    forall i, x :: 0 <= i < |q| && x in m ==> q[i] <= x
  }

  /** The next value goes from what is to come to what has come. */
  lemma TakeInv(q: seq<int>, x: int, m: multiset<int>, m': multiset<int>)
    requires Sorted(q) && Below(q, m) && m == multiset{x} + m' && forall y :: y in m' ==> x <= y
    ensures Sorted(q + [x]) && Below(q + [x], m') && multiset(q + [x]) + m' == multiset(q) + m && |m'| == |m| - 1
  {
    assert multiset(q + [x]) == multiset(q) + multiset{x};
    assert x in m;
    assert forall y :: y in m' ==> y in m;
  }

  // ---------------------------------------------------------------------------------------
  // One node
  // ---------------------------------------------------------------------------------------

  /** The head of source i, if it has one, is on the heap and the rest still in the source. */
  ghost predicate Split(heap: map<int, int>, rest: seq<int>, left: seq<int>, i: int) {
    if left == [] then i !in heap && rest == [] else i in heap && heap[i] == left[0] && rest == left[1..]
  }

  /** The heap holds exactly the heads of the first n sources that are not exhausted, under their queue index. */
  ghost predicate Primed(heap: map<int, int>, rest: seq<seq<int>>, left: seq<seq<int>>, n: nat) {
    && |rest| == |left| && n <= |left|
    && (forall i :: i in heap ==> 0 <= i < n)
    && (forall i :: 0 <= i < n ==> Split(heap, rest[i], left[i], i))
    && (forall i :: n <= i < |left| ==> rest[i] == left[i])
  }

  /** _prime_heap: take the first value of every source that has one. */
  method PrimeHeap(sources: seq<seq<int>>) returns (heap: map<int, int>, rest: seq<seq<int>>)
    ensures Primed(heap, rest, sources, |sources|)
  {
    heap, rest := map[], sources;
    for i := 0 to |sources|
      invariant Primed(heap, rest, sources, i)
    {
      if rest[i] != [] {
        heap := heap[i := rest[i][0]];
        rest := rest[i := rest[i][1..]];
      }
    }
  }

  lemma {:induction false} LeastExists<T>(heap: map<T, int>) returns (i: T)
    requires heap != map[]
    ensures i in heap && forall j :: j in heap ==> heap[i] <= heap[j]
    decreases |heap|
  {
    assert heap.Keys != {};
    i :| i in heap.Keys;
    var rest := heap - {i};
    if rest != map[] {
      assert rest.Keys == heap.Keys - {i};
      var j := LeastExists(rest);
      assert forall k :: k in heap ==> k == i || (k in rest && rest[k] == heap[k]);
      if heap[j] <= heap[i] { i := j; }
    } else {
      assert forall k :: k in heap && k != i ==> k in rest;
    }
  }

  /** Take any least entry off the heap. */
  method Pop(heap: map<int, int>) returns (i: int, value: int, heap': map<int, int>)
    requires heap != map[]
    ensures i in heap && value == heap[i] && (forall j :: j in heap ==> value <= heap[j])
    ensures heap' == heap - {i}
  {
    ghost var least := LeastExists(heap);
    i :| i in heap && forall j :: j in heap ==> heap[i] <= heap[j];
    value, heap' := heap[i], heap - {i};
  }

  /** A least head is least of everything left. */
  lemma HeadIsLeast(left: seq<seq<int>>, i: nat, x: int)
    requires AllSorted(left) && i < |left| && left[i] != []
    requires forall j :: 0 <= j < |left| && left[j] != [] ==> left[i][0] <= left[j][0]
    requires x in Union(left)
    ensures left[i][0] <= x
  {
    var j := UnionOrigin(left, x);
    var k :| 0 <= k < |left[j]| && left[j][k] == x;
    assert k > 0 ==> left[j][0] <= left[j][k];
  }

  /** What is out is sorted and not above what is left, and nothing is lost. */
  ghost predicate Halfway(sources: seq<seq<int>>, left: seq<seq<int>>, out: seq<int>) {
    && |left| == |sources| && AllSorted(left)
    && multiset(out) + Union(left) == Union(sources)
    && Sorted(out) && Below(out, Union(left))
  }

  lemma MergeStep(sources: seq<seq<int>>, left: seq<seq<int>>, out: seq<int>, i: nat)
    requires Halfway(sources, left, out) && i < |left| && left[i] != []
    requires forall j :: 0 <= j < |left| && left[j] != [] ==> left[i][0] <= left[j][0]
    ensures Halfway(sources, left[i := left[i][1..]], out + [left[i][0]])
    ensures |Union(left[i := left[i][1..]])| < |Union(left)|
  {
    var value, left' := left[i][0], left[i := left[i][1..]];
    assert left[i] == [value] + left[i][1..];
    UnionUpdate(left, i, left[i][1..], value);
    forall x | x in Union(left) ensures value <= x { HeadIsLeast(left, i, x); }
    forall j | 0 <= j < |left'| ensures Sorted(left'[j]) { assert Sorted(left[j]); }
    var m, m' := Union(left), Union(left');
    assert m == multiset{value} + m';
    assert forall y :: y in m' ==> y in m;
    TakeInv(out, value, m, m');
  }

  /** Get the next value of source i, if it has one, and push it. */
  method Refill(heap: map<int, int>, rest: seq<seq<int>>, i: int, ghost left: seq<seq<int>>)
    returns (heap': map<int, int>, rest': seq<seq<int>>)
    requires 0 <= i < |left| && left[i] != [] && Primed(heap[i := left[i][0]], rest, left, |left|) && i !in heap
    ensures Primed(heap', rest', left[i := left[i][1..]], |left|)
  {
    heap', rest' := heap, rest;
    if rest[i] != [] {
      heap' := heap[i := rest[i][0]];
      rest' := rest[i := rest[i][1..]];
    }
    assert Split(heap[i := left[i][0]], rest[i], left[i], i);
    assert forall j :: j in heap ==> j in heap[i := left[i][0]];
    forall j | 0 <= j < |left| && j != i ensures Split(heap', rest'[j], left[j], j) {
      assert Split(heap[i := left[i][0]], rest[j], left[j], j);
    }
  }

  /** The entry on top of the heap is the least head. */
  lemma TopIsLeast(heap: map<int, int>, rest: seq<seq<int>>, left: seq<seq<int>>, i: int)
    requires Primed(heap, rest, left, |left|) && i in heap && forall j :: j in heap ==> heap[i] <= heap[j]
    ensures 0 <= i < |left| && left[i] != [] && heap[i] == left[i][0]
    ensures forall j :: 0 <= j < |left| && left[j] != [] ==> left[i][0] <= left[j][0]
    ensures (heap - {i})[i := left[i][0]] == heap
  {
    assert Split(heap, rest[i], left[i], i);
    forall j | 0 <= j < |left| && left[j] != [] ensures left[i][0] <= left[j][0] {
      assert Split(heap, rest[j], left[j], j);
    }
  }

  lemma AllOut(rest: seq<seq<int>>, left: seq<seq<int>>)
    requires Primed(map[], rest, left, |left|)
    ensures Union(left) == multiset{}
  {
    forall i | 0 <= i < |left| ensures left[i] == [] { assert Split(map[], rest[i], left[i], i); }
    UnionEmpty(left);
  }

  /** _merge: a sorted rearrangement of everything in the sources; the heap never holds more than one entry a source. */
  method Merge(sources: seq<seq<int>>) returns (out: seq<int>)
    requires AllSorted(sources)
    ensures Sorted(out) && multiset(out) == Union(sources)
  {
    var heap, rest := PrimeHeap(sources);
    ghost var left := sources;
    out := [];
    while heap != map[]
      invariant Halfway(sources, left, out) && Primed(heap, rest, left, |left|)
      decreases |Union(left)|
    {
      var i, value, popped := Pop(heap);
      TopIsLeast(heap, rest, left, i);
      MergeStep(sources, left, out, i);
      out := out + [value];
      heap, rest := Refill(popped, rest, i, left);
      left := left[i := left[i][1..]];
    }
    AllOut(rest, left);
  }

  // ---------------------------------------------------------------------------------------
  // The tree
  // ---------------------------------------------------------------------------------------

  function Least(a: nat, b: nat): nat {
    if a < b then a else b
  }

  /** How many chunks of the given size n sources make: range(0, n, size). */
  function Chunks(n: nat, size: nat): nat
    requires size > 0
  {
    (n + size - 1) / size
  }

  lemma SizeBounds(n: nat, fanin: nat)
    requires 1 <= fanin < n
    ensures var size := n / fanin; size > 0 && fanin * size <= n < fanin * size + fanin
  {
    MulAtLeast(n + 1, fanin);
    assert (n + 1) * fanin >= n + 1;
    DivBetween(n, fanin, 1, n + 1);
  }

  lemma ProductBound(size: nat, fanin: nat)
    requires size >= 1 && fanin >= 1
    ensures fanin + size - 1 <= fanin * size
  {
    assert (size - 1) * (fanin - 1) == fanin * size - size - fanin + 1;
    assert (size - 1) * (fanin - 1) >= 0;
  }

  /** A node whose sources are more than its fan-in starts at most 2 * fan-in - 1 pools, and so many it can be. */
  lemma ChunksBound(n: nat, fanin: nat)
    requires 1 <= fanin < n
    ensures n / fanin > 0 && fanin <= Chunks(n, n / fanin) <= 2 * fanin - 1
    ensures Chunks(2 * fanin - 1, (2 * fanin - 1) / fanin) == 2 * fanin - 1
  {
    SizeBounds(n, fanin);
    var size := n / fanin;
    ProductBound(size, fanin);
    assert (2 * fanin) * size == 2 * (fanin * size);
    DivBetween(n + size - 1, size, fanin, 2 * fanin);
    DivBetween(2 * fanin - 1, fanin, 1, 2);
  }

  /** The node keeps to its fan-in exactly when that divides the number of sources. */
  lemma ChunksExact(n: nat, fanin: nat)
    requires 1 <= fanin < n
    ensures n / fanin > 0 && (Chunks(n, n / fanin) == fanin <==> n % fanin == 0)
  {
    SizeBounds(n, fanin);
    var size := n / fanin;
    assert n == fanin * size + n % fanin;
    if n % fanin == 0 {
      PoolsAreChunks(fanin, n, size);
    } else {
      ProductBound(size, fanin);
      assert (2 * fanin) * size == 2 * (fanin * size) && (fanin + 1) * size == fanin * size + size;
      DivBetween(n + size - 1, size, fanin + 1, 2 * fanin);
    }
  }

  /**
   With two or more the chunks are shorter than the whole, so the tree ends; with a fan-in of one the
   one chunk is the whole.
   */
  lemma ChunkShrinks(n: nat, fanin: nat)
    requires 1 <= fanin < n
    ensures n / fanin < n <==> fanin >= 2
    ensures fanin == 1 ==> n / fanin == n && Chunks(n, n / fanin) == 1
  {
    if fanin >= 2 {
      assert n * fanin == n * (fanin - 1) + n;
      MulAtLeast(n, fanin - 1);
      DivBetween(n, fanin, 0, n);
    } else {
      DivBetween(n + n - 1, n, 1, 2);
    }
  }

  /** The loop over the chunks goes round as often as there are chunks. */
  lemma PoolsAreChunks(k: nat, n: nat, size: nat)
    requires size > 0 && n <= k * size < n + size
    ensures k == Chunks(n, size)
  {
    assert (k + 1) * size == k * size + size;
    DivBetween(n + size - 1, size, k, k + 1);
  }

  lemma ChunksNext(n: nat, size: nat)
    requires size > 0 && n > 0
    ensures Chunks(n, size) == 1 + Chunks(n - Least(size, n), size)
  {
    var k := Chunks(n - Least(size, n), size);
    assert k * size == size * k;
    assert (k + 1) * size == k * size + size;
    if n <= size { DivBetween(size - 1, size, 0, 1); }
    PoolsAreChunks(k + 1, n, size);
  }

  /** How often the loop over the chunks goes round. */
  function ChunkCount(n: nat, size: nat): nat
    requires size > 0
  {
    if n == 0 then 0 else 1 + ChunkCount(n - Least(size, n), size)
  }

  lemma {:induction false} CountIsChunks(n: nat, size: nat)
    requires size > 0
    ensures ChunkCount(n, size) == Chunks(n, size)
  {
    if n == 0 {
      PoolsAreChunks(0, 0, size);
    } else {
      CountIsChunks(n - Least(size, n), size);
      ChunksNext(n, size);
    }
  }

  lemma ChunkStep(n: nat, i: nat, size: nat)
    requires i < n && size > 0
    ensures ChunkCount(n - Least(i, n), size) == 1 + ChunkCount(n - Least(i + size, n), size)
  {
    assert n - i - Least(size, n - i) == n - Least(i + size, n);
  }

  lemma SliceSorted(qs: seq<seq<int>>, i: nat, j: nat)
    requires AllSorted(qs) && i <= j <= |qs|
    ensures AllSorted(qs[i..j])
  {
  }

  lemma MoreSorted(qs: seq<seq<int>>, q: seq<int>)
    requires AllSorted(qs) && Sorted(q)
    ensures AllSorted(qs + [q])
  {
  }

  /** One pool for every chunk of the first i sources. */
  ghost predicate Pooled(sources: seq<seq<int>>, size: nat, pools: seq<seq<int>>, i: nat)
    requires size > 0
  {
    var n := |sources|;
    && AllSorted(pools) && Union(pools) == Union(sources[..Least(i, n)])
    && |pools| + ChunkCount(n - Least(i, n), size) == ChunkCount(n, size)
  }

  lemma PoolUnion(sources: seq<seq<int>>, pools: seq<seq<int>>, i: nat, end: nat, merged: seq<int>)
    requires i <= end <= |sources| && Union(pools) == Union(sources[..i]) && multiset(merged) == Union(sources[i..end])
    ensures Union(pools + [merged]) == Union(sources[..end])
  {
    UnionAppend(sources[..i], sources[i..end]);
    assert sources[..end] == sources[..i] + sources[i..end];
    assert (pools + [merged])[..|pools|] == pools;
  }

  lemma PoolAdded(sources: seq<seq<int>>, size: nat, pools: seq<seq<int>>, i: nat, merged: seq<int>)
    requires size > 0 && i < |sources| && Pooled(sources, size, pools, i)
    requires Sorted(merged) && multiset(merged) == Union(sources[i..Least(i + size, |sources|)])
    ensures Pooled(sources, size, pools + [merged], i + size)
  {
    PoolUnion(sources, pools, i, Least(i + size, |sources|), merged);
    ChunkStep(|sources|, i, size);
    MoreSorted(pools, merged);
  }

  /** The chunk size is positive and shorter than the whole, and makes at most 2 * fan-in - 1 chunks. */
  lemma SizeOk(n: nat, fanin: nat)
    requires 2 <= fanin < n
    ensures 0 < n / fanin < n && ChunkCount(n, n / fanin) <= 2 * fanin - 1
  {
    ChunkShrinks(n, fanin);
    ChunksBound(n, fanin);
    CountIsChunks(n, n / fanin);
  }

  /** MergePool.start: the merged stream, and the largest number of sources any node of the tree merges. */
  method Start(sources: seq<seq<int>>, fanin: nat) returns (out: seq<int>, widest: nat)
    requires AllSorted(sources) && fanin >= 2
    ensures Sorted(out) && multiset(out) == Union(sources)
    ensures widest <= 2 * fanin - 1
    decreases |sources|, 1
  {
    var n := |sources|;
    if n > fanin {
      SizeOk(n, fanin);
      var pools;
      pools, widest := StartChunks(sources, n / fanin, fanin);
      widest := if |pools| > widest then |pools| else widest;
      out := Merge(pools);
    } else {
      out := Merge(sources);
      widest := n;
    }
  }

  /** One pool a chunk. */
  method StartChunks(sources: seq<seq<int>>, size: nat, fanin: nat) returns (pools: seq<seq<int>>, widest: nat)
    requires AllSorted(sources) && fanin >= 2 && 0 < size < |sources|
    ensures AllSorted(pools) && Union(pools) == Union(sources) && |pools| == ChunkCount(|sources|, size)
    ensures widest <= 2 * fanin - 1
    decreases |sources|, 0
  {
    var n := |sources|;
    pools, widest := [], 0;
    var i := 0;
    assert sources[..0] == [];
    while i < n
      invariant 0 <= i && Pooled(sources, size, pools, i) && widest <= 2 * fanin - 1
    {
      var end := Least(i + size, n);
      SliceSorted(sources, i, end);
      var merged, w := Start(sources[i..end], fanin);
      PoolAdded(sources, size, pools, i, merged);
      pools := pools + [merged];
      widest := if w > widest then w else widest;
      i := i + size;
    }
    assert sources[..n] == sources;
  }
}
