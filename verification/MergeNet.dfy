/**
 The merge pool as a network: sources and merging processes that run at the same time and talk
 through bounded queues, their steps taken in any order.

 A process owns the queue it puts to. A merging process has at most one entry of each of its
 sources on its priority queue, kept here under the source's index, and a list of the sources
 from which it has to get a value before it may pop: all of them to begin with, and then the one
 whose entry it popped last.
 */
module MergeNet {
  import opened Counting
  import opened MergePool

  datatype Node =
    | Source(left: seq<int>, out: seq<int>, closed: bool)
    | Merger(kids: seq<Node>, heap: seq<Option<int>>, want: seq<nat>, out: seq<int>, closed: bool)

  // ---------------------------------------------------------------------------------------
  // Steps
  // ---------------------------------------------------------------------------------------

  /** The process that reads the queue takes its first value. */
  function Shifted(t: Node): Node
    requires t.out != []
  {
    t.(out := t.out[1..])
  }

  ghost predicate SourcePut(t: Node, t': Node, depth: nat) {
    && t.Source? && t.left != [] && |t.out| < depth
    && t' == Source(t.left[1..], t.out + [t.left[0]], t.closed)
  }

  ghost predicate SourceClose(t: Node, t': Node, depth: nat) {
    t.Source? && t.left == [] && !t.closed && |t.out| < depth && t' == Source(t.left, t.out, true)
  }

  /** The next source it waits for has a value. */
  ghost predicate Fetch(t: Node, t': Node) {
    && t.Merger? && t.want != []
    && var j := t.want[0];
    && j < |t.kids| && j < |t.heap| && t.kids[j].out != []
    && t' == t.(kids := t.kids[j := Shifted(t.kids[j])], heap := t.heap[j := Some(t.kids[j].out[0])],
                want := t.want[1..])
  }

  /** The next source it waits for is at its end. */
  ghost predicate FetchEnd(t: Node, t': Node) {
    && t.Merger? && t.want != []
    && var j := t.want[0];
    && j < |t.kids| && t.kids[j].out == [] && t.kids[j].closed
    && t' == t.(want := t.want[1..])
  }

  /** Entry j is a least one on the priority queue. */
  ghost predicate Top(heap: seq<Option<int>>, j: nat) {
    j < |heap| && heap[j].Some? && forall i :: 0 <= i < |heap| && heap[i].Some? ==> heap[j].value <= heap[i].value
  }

  ghost predicate PopAt(t: Node, t': Node, depth: nat, j: nat) {
    && t.Merger? && t.want == [] && Top(t.heap, j) && |t.out| < depth
    && t' == t.(heap := t.heap[j := None], out := t.out + [t.heap[j].value], want := [j])
  }

  ghost predicate Close(t: Node, t': Node, depth: nat) {
    && t.Merger? && t.want == [] && (forall i :: 0 <= i < |t.heap| ==> t.heap[i].None?) && !t.closed && |t.out| < depth
    && t' == t.(closed := true)
  }

  ghost predicate Local(t: Node, t': Node, depth: nat) {
    || SourcePut(t, t', depth) || SourceClose(t, t', depth) || Fetch(t, t') || FetchEnd(t, t')
    || (exists j: nat :: PopAt(t, t', depth, j)) || Close(t, t', depth)
  }

  ghost predicate KidStep(t: Node, t': Node, depth: nat, j: nat, k: Node)
    decreases t, 0
  {
    t.Merger? && j < |t.kids| && Step(t.kids[j], k, depth) && t' == t.(kids := t.kids[j := k])
  }

  /** Somebody in the tree takes a step. */
  ghost predicate Step(t: Node, t': Node, depth: nat)
    decreases t, 1
  {
    Local(t, t', depth) || exists j: nat, k: Node :: KidStep(t, t', depth, j, k)
  }

  // ---------------------------------------------------------------------------------------
  // What is still to come
  // ---------------------------------------------------------------------------------------

  ghost function Sum(ms: seq<multiset<int>>): multiset<int> {
    if ms == [] then multiset{} else Sum(ms[..|ms| - 1]) + ms[|ms| - 1]
  }

  lemma {:induction false} SumUpdate(ms: seq<multiset<int>>, j: nat, m: multiset<int>)
    requires j < |ms|
    ensures Sum(ms[j := m]) + ms[j] == Sum(ms) + m
  {
    var n := |ms| - 1;
    var ms' := ms[j := m];
    if j < n {
      SumUpdate(ms[..n], j, m);
      assert ms'[..n] == ms[..n][j := m];
      var before, after := Sum(ms[..n]), Sum(ms'[..n]);
      assert after + ms[j] == before + m;
      assert Sum(ms') + ms[j] == (after + ms[j]) + ms[n];
    } else {
      assert ms'[..n] == ms[..n];
    }
  }

  lemma {:induction false} SumOrigin(ms: seq<multiset<int>>, x: int) returns (j: nat)
    requires x in Sum(ms)
    ensures j < |ms| && x in ms[j]
  {
    var n := |ms| - 1;
    if x in ms[n] { j := n; } else { j := SumOrigin(ms[..n], x); }
  }

  /** Everything a reader of the queue has still to get. */
  ghost function Coming(t: Node): multiset<int>
    decreases t, 2
  {
    multiset(t.out) + Rest(t)
  }

  /** Everything the process has still to put. */
  ghost function Rest(t: Node): multiset<int>
    decreases t, 1
  {
    if t.Source? then multiset(t.left) else Sum(Shares(t))
  }

  function Bag(h: Option<int>): multiset<int> {
    if h.Some? then multiset{h.value} else multiset{}
  }

  /** For each of its sources, the entry on the priority queue and what the source has still to deliver. */
  ghost function Shares(t: Node): seq<multiset<int>>
    requires t.Merger?
    decreases t, 0
  {
    seq(|t.kids|, i requires 0 <= i < |t.kids| => ShareOf(t.kids[i], if i < |t.heap| then t.heap[i] else None))
  }

  ghost function ShareOf(k: Node, h: Option<int>): multiset<int>
    decreases k, 3
  {
    Bag(h) + Coming(k)
  }

  // ---------------------------------------------------------------------------------------
  // Invariant
  // ---------------------------------------------------------------------------------------

  /** An entry on the priority queue is not above what its source has still to deliver. */
  ghost predicate Leads(h: Option<int>, k: Node) {
    h.Some? ==> forall x :: x in Coming(k) ==> h.value <= x
  }

  /** The priority queue, the list of sources to get from, and the sources agree. */
  ghost predicate Wired(t: Node)
    requires t.Merger?
  {
    && |t.heap| == |t.kids| && Distinct(t.want)
    && (forall i :: 0 <= i < |t.want| ==> t.want[i] < |t.kids| && t.heap[t.want[i]].None?)
    && (forall j :: 0 <= j < |t.kids| ==> Leads(t.heap[j], t.kids[j]))
    && (forall j :: 0 <= j < |t.kids| && t.heap[j].None? && j !in t.want ==> Coming(t.kids[j]) == multiset{})
  }

  /** The queue is sorted and not above what is to follow, and it is closed only after everything is out. */
  ghost predicate Ordered(t: Node) {
    Sorted(t.out) && Below(t.out, Rest(t)) && (t.closed ==> Rest(t) == multiset{})
  }

  ghost predicate Tidy(t: Node)
    decreases t
  {
    && Ordered(t)
    && (t.Source? ==> Sorted(t.left))
    && (t.Merger? ==> Wired(t) && forall j :: 0 <= j < |t.kids| ==> Tidy(t.kids[j]))
  }

  lemma {:induction false} SumEmpty(ms: seq<multiset<int>>)
    requires forall j :: 0 <= j < |ms| ==> ms[j] == multiset{}
    ensures Sum(ms) == multiset{}
  {
    if ms != [] { SumEmpty(ms[..|ms| - 1]); }
  }

  // ---------------------------------------------------------------------------------------
  // Every step keeps the invariant and what is to come
  // ---------------------------------------------------------------------------------------

  /** What a step of one process leaves as it was, for the process that reads its queue. */
  ghost predicate Kept(t: Node, t': Node) {
    Tidy(t') && Coming(t') == Coming(t)
  }

  lemma SourceKept(t: Node, t': Node, depth: nat)
    requires Tidy(t) && (SourcePut(t, t', depth) || SourceClose(t, t', depth))
    ensures Kept(t, t')
  {
    if SourcePut(t, t', depth) { PutSorted(t.out, t.left); }
  }

  /** The first of a sorted rest moves to the end of a sorted queue that is not above the rest. */
  lemma PutSorted(out: seq<int>, left: seq<int>)
    requires Sorted(out) && Sorted(left) && Below(out, multiset(left)) && left != []
    ensures Sorted(out + [left[0]]) && Sorted(left[1..]) && Below(out + [left[0]], multiset(left[1..]))
    ensures multiset(out + [left[0]]) + multiset(left[1..]) == multiset(out) + multiset(left)
  {
    var x, rest := left[0], left[1..];
    FirstLeast(left);
    assert x in multiset(left);
    assert multiset(out + [x]) == multiset(out) + multiset{x};
    assert forall y :: y in multiset(rest) ==> y in multiset(left);
  }

  /** Nothing in a sorted sequence is below its first element. */
  lemma FirstLeast(q: seq<int>)
    requires Sorted(q) && q != []
    ensures multiset(q) == multiset{q[0]} + multiset(q[1..])
    ensures forall x :: x in multiset(q) ==> q[0] <= x
  {
    assert q == [q[0]] + q[1..];
    forall x | x in multiset(q) ensures q[0] <= x {
      var i :| 0 <= i < |q| && q[i] == x;
    }
  }

  /** A node whose source j and entry j change. */
  ghost predicate Differs(t: Node, t': Node, j: nat) {
    && t.Merger? && t'.Merger? && j < |t.kids| == |t.heap| && |t'.kids| == |t'.heap| == |t.kids|
    && t'.kids == t.kids[j := t'.kids[j]] && t'.heap == t.heap[j := t'.heap[j]]
  }

  lemma SharesUpdate(t: Node, t': Node, j: nat)
    requires Differs(t, t', j)
    ensures Shares(t') == Shares(t)[j := ShareOf(t'.kids[j], t'.heap[j])]
  {
    forall i | 0 <= i < |t.kids| ensures Shares(t')[i] == Shares(t)[j := ShareOf(t'.kids[j], t'.heap[j])][i] {
      if i != j { assert t'.kids[i] == t.kids[i] && t'.heap[i] == t.heap[i]; }
    }
  }

  lemma RestUpdate(t: Node, t': Node, j: nat)
    requires Differs(t, t', j)
    ensures Rest(t') + ShareOf(t.kids[j], t.heap[j]) == Rest(t) + ShareOf(t'.kids[j], t'.heap[j])
  {
    SharesUpdate(t, t', j);
    SumUpdate(Shares(t), j, ShareOf(t'.kids[j], t'.heap[j]));
    assert Shares(t)[j] == ShareOf(t.kids[j], t.heap[j]);
  }

  /** Taking the first value off a tidy queue: it is not above anything that follows. */
  lemma ShiftedTidy(k: Node)
    requires Tidy(k) && k.out != []
    ensures Tidy(Shifted(k)) && Coming(k) == multiset{k.out[0]} + Coming(Shifted(k))
    ensures Leads(Some(k.out[0]), Shifted(k))
  {
    ShiftedOrdered(k);
    if k.Merger? { ShiftedWired(k); }
  }

  lemma ShiftedOrdered(k: Node)
    requires Ordered(k) && k.out != []
    ensures Ordered(Shifted(k)) && Coming(k) == multiset{k.out[0]} + Coming(Shifted(k))
    ensures Leads(Some(k.out[0]), Shifted(k))
  {
    ShiftedRest(k);
    QueueShift(k.out, Rest(k));
  }

  lemma QueueShift(out: seq<int>, rest: multiset<int>)
    requires Sorted(out) && Below(out, rest) && out != []
    ensures Sorted(out[1..]) && Below(out[1..], rest)
    ensures multiset(out) + rest == multiset{out[0]} + (multiset(out[1..]) + rest)
    ensures forall x :: x in multiset(out[1..]) + rest ==> out[0] <= x
  {
    FirstLeast(out);
    assert forall x :: x in multiset(out[1..]) ==> x in multiset(out);
  }

  lemma ShiftedWired(k: Node)
    requires k.Merger? && Wired(k) && k.out != []
    ensures Wired(Shifted(k))
  {
    var k' := Shifted(k);
    forall i | 0 <= i < |k'.kids| ensures Leads(k'.heap[i], k'.kids[i]) { assert Leads(k.heap[i], k.kids[i]); }
  }

  lemma ShiftedRest(k: Node)
    requires k.out != []
    ensures Rest(Shifted(k)) == Rest(k)
  {
    if k.Merger? { assert Shares(Shifted(k)) == Shares(k); }
  }

  lemma FetchRest(t: Node, t': Node)
    requires t.Merger? && |t.heap| == |t.kids| && Fetch(t, t') && t.heap[t.want[0]].None? && Tidy(t.kids[t.want[0]])
    ensures Rest(t') == Rest(t)
  {
    var j := t.want[0];
    ShiftedTidy(t.kids[j]);
    RestUpdate(t, t', j);
    var m := ShareOf(t.kids[j], t.heap[j]);
    assert ShareOf(t'.kids[j], t'.heap[j]) == m;
    BagCancel(Rest(t'), Rest(t), m);
  }

  lemma FetchWired(t: Node, t': Node)
    requires t.Merger? && Wired(t) && Fetch(t, t') && Tidy(t.kids[t.want[0]])
    ensures Wired(t') && Tidy(t'.kids[t.want[0]])
  {
    var j := t.want[0];
    ShiftedTidy(t.kids[j]);
    assert forall i :: 0 <= i < |t'.want| ==> t'.want[i] == t.want[i + 1];
    forall i | 0 <= i < |t'.kids| && t'.heap[i].None? && i !in t'.want ensures Coming(t'.kids[i]) == multiset{} {
      assert i != j && i !in t.want;
    }
    forall i | 0 <= i < |t'.kids| ensures Leads(t'.heap[i], t'.kids[i]) {
      if i != j { assert Leads(t.heap[i], t.kids[i]); }
    }
  }

  lemma FetchKept(t: Node, t': Node)
    requires Tidy(t) && Fetch(t, t')
    ensures Kept(t, t')
  {
    var j := t.want[0];
    assert t.heap[j].None? && Tidy(t.kids[j]);
    FetchRest(t, t');
    FetchWired(t, t');
    forall i | 0 <= i < |t'.kids| ensures Tidy(t'.kids[i]) {
      if i != j { assert Tidy(t.kids[i]); }
    }
  }

  lemma FetchEndKept(t: Node, t': Node)
    requires Tidy(t) && FetchEnd(t, t')
    ensures Kept(t, t')
  {
    var j := t.want[0];
    assert Tidy(t.kids[j]) && Coming(t.kids[j]) == multiset{};
    assert Shares(t') == Shares(t);
    assert forall i :: 0 <= i < |t'.want| ==> t'.want[i] == t.want[i + 1];
    forall i | 0 <= i < |t'.kids| && t'.heap[i].None? && i !in t'.want ensures Coming(t'.kids[i]) == multiset{} {
      assert i != j ==> i !in t.want;
    }
  }

  /** A least entry is least of everything that is still to come. */
  lemma TopIsLeastOfRest(t: Node, j: nat, x: int)
    requires t.Merger? && Wired(t) && t.want == [] && Top(t.heap, j) && x in Rest(t)
    ensures t.heap[j].value <= x
  {
    var i := SumOrigin(Shares(t), x);
    assert x in ShareOf(t.kids[i], t.heap[i]);
    assert Leads(t.heap[i], t.kids[i]);
    assert i !in t.want;
  }

  lemma PopRest(t: Node, t': Node, depth: nat, j: nat)
    requires t.Merger? && |t.heap| == |t.kids| && PopAt(t, t', depth, j)
    ensures Rest(t) == Rest(t') + multiset{t.heap[j].value}
  {
    RestUpdate(t, t', j);
    var m := Coming(t.kids[j]);
    assert ShareOf(t.kids[j], t.heap[j]) == multiset{t.heap[j].value} + m;
    assert ShareOf(t'.kids[j], t'.heap[j]) == m;
    assert Rest(t') + multiset{t.heap[j].value} + m == Rest(t) + m;
    BagCancel(Rest(t') + multiset{t.heap[j].value}, Rest(t), m);
  }

  lemma BagCancel(a: multiset<int>, b: multiset<int>, m: multiset<int>)
    requires a + m == b + m
    ensures a == b
  {
    assert a == (a + m) - m && b == (b + m) - m;
  }

  lemma PopOrdered(t: Node, t': Node, depth: nat, j: nat)
    requires t.Merger? && Wired(t) && Ordered(t) && PopAt(t, t', depth, j)
    ensures Ordered(t') && Coming(t') == Coming(t)
  {
    var v := t.heap[j].value;
    PopRest(t, t', depth, j);
    forall x | x in Rest(t) ensures v <= x { TopIsLeastOfRest(t, j, x); }
    assert multiset(t'.out) == multiset(t.out) + multiset{v};
    assert v in Rest(t);
    assert forall x :: x in Rest(t') ==> x in Rest(t);
    assert forall i :: 0 <= i < |t.out| ==> t'.out[i] == t.out[i];
  }

  lemma PopKept(t: Node, t': Node, depth: nat, j: nat)
    requires Tidy(t) && PopAt(t, t', depth, j)
    ensures Kept(t, t')
  {
    PopOrdered(t, t', depth, j);
    forall i | 0 <= i < |t'.kids| ensures Leads(t'.heap[i], t'.kids[i]) && Tidy(t'.kids[i]) {
      assert Leads(t.heap[i], t.kids[i]) && Tidy(t.kids[i]);
    }
    assert Wired(t');
  }

  lemma CloseKept(t: Node, t': Node, depth: nat)
    requires Tidy(t) && Close(t, t', depth)
    ensures Kept(t, t')
  {
    assert Shares(t') == Shares(t);
    AllEmpty(t);
  }

  /** With nothing on the priority queue and nobody to get from, every source is at its end. */
  lemma AllEmpty(t: Node)
    requires t.Merger? && Wired(t) && t.want == [] && forall i :: 0 <= i < |t.heap| ==> t.heap[i].None?
    ensures Rest(t) == multiset{}
  {
    forall j | 0 <= j < |t.kids| ensures Shares(t)[j] == multiset{} { assert t.heap[j].None? && j !in t.want; }
    SumEmpty(Shares(t));
  }

  lemma KidRest(t: Node, t': Node, j: nat, k: Node)
    requires t.Merger? && |t.heap| == |t.kids| && j < |t.kids| && t' == t.(kids := t.kids[j := k])
    requires Coming(k) == Coming(t.kids[j])
    ensures Rest(t') == Rest(t)
  {
    SharesUpdate(t, t', j);
    assert ShareOf(k, t.heap[j]) == ShareOf(t.kids[j], t.heap[j]) == Shares(t)[j];
    assert Shares(t') == Shares(t);
  }

  lemma KidWired(t: Node, t': Node, j: nat, k: Node)
    requires t.Merger? && Wired(t) && j < |t.kids| && t' == t.(kids := t.kids[j := k]) && Coming(k) == Coming(t.kids[j])
    ensures Wired(t')
  {
    forall i | 0 <= i < |t'.kids| ensures Leads(t'.heap[i], t'.kids[i]) {
      assert Leads(t.heap[i], t.kids[i]);
    }
  }

  lemma KidKept(t: Node, t': Node, j: nat, k: Node)
    requires t.Merger? && Tidy(t) && j < |t.kids| && t' == t.(kids := t.kids[j := k]) && Kept(t.kids[j], k)
    ensures Kept(t, t')
  {
    KidRest(t, t', j, k);
    KidWired(t, t', j, k);
    forall i | 0 <= i < |t'.kids| ensures Tidy(t'.kids[i]) {
      if i != j { assert Tidy(t.kids[i]); }
    }
  }

  /** Whoever in the tree takes a step, every process stays tidy and every reader has the same to come. */
  lemma {:induction false} StepKept(t: Node, t': Node, depth: nat)
    requires Tidy(t) && Step(t, t', depth)
    ensures Kept(t, t')
    decreases t
  {
    if SourcePut(t, t', depth) || SourceClose(t, t', depth) {
      SourceKept(t, t', depth);
    } else if Fetch(t, t') {
      FetchKept(t, t');
    } else if FetchEnd(t, t') {
      FetchEndKept(t, t');
    } else if j: nat :| PopAt(t, t', depth, j) {
      PopKept(t, t', depth, j);
    } else if Close(t, t', depth) {
      CloseKept(t, t', depth);
    } else {
      var j: nat, k: Node :| KidStep(t, t', depth, j, k);
      StepKept(t.kids[j], k, depth);
      KidKept(t, t', j, k);
    }
  }

  // ---------------------------------------------------------------------------------------
  // No lock-up
  // ---------------------------------------------------------------------------------------

  lemma {:induction false} TopExists(heap: seq<Option<int>>) returns (j: nat)
    requires exists i :: 0 <= i < |heap| && heap[i].Some?
    ensures Top(heap, j)
  {
    var n := |heap| - 1;
    if i :| 0 <= i < n && heap[i].Some? {
      assert heap[..n][i].Some?;
      j := TopExists(heap[..n]);
      assert forall k :: 0 <= k < n ==> heap[..n][k] == heap[k];
      if heap[n].Some? && heap[n].value < heap[j].value { j := n; }
    } else {
      j := n;
    }
  }

  /** A process that is not through is held up only by a full queue, or somebody in its tree can go on. */
  lemma {:induction false} CanGo(t: Node, depth: nat)
    requires Tidy(t) && !t.closed && |t.out| < depth
    ensures exists t' :: Step(t, t', depth)
    decreases t
  {
    if t.Source? {
      var t' := if t.left == [] then Source(t.left, t.out, true)
                else Source(t.left[1..], t.out + [t.left[0]], t.closed);
      assert Local(t, t', depth);
      assert Step(t, t', depth);
    } else if t.want != [] {
      WantCanGo(t, depth);
    } else {
      TopCanGo(t, depth);
    }
  }

  lemma TopCanGo(t: Node, depth: nat)
    requires t.Merger? && t.want == [] && !t.closed && |t.out| < depth
    ensures exists t' :: Step(t, t', depth)
  {
    if exists i :: 0 <= i < |t.heap| && t.heap[i].Some? {
      var j := TopExists(t.heap);
      var t' := t.(heap := t.heap[j := None], out := t.out + [t.heap[j].value], want := [j]);
      assert PopAt(t, t', depth, j);
      assert Step(t, t', depth);
    } else {
      var t' := Merger(t.kids, t.heap, t.want, t.out, true);
      assert Close(t, t', depth);
      assert Step(t, t', depth);
    }
  }

  lemma {:induction false} WantCanGo(t: Node, depth: nat)
    requires t.Merger? && Tidy(t) && t.want != [] && depth > 0
    ensures exists t' :: Step(t, t', depth)
    decreases t, 0
  {
    var j := t.want[0];
    var k := t.kids[j];
    assert Tidy(k);
    if k.out != [] {
      var t' := t.(kids := t.kids[j := Shifted(k)], heap := t.heap[j := Some(k.out[0])], want := t.want[1..]);
      assert Fetch(t, t');
      assert Step(t, t', depth);
    } else if k.closed {
      var t' := t.(want := t.want[1..]);
      assert FetchEnd(t, t');
      assert Step(t, t', depth);
    } else {
      CanGo(k, depth);
      var k' :| Step(k, k', depth);
      var t' := t.(kids := t.kids[j := k']);
      assert KidStep(t, t', depth, j, k');
      assert Step(t, t', depth);
    }
  }

  // ---------------------------------------------------------------------------------------
  // No endless run
  // ---------------------------------------------------------------------------------------

  function SumNat(ns: seq<nat>): nat {
    if ns == [] then 0 else SumNat(ns[..|ns| - 1]) + ns[|ns| - 1]
  }

  lemma {:induction false} SumNatUpdate(ns: seq<nat>, j: nat, m: nat)
    requires j < |ns|
    ensures SumNat(ns[j := m]) + ns[j] == SumNat(ns) + m
  {
    var n := |ns| - 1;
    if j < n {
      SumNatUpdate(ns[..n], j, m);
      assert ns[j := m][..n] == ns[..n][j := m];
    } else {
      assert ns[j := m][..n] == ns[..n];
    }
  }

  /** The steps a process has still to take: a value is got once and put once. */
  ghost function Own(t: Node): nat {
    (if t.closed then 0 else 1) + if t.Source? then |t.left| else 2 * |Rest(t)| + |t.want|
  }

  /** The steps everybody in the tree has still to take. */
  ghost function Steps(t: Node): nat
    decreases t, 1
  {
    Own(t) + if t.Source? then 0 else SumNat(KidSteps(t))
  }

  ghost function KidSteps(t: Node): seq<nat>
    requires t.Merger?
    decreases t, 0
  {
    seq(|t.kids|, i requires 0 <= i < |t.kids| => Steps(t.kids[i]))
  }

  lemma KidStepsSame(t: Node, t': Node)
    requires t.Merger? && t'.Merger? && t'.kids == t.kids
    ensures KidSteps(t') == KidSteps(t)
  {
  }

  lemma KidStepsUpdate(t: Node, t': Node, j: nat)
    requires t.Merger? && t'.Merger? && j < |t.kids| == |t'.kids| && t'.kids == t.kids[j := t'.kids[j]]
    ensures SumNat(KidSteps(t')) + Steps(t.kids[j]) == SumNat(KidSteps(t)) + Steps(t'.kids[j])
  {
    SumNatUpdate(KidSteps(t), j, Steps(t'.kids[j]));
    assert KidSteps(t') == KidSteps(t)[j := Steps(t'.kids[j])];
  }

  /** Taking a value off a queue is no step of the process that put it. */
  lemma ShiftedSteps(k: Node)
    requires k.out != []
    ensures Steps(Shifted(k)) == Steps(k)
  {
    if k.Merger? {
      ShiftedRest(k);
      KidStepsSame(k, Shifted(k));
    }
  }

  lemma LocalShrinks(t: Node, t': Node, depth: nat)
    requires Tidy(t) && Local(t, t', depth)
    ensures Steps(t') == Steps(t) - 1
  {
    if Fetch(t, t') {
      var j := t.want[0];
      assert t.heap[j].None? && Tidy(t.kids[j]);
      FetchRest(t, t');
      ShiftedSteps(t.kids[j]);
      KidStepsUpdate(t, t', j);
    } else if FetchEnd(t, t') || Close(t, t', depth) {
      assert Shares(t') == Shares(t);
      KidStepsSame(t, t');
    } else if j: nat :| PopAt(t, t', depth, j) {
      PopRest(t, t', depth, j);
      KidStepsSame(t, t');
    }
  }

  /** Every step leaves one step less to take. */
  lemma {:induction false} StepShrinks(t: Node, t': Node, depth: nat)
    requires Tidy(t) && Step(t, t', depth)
    ensures Steps(t') == Steps(t) - 1
    decreases t
  {
    if Local(t, t', depth) {
      LocalShrinks(t, t', depth);
    } else {
      var j: nat, k: Node :| KidStep(t, t', depth, j, k);
      StepShrinks(t.kids[j], k, depth);
      StepKept(t.kids[j], k, depth);
      KidRest(t, t', j, k);
      KidStepsUpdate(t, t', j);
    }
  }

  // ---------------------------------------------------------------------------------------
  // The tree that MergePool.start builds
  // ---------------------------------------------------------------------------------------

  /** A merging process that has just started: it wants a value from everybody. */
  function Pool(kids: seq<Node>): Node {
    Merger(kids, seq(|kids|, _ => None), seq(|kids|, i => i), [], false)
  }

  function Leaves(sources: seq<seq<int>>): seq<Node> {
    seq(|sources|, i requires 0 <= i < |sources| => Source(sources[i], [], false))
  }

  /** One process a source up to the fan-in, and a pool a chunk above it. */
  ghost function Built(sources: seq<seq<int>>, fanin: nat): Node
    requires fanin >= 2
    decreases |sources|, 0, 0
  {
    if |sources| <= fanin then Pool(Leaves(sources))
    else
      ChunkShrinks(|sources|, fanin);
      ChunksBound(|sources|, fanin);
      Pool(Chunked(sources, |sources| / fanin, fanin))
  }

  ghost function Chunked(sources: seq<seq<int>>, size: nat, fanin: nat): seq<Node>
    requires fanin >= 2 && size > 0
    decreases size, 1, |sources|
  {
    if sources == [] then []
    else
      var n := Least(size, |sources|);
      [Built(sources[..n], fanin)] + Chunked(sources[n..], size, fanin)
  }

  /** What all of some processes have still to deliver. */
  ghost function AllComing(kids: seq<Node>): seq<multiset<int>> {
    seq(|kids|, i requires 0 <= i < |kids| => Coming(kids[i]))
  }

  lemma PoolTidy(kids: seq<Node>)
    requires forall i :: 0 <= i < |kids| ==> Tidy(kids[i])
    ensures Tidy(Pool(kids)) && Coming(Pool(kids)) == Sum(AllComing(kids))
  {
    var t := Pool(kids);
    forall i | 0 <= i < |kids| ensures Shares(t)[i] == AllComing(kids)[i] {
      assert t.heap[i].None?;
      assert ShareOf(kids[i], None) == Coming(kids[i]);
    }
    assert Shares(t) == AllComing(kids);
    forall j | 0 <= j < |kids| ensures j in t.want { assert t.want[j] == j; }
  }

  lemma {:induction false} LeavesComing(sources: seq<seq<int>>)
    ensures Sum(AllComing(Leaves(sources))) == Union(sources)
  {
    var all := AllComing(Leaves(sources));
    if sources != [] {
      var n := |sources| - 1;
      LeavesComing(sources[..n]);
      var before := AllComing(Leaves(sources[..n]));
      forall i | 0 <= i < n ensures all[i] == before[i] { assert Leaves(sources)[i] == Leaves(sources[..n])[i]; }
      assert all[..n] == before;
      assert all[n] == Coming(Source(sources[n], [], false)) == multiset(sources[n]);
    }
  }

  lemma {:induction false} SumFirst(m: multiset<int>, ms: seq<multiset<int>>)
    ensures Sum([m] + ms) == m + Sum(ms)
  {
    var all := [m] + ms;
    if ms == [] {
      assert all[..0] == [];
    } else {
      var n := |ms| - 1;
      SumFirst(m, ms[..n]);
      assert all[..|all| - 1] == [m] + ms[..n] && all[|all| - 1] == ms[n];
    }
  }

  /** The tree starts tidy, and what it has to deliver is what the sources hold. */
  lemma {:induction false} BuiltTidy(sources: seq<seq<int>>, fanin: nat)
    requires fanin >= 2 && AllSorted(sources)
    ensures Tidy(Built(sources, fanin)) && Coming(Built(sources, fanin)) == Union(sources)
    decreases |sources|, 0, 0
  {
    if |sources| <= fanin {
      var kids := Leaves(sources);
      forall i | 0 <= i < |kids| ensures Tidy(kids[i]) { assert Sorted(sources[i]); }
      PoolTidy(kids);
      LeavesComing(sources);
    } else {
      ChunkShrinks(|sources|, fanin);
      ChunksBound(|sources|, fanin);
      ChunkedTidy(sources, |sources| / fanin, fanin);
      PoolTidy(Chunked(sources, |sources| / fanin, fanin));
    }
  }

  lemma {:induction false} ChunkedTidy(sources: seq<seq<int>>, size: nat, fanin: nat)
    requires fanin >= 2 && size > 0 && AllSorted(sources)
    ensures var kids := Chunked(sources, size, fanin);
            (forall i :: 0 <= i < |kids| ==> Tidy(kids[i])) && Sum(AllComing(kids)) == Union(sources)
    decreases size, 1, |sources|
  {
    if sources != [] {
      var n := Least(size, |sources|);
      var first, rest := Built(sources[..n], fanin), Chunked(sources[n..], size, fanin);
      BuiltTidy(sources[..n], fanin);
      ChunkedTidy(sources[n..], size, fanin);
      AllTidy(first, rest);
      ComingJoin(first, rest);
      ChunkUnion(sources, n);
    }
  }

  lemma AllTidy(first: Node, rest: seq<Node>)
    requires Tidy(first) && forall i :: 0 <= i < |rest| ==> Tidy(rest[i])
    ensures forall i :: 0 <= i < |[first] + rest| ==> Tidy(([first] + rest)[i])
  {
  }

  lemma ChunkUnion(sources: seq<seq<int>>, n: nat)
    requires n <= |sources|
    ensures Union(sources[..n]) + Union(sources[n..]) == Union(sources)
  {
    UnionAppend(sources[..n], sources[n..]);
    assert sources == sources[..n] + sources[n..];
  }

  lemma ComingJoin(first: Node, rest: seq<Node>)
    ensures Sum(AllComing([first] + rest)) == Coming(first) + Sum(AllComing(rest))
  {
    var all := AllComing([first] + rest);
    forall i | 0 <= i < |all| ensures all[i] == ([Coming(first)] + AllComing(rest))[i] {
      if i > 0 { assert ([first] + rest)[i] == rest[i - 1]; }
    }
    assert all == [Coming(first)] + AllComing(rest);
    SumFirst(Coming(first), AllComing(rest));
  }

  /** No process has more than w sources. */
  ghost predicate Narrow(t: Node, w: nat)
    decreases t
  {
    t.Merger? ==> |t.kids| <= w && forall i :: 0 <= i < |t.kids| ==> Narrow(t.kids[i], w)
  }

  lemma {:induction false} BuiltNarrow(sources: seq<seq<int>>, fanin: nat)
    requires fanin >= 2
    ensures Narrow(Built(sources, fanin), 2 * fanin - 1)
    decreases |sources|, 0, 0
  {
    if |sources| > fanin {
      ChunkShrinks(|sources|, fanin);
      ChunksBound(|sources|, fanin);
      ChunkedNarrow(sources, |sources| / fanin, fanin);
      CountIsChunks(|sources|, |sources| / fanin);
    }
  }

  lemma {:induction false} ChunkedNarrow(sources: seq<seq<int>>, size: nat, fanin: nat)
    requires fanin >= 2 && size > 0
    ensures var kids := Chunked(sources, size, fanin);
            |kids| == ChunkCount(|sources|, size) && forall i :: 0 <= i < |kids| ==> Narrow(kids[i], 2 * fanin - 1)
    decreases size, 1, |sources|
  {
    if sources != [] {
      var n := Least(size, |sources|);
      BuiltNarrow(sources[..n], fanin);
      ChunkedNarrow(sources[n..], size, fanin);
    }
  }

  /** A number of sources that the fan-in divides again and again, until no more are left than the fan-in itself. */
  predicate Divisible(n: nat, fanin: nat)
    requires fanin >= 2
  {
    n <= fanin || (n % fanin == 0 && n / fanin < n && Divisible(n / fanin, fanin))
  }

  /** No process of the tree has more sources than the fan-in exactly when the number of sources is so divisible. */
  lemma {:induction false} BuiltNarrowIff(sources: seq<seq<int>>, fanin: nat)
    requires fanin >= 2
    ensures Narrow(Built(sources, fanin), fanin) <==> Divisible(|sources|, fanin)
    decreases |sources|, 0, 0
  {
    var n := |sources|;
    if n > fanin {
      ChunkShrinks(n, fanin);
      ChunksBound(n, fanin);
      ChunksExact(n, fanin);
      var size := n / fanin;
      CountIsChunks(n, size);
      ChunkedCount(sources, size, fanin);
      if n % fanin == 0 {
        assert n == fanin * size;
        ChunkedNarrowIff(sources, size, fanin, fanin);
      }
    }
  }

  lemma {:induction false} ChunkedCount(sources: seq<seq<int>>, size: nat, fanin: nat)
    requires fanin >= 2 && size > 0
    ensures |Chunked(sources, size, fanin)| == ChunkCount(|sources|, size)
    decreases |sources|
  {
    if sources != [] { ChunkedCount(sources[Least(size, |sources|)..], size, fanin); }
  }

  ghost predicate AllNarrow(kids: seq<Node>, w: nat) {
    forall i :: 0 <= i < |kids| ==> Narrow(kids[i], w)
  }

  /** Chunks of one and the same size are all alike. */
  lemma {:induction false} ChunkedNarrowIff(sources: seq<seq<int>>, size: nat, fanin: nat, k: nat)
    requires fanin >= 2 && size > 0 && |sources| == k * size
    ensures AllNarrow(Chunked(sources, size, fanin), fanin) <==> k == 0 || Divisible(size, fanin)
    decreases size, 1, k
  {
    if k > 0 {
      OneLess(|sources|, k, size);
      ChunkedHead(sources, size, fanin);
      BuiltNarrowIff(sources[..size], fanin);
      ChunkedNarrowIff(sources[size..], size, fanin, k - 1);
      NarrowAll(Built(sources[..size], fanin), Chunked(sources[size..], size, fanin), fanin);
    }
  }

  lemma OneLess(n: int, k: nat, size: nat)
    requires k > 0 && n == k * size
    ensures n - size == (k - 1) * size >= 0
  {
  }

  lemma ChunkedHead(sources: seq<seq<int>>, size: nat, fanin: nat)
    requires fanin >= 2 && 0 < size <= |sources|
    ensures Chunked(sources, size, fanin) == [Built(sources[..size], fanin)] + Chunked(sources[size..], size, fanin)
  {
  }

  lemma NarrowAll(first: Node, rest: seq<Node>, w: nat)
    ensures AllNarrow([first] + rest, w) <==> Narrow(first, w) && AllNarrow(rest, w)
  {
    var kids := [first] + rest;
    assert kids[0] == first && forall i :: 0 < i < |kids| ==> kids[i] == rest[i - 1];
    assert forall i :: 0 <= i < |rest| ==> rest[i] == kids[i + 1];
  }

  // ---------------------------------------------------------------------------------------
  // Runs
  // ---------------------------------------------------------------------------------------

  /** The root of the tree, and what the caller of MergePool.start has got from it. */
  datatype Net = Net(root: Node, taken: seq<int>)

  ghost predicate NetStep(s: Net, s': Net, depth: nat) {
    || (Step(s.root, s'.root, depth) && s'.taken == s.taken)
    || (s.root.out != [] && s' == Net(Shifted(s.root), s.taken + [s.root.out[0]]))
  }

  ghost predicate Run(ss: seq<Net>, sources: seq<seq<int>>, fanin: nat, depth: nat)
    requires fanin >= 2
  {
    && ss != [] && ss[0] == Net(Built(sources, fanin), [])
    && forall i :: 0 <= i < |ss| - 1 ==> NetStep(ss[i], ss[i + 1], depth)
  }

  /** The sentinel is next. */
  predicate Done(s: Net) {
    s.root.closed && s.root.out == []
  }

  ghost predicate NetInv(s: Net, total: multiset<int>) {
    && Tidy(s.root) && multiset(s.taken) + Coming(s.root) == total
    && Sorted(s.taken) && Below(s.taken, Coming(s.root))
  }

  /** What is left to do: steps in the tree, and values to take. */
  ghost function Work(s: Net): nat {
    Steps(s.root) + |Coming(s.root)|
  }

  lemma NetStepInv(s: Net, s': Net, depth: nat, total: multiset<int>)
    requires NetInv(s, total) && NetStep(s, s', depth)
    ensures NetInv(s', total) && Work(s') == Work(s) - 1
  {
    if Step(s.root, s'.root, depth) && s'.taken == s.taken {
      StepKept(s.root, s'.root, depth);
      StepShrinks(s.root, s'.root, depth);
    } else {
      ShiftedTidy(s.root);
      ShiftedSteps(s.root);
      TakeInv(s.taken, s.root.out[0], Coming(s.root), Coming(s'.root));
      assert Leads(Some(s.root.out[0]), s'.root);
    }
  }

  lemma {:induction false} RunInv(ss: seq<Net>, sources: seq<seq<int>>, fanin: nat, depth: nat, n: nat)
    requires fanin >= 2 && AllSorted(sources) && Run(ss, sources, fanin, depth) && n < |ss|
    ensures NetInv(ss[n], Union(sources)) && Work(ss[n]) == Work(ss[0]) - n
    decreases n
  {
    if n == 0 {
      BuiltTidy(sources, fanin);
    } else {
      RunInv(ss, sources, fanin, depth, n - 1);
      NetStepInv(ss[n - 1], ss[n], depth, Union(sources));
    }
  }

  /** A sorted beginning that is not above the rest is how the sorted whole begins. */
  lemma {:induction false} PrefixOfSorted(q: seq<int>, m: multiset<int>, f: seq<int>)
    requires Sorted(q) && Below(q, m) && Sorted(f) && multiset(f) == multiset(q) + m
    ensures q <= f
  {
    if q != [] {
      SameFirst(q, m, f);
      TailBag(f);
      TailBag(q);
      BagLess(multiset(f), multiset(q), m, q[0]);
      PrefixOfSorted(q[1..], m, f[1..]);
      PrefixCons(q[0], q[1..], f[1..]);
    }
  }

  lemma BagLess(a: multiset<int>, b: multiset<int>, m: multiset<int>, x: int)
    requires a == b + m && x in b
    ensures a - multiset{x} == (b - multiset{x}) + m
  {
  }

  lemma PrefixCons(x: int, q: seq<int>, f: seq<int>)
    requires q <= f
    ensures [x] + q <= [x] + f
  {
    assert f == q + f[|q|..];
    assert [x] + f == ([x] + q) + f[|q|..];
  }

  lemma TailBag(q: seq<int>)
    requires q != []
    ensures multiset(q[1..]) == multiset(q) - multiset{q[0]} && q == [q[0]] + q[1..]
  {
    assert q == [q[0]] + q[1..];
  }

  lemma SameFirst(q: seq<int>, m: multiset<int>, f: seq<int>)
    requires q != [] && Sorted(q) && Below(q, m) && Sorted(f) && multiset(f) == multiset(q) + m
    ensures f != [] && f[0] == q[0]
  {
    assert q[0] in multiset(f);
    var i :| 0 <= i < |f| && f[i] == q[0];
    assert f[0] in multiset(q) + m;
    if f[0] in multiset(q) {
      var k :| 0 <= k < |q| && q[k] == f[0];
    }
  }

  /**
   Whatever the order of steps: what has come out of the tree is sorted, together with what is still
   to come it is what the sources hold, and when the sentinel is next that is all of it.
   */
  lemma OutputIsMerge(ss: seq<Net>, sources: seq<seq<int>>, fanin: nat, depth: nat, n: nat)
    requires fanin >= 2 && AllSorted(sources) && Run(ss, sources, fanin, depth) && n < |ss|
    ensures Sorted(ss[n].taken) && multiset(ss[n].taken) <= Union(sources)
    ensures Done(ss[n]) ==> multiset(ss[n].taken) == Union(sources)
  {
    RunInv(ss, sources, fanin, depth, n);
  }

  /**
   The order of steps, the fan-in and the depth of the queues do not show: one run that is through tells
   the output of every other.
   */
  lemma OrderDoesNotMatter(ss: seq<Net>, fanin: nat, depth: nat, n: nat, ts: seq<Net>, fanin': nat, depth': nat, m: nat,
                           sources: seq<seq<int>>)
    requires fanin >= 2 && fanin' >= 2 && AllSorted(sources)
    requires Run(ss, sources, fanin, depth) && n < |ss| && Run(ts, sources, fanin', depth') && m < |ts| && Done(ts[m])
    ensures ss[n].taken <= ts[m].taken
    ensures Done(ss[n]) ==> ss[n].taken == ts[m].taken
  {
    RunInv(ss, sources, fanin, depth, n);
    OutputIsMerge(ts, sources, fanin', depth', m);
    PrefixOfSorted(ss[n].taken, Coming(ss[n].root), ts[m].taken);
    if Done(ss[n]) {
      OutputIsMerge(ss, sources, fanin, depth, n);
      assert |multiset(ss[n].taken)| == |ss[n].taken| && |multiset(ts[m].taken)| == |ts[m].taken|;
    }
  }

  /** With bounded queues of any depth somebody can go on until the sentinel is next. */
  lemma NetNeverLocksUp(ss: seq<Net>, sources: seq<seq<int>>, fanin: nat, depth: nat, n: nat)
    requires fanin >= 2 && depth >= 1 && AllSorted(sources) && Run(ss, sources, fanin, depth) && n < |ss|
    requires !Done(ss[n])
    ensures exists s' :: NetStep(ss[n], s', depth)
  {
    RunInv(ss, sources, fanin, depth, n);
    var s := ss[n];
    if s.root.out != [] {
      assert NetStep(s, Net(Shifted(s.root), s.taken + [s.root.out[0]]), depth);
    } else {
      CanGo(s.root, depth);
      var t :| Step(s.root, t, depth);
      assert NetStep(s, Net(t, s.taken), depth);
    }
  }

  /** Every run ends: each step of anybody takes one off the work that was there to begin with. */
  lemma NetRunsEnd(ss: seq<Net>, sources: seq<seq<int>>, fanin: nat, depth: nat)
    requires fanin >= 2 && AllSorted(sources) && Run(ss, sources, fanin, depth)
    ensures |ss| - 1 <= Work(ss[0])
  {
    RunInv(ss, sources, fanin, depth, |ss| - 1);
  }
}
