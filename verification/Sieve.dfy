/**
 The self-extending pipeline of processes that sieves primes.

 A source counts from 3 to a limit and ends with the sentinel 0. Every stage keeps up to a fixed
 number of primes, drops the multiples of them and passes everything else on; when it is full,
 the next number that gets through starts a new stage behind it, which takes over its output
 queue. Stages run concurrently and talk through bounded queues: the model is a network whose
 source and stages take their turns in any order.
 */
module Primes {
  import opened Counting

  ghost predicate Prime(n: int) {
    n >= 2 && forall d :: 2 <= d < n ==> n % d != 0
  }

  /** No prime below a divides n. */
  ghost predicate Rough(a: int, n: int) {
    forall p :: 2 <= p < a && Prime(p) ==> n % p != 0
  }

  lemma {:induction false} PrimeFactor(n: int) returns (p: int)
    requires n >= 2
    ensures 2 <= p <= n && Prime(p) && n % p == 0
    decreases n
  {
    if Prime(n) {
      p := n;
    } else {
      var d :| 2 <= d < n && n % d == 0;
      p := PrimeFactor(d);
      DividesTrans(n, d, p);
    }
  }

  lemma DividesTrans(n: int, d: int, p: int)
    requires p > 0 && d > 0 && n % d == 0 && d % p == 0
    ensures n % p == 0
  {
    var x, y := n / d, d / p;
    assert n == (x * y) * p;
    DivMod(n, p, x * y, 0);
  }

  /** Trial division by the smaller primes is enough. */
  lemma PrimeIff(n: int)
    requires n >= 2
    ensures Prime(n) <==> Rough(n, n)
  {
    if !Prime(n) {
      var p := PrimeFactor(n);
      assert 2 <= p < n && Prime(p) && n % p == 0;
    }
  }

  /** The primes in [lo, hi) in order. */
  ghost function PrimesIn(lo: int, hi: int): seq<int>
    decreases hi - lo
  {
    if lo >= hi then []
    else if Prime(hi - 1) then PrimesIn(lo, hi - 1) + [hi - 1]
    else PrimesIn(lo, hi - 1)
  }

  lemma {:induction false} PrimesMeans(lo: int, hi: int)
    ensures forall x :: x in PrimesIn(lo, hi) <==> lo <= x < hi && Prime(x)
    ensures forall i, j :: 0 <= i < j < |PrimesIn(lo, hi)| ==> PrimesIn(lo, hi)[i] < PrimesIn(lo, hi)[j]
    decreases hi - lo
  {
    if lo < hi {
      PrimesMeans(lo, hi - 1);
      var rest := PrimesIn(lo, hi - 1);
      assert forall i :: 0 <= i < |rest| ==> rest[i] in rest;
    }
  }

  lemma {:induction false} PrimesGap(lo: int, mid: int, hi: int)
    requires lo <= mid <= hi && forall x :: mid <= x < hi ==> !Prime(x)
    ensures PrimesIn(lo, hi) == PrimesIn(lo, mid)
    decreases hi - mid
  {
    if mid < hi { PrimesGap(lo, mid, hi - 1); }
  }

  lemma {:induction false} PrimesJoin(lo: int, mid: int, hi: int)
    requires lo <= mid <= hi
    ensures PrimesIn(lo, mid) + PrimesIn(mid, hi) == PrimesIn(lo, hi)
    decreases hi - mid
  {
    if mid < hi { PrimesJoin(lo, mid, hi - 1); }
  }

  /** The numbers in [lo, hi) that no prime below a divides, in order. */
  ghost function Sift(a: int, lo: int, hi: int): seq<int>
    decreases hi - lo
  {
    if lo >= hi then []
    else if Rough(a, hi - 1) then Sift(a, lo, hi - 1) + [hi - 1]
    else Sift(a, lo, hi - 1)
  }

  lemma {:induction false} SiftMeans(a: int, lo: int, hi: int)
    ensures forall x :: x in Sift(a, lo, hi) <==> lo <= x < hi && Rough(a, x)
    decreases hi - lo
  {
    if lo < hi { SiftMeans(a, lo, hi - 1); }
  }

  /** The first of them is preceded by none, and the rest are those after it. */
  lemma {:induction false} SiftHead(a: int, lo: int, hi: int)
    requires Sift(a, lo, hi) != []
    ensures var n := Sift(a, lo, hi)[0];
            && lo <= n < hi && Rough(a, n) && (forall x :: lo <= x < n ==> !Rough(a, x))
            && Sift(a, lo, hi)[1..] == Sift(a, n + 1, hi)
    decreases hi - lo
  {
    SiftMeans(a, lo, hi);
    SiftMeans(a, lo, hi - 1);
    var rest := Sift(a, lo, hi - 1);
    assert Sift(a, lo, hi)[0] in Sift(a, lo, hi);
    if rest != [] {
      SiftHead(a, lo, hi - 1);
    } else {
      forall x | lo <= x < hi - 1 ensures !Rough(a, x) { assert x !in rest; }
    }
  }

  lemma {:induction false} SiftGap(a: int, lo: int, mid: int, hi: int)
    requires lo <= mid <= hi && forall x :: mid <= x < hi ==> !Rough(a, x)
    ensures Sift(a, lo, hi) == Sift(a, lo, mid)
    decreases hi - mid
  {
    if mid < hi { SiftGap(a, lo, mid, hi - 1); }
  }

  /** No smaller prime divides a prime. */
  lemma PrimeIsRough(a: int, n: int)
    requires Prime(n) && a <= n
    ensures Rough(a, n)
  {
  }
}

module Sieve {
  import opened Counting
  import opened Primes

  const SENTINEL: int := 0
  const DEPTH: nat := 10

  /**
   A stage and the queue it reads from; hand is the number it has got and not yet dealt with, if any.
   upto is history: every number below it has been dealt with by this stage or an earlier one.
   */
  datatype Stage = Stage(primes: seq<int>, count: nat, queue: seq<int>, hand: seq<int>, done: bool, upto: int)

  /** The sink holds all that was ever put; the consumer has taken the first `taken` of it. */
  datatype Net = Net(size: nat, max: int, next: int, sourceDone: bool, stages: seq<Stage>, sink: seq<int>, taken: nat)

  // ---------------------------------------------------------------------------------------
  // The test of a stage
  // ---------------------------------------------------------------------------------------

  /** Coprime to the listed primes. */
  predicate Free(n: int, primes: seq<int>) {
    forall i :: 0 <= i < |primes| ==> !Divides(primes[i], n)
  }

  predicate Divides(p: int, n: int) {
    p > 0 && n % p == 0
  }

  /** A number below 2p that is larger than p is not a multiple of p. */
  lemma TooSmall(n: int, p: int)
    requires 0 < p < n < 2 * p
    ensures n % p != 0
  {
    assert n % p == n - p;
  }

  /** The test of a stage: it stops early, at the first prime past half the number. */
  predicate Passes(n: int, primes: seq<int>) {
    if primes == [] then true
    else if n < primes[0] * 2 then true
    else if Divides(primes[0], n) then false
    else Passes(n, primes[1..])
  }

  method IsRelativelyPrime(number: int, primes: seq<int>) returns (r: bool)
    requires forall i :: 0 <= i < |primes| ==> primes[i] > 0
    ensures r == Passes(number, primes)
  {
    for k := 0 to |primes|
      invariant Passes(number, primes) == Passes(number, primes[k..])
    {
      assert primes[k..][0] == primes[k] && primes[k..][1..] == primes[k + 1..];
      if number < primes[k] * 2 {
        return true;
      }
      if number % primes[k] == 0 {
        return false;
      }
    }
    return true;
  }

  /** Stopping early changes nothing, for primes in order below the number. */
  lemma {:induction false} PassesIsFree(n: int, primes: seq<int>)
    requires forall i :: 0 <= i < |primes| ==> 2 <= primes[i] < n
    requires forall i, j :: 0 <= i < j < |primes| ==> primes[i] < primes[j]
    ensures Passes(n, primes) <==> Free(n, primes)
  {
    if primes != [] {
      PassesIsFree(n, primes[1..]);
      assert primes == [primes[0]] + primes[1..];
      assert Free(n, primes) <==> !Divides(primes[0], n) && Free(n, primes[1..]);
      if n < primes[0] * 2 {
        forall i | 0 <= i < |primes| ensures !Divides(primes[i], n) { TooSmall(n, primes[i]); }
      }
    }
  }

  /** In any other order it can: 9 passes 5 before it gets to 3. */
  lemma OrderMatters()
    ensures Passes(9, [5, 3]) && !Free(9, [5, 3])
  {
    assert Divides([5, 3][1], 9);
  }

  // ---------------------------------------------------------------------------------------
  // Steps
  // ---------------------------------------------------------------------------------------

  /** The source puts its next number, or the sentinel after the last. */
  ghost predicate SourceStep(s: Net, s': Net) {
    && !s.sourceDone && s.stages != [] && |s.stages[0].queue| < DEPTH
    && var st := s.stages[0];
    && s' == if s.next <= s.max
             then s.(next := s.next + 1, stages := s.stages[0 := st.(queue := st.queue + [s.next])])
             else s.(sourceDone := true, stages := s.stages[0 := st.(queue := st.queue + [SENTINEL])])
  }

  /** Stage k becomes st and puts out on its output: the queue of the next stage, or the sink. */
  function Moved(s: Net, k: nat, st: Stage, out: seq<int>): Net
    requires k < |s.stages|
  {
    if k + 1 < |s.stages| then
      var after := s.stages[k + 1];
      s.(stages := s.stages[k := st][k + 1 := after.(queue := after.queue + out)])
    else
      s.(stages := s.stages[k := st], sink := s.sink + out)
  }

  predicate Room(s: Net, k: nat) {
    if k + 1 < |s.stages| then |s.stages[k + 1].queue| < DEPTH else |s.sink| < s.taken + DEPTH
  }

  /** The consumer takes a number, or the sentinel. */
  predicate Consume(s: Net, s': Net) {
    s.taken < |s.sink| && s' == s.(taken := s.taken + 1)
  }

  /** Stage k gets the next number from its queue. */
  ghost predicate Get(s: Net, s': Net, k: nat) {
    && k < |s.stages|
    && var st := s.stages[k];
    && !st.done && st.hand == [] && st.queue != []
    && s' == Moved(s, k, Got(st), [])
  }

  function Got(st: Stage): Stage
    requires st.queue != []
  {
    st.(hand := [st.queue[0]], queue := st.queue[1..])
  }

  /** Stage k has the sentinel. */
  ghost predicate Stop(s: Net, s': Net, k: nat) {
    && k < |s.stages| && Room(s, k)
    && var st := s.stages[k];
    && !st.done && st.hand != [] && st.hand[0] == SENTINEL
    && s' == Moved(s, k, st.(hand := [], done := true, upto := s.max + 1), [SENTINEL])
  }

  /** Stage k has a number. */
  predicate Takes(s: Net, k: nat) {
    && k < |s.stages|
    && var st := s.stages[k];
    && !st.done && st.hand != [] && st.hand[0] != SENTINEL
  }

  function Eaten(st: Stage): Stage
    requires st.hand != []
  {
    st.(hand := [], upto := st.hand[0] + 1)
  }

  /** Stage k drops a multiple of one of its primes. */
  ghost predicate Drop(s: Net, s': Net, k: nat) {
    && Takes(s, k)
    && var st := s.stages[k];
    && !Passes(st.hand[0], st.primes) && s' == Moved(s, k, Eaten(st), [])
  }

  /** Stage k has room for another prime. */
  ghost predicate Keep(s: Net, s': Net, k: nat) {
    && Takes(s, k) && Room(s, k)
    && var st := s.stages[k];
    && Passes(st.hand[0], st.primes) && st.count < s.size
    && s' == Moved(s, k, Eaten(st).(primes := st.primes + [st.hand[0]], count := st.count + 1), [st.hand[0]])
  }

  /** Stage k is full: the number is put out, and starts a new stage that takes over the output. */
  ghost predicate Spawn(s: Net, s': Net, k: nat) {
    && Takes(s, k) && Room(s, k)
    && var st := s.stages[k];
    && Passes(st.hand[0], st.primes) && st.count == s.size
    && var t := Moved(s, k, Eaten(st).(count := st.count + 1), [st.hand[0]]);
    && s' == t.(stages := t.stages[..k + 1] + [Stage([st.hand[0]], 1, [], [], false, st.hand[0] + 1)])
  }

  /** Stage k has a successor: the number goes on to it. */
  ghost predicate Pass(s: Net, s': Net, k: nat) {
    && Takes(s, k) && Room(s, k)
    && var st := s.stages[k];
    && Passes(st.hand[0], st.primes) && st.count > s.size
    && s' == Moved(s, k, Eaten(st).(count := st.count + 1), [st.hand[0]])
  }

  ghost predicate Step(s: Net, s': Net) {
    || SourceStep(s, s') || Consume(s, s')
    || exists k: nat :: Get(s, s', k) || Deal(s, s', k)
  }

  /** Stage k deals with what it has got: if that has to be put out, there must be room for it. */
  ghost predicate Deal(s: Net, s': Net, k: nat) {
    Stop(s, s', k) || Drop(s, s', k) || Keep(s, s', k) || Spawn(s, s', k) || Pass(s, s', k)
  }

  /** start() puts 2 on the sink and in the first stage. */
  predicate Init(s: Net) {
    && s.size >= 1 && s.max >= 2 && s.next == 3 && !s.sourceDone
    && s.stages == [Stage([2], 1, [], [], false, 3)] && s.sink == [2] && s.taken == 0
  }

  ghost predicate Run(ss: seq<Net>) {
    && ss != [] && Init(ss[0])
    && forall i :: 0 <= i < |ss| - 1 ==> Step(ss[i], ss[i + 1])
  }

  // ---------------------------------------------------------------------------------------
  // Invariant
  // ---------------------------------------------------------------------------------------

  /**
   What a stage knows: hi is how far its input has come, closed whether that is all of it, and
   follower the first prime of the next stage, if there is one. The stage holds the primes from its
   own first one up to there, and what it has before it is what the stages before it let through.
   */
  ghost predicate StageOk(size: nat, max: int, st: Stage, hi: int, closed: bool, follower: Option<int>) {
    && var a := First(st);
    && Prime(a) && a < st.upto <= hi && 3 <= st.upto
    && (follower.None? ==> st.primes == PrimesIn(a, st.upto) && st.count == |st.primes| <= size)
    && (follower.Some? ==> st.primes == PrimesIn(a, follower.value) && |st.primes| == size < st.count
                           && a < follower.value < st.upto)
    && |st.hand| <= 1 && Ahead(st) == Sift(a, st.upto, hi) + (if closed && !st.done then [SENTINEL] else [])
    && (st.done ==> closed && st.upto == max + 1)
  }

  /** The number in hand and those in the queue. */
  function Ahead(st: Stage): seq<int> {
    st.hand + st.queue
  }

  function First(st: Stage): int {
    if st.primes == [] then 0 else st.primes[0]
  }

  function Hi(s: Net, k: nat): int
    requires k < |s.stages|
  {
    if k == 0 then s.next else s.stages[k - 1].upto
  }

  function Closed(s: Net, k: nat): bool
    requires k < |s.stages|
  {
    if k == 0 then s.sourceDone else s.stages[k - 1].done
  }

  function Follower(s: Net, k: nat): Option<int>
    requires k < |s.stages|
  {
    if k + 1 < |s.stages| then Some(First(s.stages[k + 1])) else None
  }

  ghost predicate At(s: Net, k: nat)
    requires k < |s.stages|
  {
    StageOk(s.size, s.max, s.stages[k], Hi(s, k), Closed(s, k), Follower(s, k))
  }

  ghost predicate Inv(s: Net) {
    && s.size >= 1 && s.max >= 2 && s.stages != [] && 3 <= s.next <= s.max + 1
    && (s.sourceDone ==> s.next == s.max + 1)
    && (forall k :: 0 <= k < |s.stages| ==> At(s, k))
    && First(s.stages[0]) == 2 && s.taken <= |s.sink|
    && var last := s.stages[|s.stages| - 1];
       s.sink == PrimesIn(2, last.upto) + (if last.done then [SENTINEL] else [])
  }

  // ---------------------------------------------------------------------------------------
  // One stage
  // ---------------------------------------------------------------------------------------

  /** The number in hand is the next one that the earlier stages let through. */
  lemma HeadIsNext(st: Stage, a: int, hi: int, closed: bool)
    requires Ahead(st) == Sift(a, st.upto, hi) + (if closed && !st.done then [SENTINEL] else [])
    requires |st.hand| == 1 && !st.done && 3 <= st.upto
    ensures var n := st.hand[0];
            if n == SENTINEL then closed && st.queue == [] && forall x :: st.upto <= x < hi ==> !Rough(a, x)
            else && st.upto <= n < hi && Rough(a, n) && (forall x :: st.upto <= x < n ==> !Rough(a, x))
                 && st.queue == Sift(a, n + 1, hi) + (if closed then [SENTINEL] else [])
  {
    var q := Sift(a, st.upto, hi);
    assert Ahead(st)[0] == st.hand[0] && Ahead(st)[1..] == st.queue;
    if q != [] {
      SiftHead(a, st.upto, hi);
      assert st.queue == q[1..] + (if closed then [SENTINEL] else []);
    } else {
      SiftMeans(a, st.upto, hi);
      forall x | st.upto <= x < hi ensures !Rough(a, x) { assert x !in q; }
    }
  }

  /** Free of the primes in [a, b) and rough below a is rough below b. */
  lemma FreeMeans(a: int, b: int, n: int)
    requires 2 <= a <= b && Rough(a, n)
    ensures Free(n, PrimesIn(a, b)) <==> Rough(b, n)
  {
    PrimesMeans(a, b);
    var ps := PrimesIn(a, b);
    assert forall i :: 0 <= i < |ps| ==> ps[i] in ps;
    if Free(n, ps) {
      forall p | 2 <= p < b && Prime(p) ensures n % p != 0 {
        if p >= a { assert p in ps; }
      }
    }
  }

  /** For the last stage: what gets through is prime. */
  lemma LastFilter(a: int, upto: int, n: int)
    requires Prime(a) && a < upto <= n && Rough(a, n) && forall x :: upto <= x < n ==> !Rough(a, x)
    ensures Free(n, PrimesIn(a, upto)) <==> Prime(n)
    ensures forall x :: upto <= x < n ==> !Prime(x)
  {
    FreeMeans(a, upto, n);
    forall x | upto <= x < n ensures !Prime(x) {
      if Prime(x) { PrimeIsRough(a, x); }
    }
    assert Rough(upto, n) <==> Rough(n, n);
    PrimeIff(n);
  }

  /** The queue of the next stage, when stage with first prime a gets from upto to n and lets n through or not. */
  lemma NextQueue(a: int, b: int, lo: int, upto: int, n: int)
    requires a <= b && lo <= upto <= n && forall x :: upto <= x < n ==> !Rough(a, x)
    ensures Sift(b, lo, n) == Sift(b, lo, upto)
    ensures Sift(b, lo, n + 1) == Sift(b, lo, upto) + (if Rough(b, n) then [n] else [])
  {
    forall x | upto <= x < n ensures !Rough(b, x) {
      assert !Rough(a, x);
      var p :| 2 <= p < a && Prime(p) && x % p == 0;
    }
    SiftGap(b, lo, upto, n);
  }

  /** What is put on its queue comes last. */
  lemma PutAhead(st: Stage, out: seq<int>)
    ensures Ahead(st.(queue := st.queue + out)) == Ahead(st) + out
  {
  }

  /** Getting a number changes nothing else. */
  lemma GotOk(size: nat, max: int, st: Stage, hi: int, closed: bool, follower: Option<int>)
    requires StageOk(size, max, st, hi, closed, follower) && st.hand == [] && st.queue != []
    ensures StageOk(size, max, Got(st), hi, closed, follower)
  {
    assert Ahead(Got(st)) == Ahead(st);
  }

  /** A stage with a follower deals with the number in its hand. */
  lemma EatOk(size: nat, max: int, st: Stage, hi: int, closed: bool, b: int, count: nat)
    requires StageOk(size, max, st, hi, closed, Some(b)) && !st.done && st.hand != [] && st.hand[0] != SENTINEL
    requires count >= st.count
    ensures StageOk(size, max, Eaten(st).(count := count), hi, closed, Some(b))
  {
    HeadIsNext(st, First(st), hi, closed);
  }

  /** Its follower takes in what it lets through. */
  lemma FeedOk(size: nat, max: int, st: Stage, hi: int, closed: bool, after: Stage, follower: Option<int>)
    requires StageOk(size, max, st, hi, closed, Some(First(after)))
    requires StageOk(size, max, after, st.upto, false, follower)
    requires !st.done && st.hand != [] && st.hand[0] != SENTINEL
    ensures var n := st.hand[0];
            var out := if Free(n, st.primes) then [n] else [];
            StageOk(size, max, after.(queue := after.queue + out), n + 1, false, follower)
  {
    var a, b, n := First(st), First(after), st.hand[0];
    HeadIsNext(st, a, hi, closed);
    FreeMeans(a, b, n);
    NextQueue(a, b, after.upto, st.upto, n);
    PutAhead(after, if Free(n, st.primes) then [n] else []);
  }

  /** A stage stops. */
  lemma StopOk(size: nat, max: int, st: Stage, hi: int, closed: bool, follower: Option<int>)
    requires StageOk(size, max, st, hi, closed, follower) && !st.done && st.hand != [] && st.hand[0] == SENTINEL
    requires closed ==> hi == max + 1
    ensures StageOk(size, max, st.(hand := [], done := true, upto := max + 1), hi, closed, follower)
    ensures PrimesIn(2, st.upto) == PrimesIn(2, max + 1)
  {
    HeadIsNext(st, First(st), hi, closed);
    forall x | st.upto <= x < max + 1 ensures !Prime(x) {
      if Prime(x) { PrimeIsRough(First(st), x); }
    }
    PrimesGap(First(st), st.upto, max + 1);
    PrimesGap(2, st.upto, max + 1);
  }

  /** Its follower takes in the end of its input. */
  lemma CloseOk(size: nat, max: int, st: Stage, hi: int, closed: bool, after: Stage, follower: Option<int>)
    requires StageOk(size, max, st, hi, closed, Some(First(after)))
    requires StageOk(size, max, after, st.upto, false, follower)
    requires !st.done && st.hand != [] && st.hand[0] == SENTINEL && (closed ==> hi == max + 1)
    ensures StageOk(size, max, after.(queue := after.queue + [SENTINEL]), max + 1, true, follower)
  {
    HeadIsNext(st, First(st), hi, closed);
    var b := First(after);
    NextQueue(First(st), b, after.upto, st.upto, max + 1);
    assert Ahead(after) == Sift(b, after.upto, max + 1);
    PutAhead(after, [SENTINEL]);
  }

  /** The last stage deals with the number in its hand, and has room. */
  lemma LastOk(size: nat, max: int, st: Stage, hi: int, closed: bool)
    requires StageOk(size, max, st, hi, closed, None) && !st.done && st.hand != [] && st.hand[0] != SENTINEL
    requires Free(st.hand[0], st.primes) ==> st.count < size
    ensures var n := st.hand[0];
            var st' := if Free(n, st.primes) then Eaten(st).(primes := st.primes + [n], count := st.count + 1)
                       else Eaten(st);
            StageOk(size, max, st', hi, closed, None)
    ensures PrimesIn(2, st.hand[0] + 1)
         == PrimesIn(2, st.upto) + if Free(st.hand[0], st.primes) then [st.hand[0]] else []
  {
    var a, n := First(st), st.hand[0];
    HeadIsNext(st, a, hi, closed);
    LastFilter(a, st.upto, n);
    PrimesGap(a, st.upto, n);
    PrimesGap(2, st.upto, n);
  }

  /** The last stage is full: the number that gets through starts the next one. */
  lemma SplitOk(size: nat, max: int, st: Stage, hi: int, closed: bool)
    requires StageOk(size, max, st, hi, closed, None) && !st.done && st.hand != [] && st.hand[0] != SENTINEL
    requires Free(st.hand[0], st.primes) && st.count == size >= 1
    ensures StageOk(size, max, Eaten(st).(count := st.count + 1), hi, closed, Some(st.hand[0]))
    ensures StageOk(size, max, Stage([st.hand[0]], 1, [], [], false, st.hand[0] + 1), st.hand[0] + 1, false, None)
    ensures PrimesIn(2, st.hand[0] + 1) == PrimesIn(2, st.upto) + [st.hand[0]]
  {
    var a, n := First(st), st.hand[0];
    HeadIsNext(st, a, hi, closed);
    LastFilter(a, st.upto, n);
    PrimesGap(a, st.upto, n);
    PrimesGap(2, st.upto, n);
    assert PrimesIn(n, n + 1) == [n] by { assert PrimesIn(n, n) == []; }
  }

  // ---------------------------------------------------------------------------------------
  // Every step keeps the invariant
  // ---------------------------------------------------------------------------------------

  lemma MovedAt(s: Net, k: nat, st: Stage, out: seq<int>, j: nat)
    requires k < |s.stages| && j < |s.stages| && j != k && j != k + 1 && At(s, j) && First(st) == First(s.stages[k])
    ensures At(Moved(s, k, st, out), j)
  {
  }

  lemma MovedInv(s: Net, k: nat, st: Stage, out: seq<int>)
    requires Inv(s) && k < |s.stages|
    requires StageOk(s.size, s.max, st, Hi(s, k), Closed(s, k), Follower(s, k))
    requires First(st) == First(s.stages[k])
    requires k + 1 < |s.stages| ==>
               StageOk(s.size, s.max, s.stages[k + 1].(queue := s.stages[k + 1].queue + out), st.upto, st.done,
                       Follower(s, k + 1))
    requires k + 1 == |s.stages| ==> s.sink + out == PrimesIn(2, st.upto) + (if st.done then [SENTINEL] else [])
    ensures Inv(Moved(s, k, st, out))
  {
    var s' := Moved(s, k, st, out);
    forall j | 0 <= j < |s'.stages| ensures At(s', j) {
      if j != k && j != k + 1 { MovedAt(s, k, st, out, j); }
    }
  }

  /** The first stage takes in the next number, or the end. */
  lemma SourceOk(size: nat, max: int, st: Stage, next: int, follower: Option<int>)
    requires StageOk(size, max, st, next, false, follower) && First(st) == 2
    ensures StageOk(size, max, st.(queue := st.queue + [next]), next + 1, false, follower)
    ensures StageOk(size, max, st.(queue := st.queue + [SENTINEL]), next, true, follower)
  {
    PutAhead(st, [next]);
    PutAhead(st, [SENTINEL]);
  }

  lemma SourceInv(s: Net, s': Net)
    requires Inv(s) && SourceStep(s, s')
    ensures Inv(s')
  {
    assert At(s, 0);
    SourceOk(s.size, s.max, s.stages[0], s.next, Follower(s, 0));
    forall j | 0 <= j < |s'.stages| ensures At(s', j) {
      if j > 0 { assert At(s, j); }
    }
  }

  /** The end of the input is the end of the numbers. */
  lemma ClosedAtMax(s: Net, k: nat)
    requires Inv(s) && k < |s.stages| && Closed(s, k)
    ensures Hi(s, k) == s.max + 1
  {
    if k > 0 { assert At(s, k - 1); }
  }

  lemma StopLastInv(s: Net, s': Net, k: nat)
    requires Inv(s) && Stop(s, s', k) && k + 1 == |s.stages|
    ensures Inv(s')
  {
    assert At(s, k);
    if Closed(s, k) { ClosedAtMax(s, k); }
    var st := s.stages[k];
    StopOk(s.size, s.max, st, Hi(s, k), Closed(s, k), Follower(s, k));
    MovedInv(s, k, st.(hand := [], done := true, upto := s.max + 1), [SENTINEL]);
  }

  lemma StopInv(s: Net, s': Net, k: nat)
    requires Inv(s) && Stop(s, s', k) && k + 1 < |s.stages|
    ensures Inv(s')
  {
    assert At(s, k) && At(s, k + 1);
    if Closed(s, k) { ClosedAtMax(s, k); }
    var st, after := s.stages[k], s.stages[k + 1];
    StopOk(s.size, s.max, st, Hi(s, k), Closed(s, k), Some(First(after)));
    CloseOk(s.size, s.max, st, Hi(s, k), Closed(s, k), after, Follower(s, k + 1));
    MovedInv(s, k, st.(hand := [], done := true, upto := s.max + 1), [SENTINEL]);
  }

  lemma GetInv(s: Net, s': Net, k: nat)
    requires Inv(s) && Get(s, s', k)
    ensures Inv(s')
  {
    assert At(s, k);
    GotOk(s.size, s.max, s.stages[k], Hi(s, k), Closed(s, k), Follower(s, k));
    if k + 1 < |s.stages| {
      assert At(s, k + 1);
      assert s.stages[k + 1].queue + [] == s.stages[k + 1].queue;
    }
    MovedInv(s, k, Got(s.stages[k]), []);
  }

  /** The primes of a stage are in order and below the number it looks at, so its test is right. */
  lemma TestIsFree(s: Net, k: nat)
    requires Inv(s) && Takes(s, k)
    ensures Passes(s.stages[k].hand[0], s.stages[k].primes) <==> Free(s.stages[k].hand[0], s.stages[k].primes)
  {
    assert At(s, k);
    var st, follower := s.stages[k], Follower(s, k);
    HeadIsNext(st, First(st), Hi(s, k), Closed(s, k));
    var hi := if follower.None? then st.upto else follower.value;
    PrimesMeans(First(st), hi);
    assert forall i :: 0 <= i < |st.primes| ==> st.primes[i] in PrimesIn(First(st), hi);
    PassesIsFree(st.hand[0], st.primes);
  }

  /** A stage with a follower takes a number: it lets it through, or not. */
  lemma MiddleMoved(s: Net, k: nat, count: nat, out: seq<int>)
    requires Inv(s) && Takes(s, k) && k + 1 < |s.stages| && count >= s.stages[k].count
    requires out == if Free(s.stages[k].hand[0], s.stages[k].primes) then [s.stages[k].hand[0]] else []
    ensures Inv(Moved(s, k, Eaten(s.stages[k]).(count := count), out))
  {
    assert At(s, k) && At(s, k + 1);
    var st, after := s.stages[k], s.stages[k + 1];
    FeedOk(s.size, s.max, st, Hi(s, k), Closed(s, k), after, Follower(s, k + 1));
    EatOk(s.size, s.max, st, Hi(s, k), Closed(s, k), First(after), count);
    MovedInv(s, k, Eaten(st).(count := count), out);
  }

  lemma MiddleInv(s: Net, s': Net, k: nat)
    requires Inv(s) && k + 1 < |s.stages| && (Drop(s, s', k) || Pass(s, s', k))
    ensures Inv(s')
  {
    TestIsFree(s, k);
    var st := s.stages[k];
    if Free(st.hand[0], st.primes) {
      MiddleMoved(s, k, st.count + 1, [st.hand[0]]);
    } else {
      MiddleMoved(s, k, st.count, []);
    }
  }

  /** The last stage drops or keeps. */
  lemma LastInv(s: Net, s': Net, k: nat)
    requires Inv(s) && k + 1 == |s.stages| && (Drop(s, s', k) || Keep(s, s', k))
    ensures Inv(s')
  {
    assert At(s, k);
    TestIsFree(s, k);
    var st := s.stages[k];
    LastOk(s.size, s.max, st, Hi(s, k), Closed(s, k));
    var n := st.hand[0];
    if Free(n, st.primes) {
      MovedInv(s, k, Eaten(st).(primes := st.primes + [n], count := st.count + 1), [n]);
    } else {
      MovedInv(s, k, Eaten(st), []);
    }
  }

  /** The network after the last stage, k, has split. */
  function Split(s: Net, k: nat): Net
    requires k + 1 == |s.stages| && s.stages[k].hand != []
  {
    var st := s.stages[k];
    s.(stages := s.stages[k := Eaten(st).(count := st.count + 1)]
               + [Stage([st.hand[0]], 1, [], [], false, st.hand[0] + 1)],
       sink := s.sink + [st.hand[0]])
  }

  lemma SpawnShape(s: Net, s': Net, k: nat)
    requires Spawn(s, s', k) && k + 1 == |s.stages|
    ensures s' == Split(s, k)
  {
  }

  lemma SplitEnds(s: Net, k: nat)
    requires k + 1 == |s.stages| && At(s, k) && Takes(s, k) && s.size >= 1
    requires Free(s.stages[k].hand[0], s.stages[k].primes) && s.stages[k].count == s.size
    ensures At(Split(s, k), k) && At(Split(s, k), k + 1)
    ensures PrimesIn(2, s.stages[k].hand[0] + 1) == PrimesIn(2, s.stages[k].upto) + [s.stages[k].hand[0]]
  {
    var st, s' := s.stages[k], Split(s, k);
    SplitOk(s.size, s.max, st, Hi(s, k), Closed(s, k));
    assert Hi(s', k) == Hi(s, k) && Closed(s', k) == Closed(s, k) && Follower(s', k) == Some(st.hand[0]);
    assert Hi(s', k + 1) == st.hand[0] + 1 && Closed(s', k + 1) == false && Follower(s', k + 1) == None;
  }

  lemma SplitInv(s: Net, k: nat)
    requires Inv(s) && Takes(s, k) && k + 1 == |s.stages|
    requires Free(s.stages[k].hand[0], s.stages[k].primes) && s.stages[k].count == s.size
    ensures Inv(Split(s, k))
  {
    assert At(s, k);
    SplitEnds(s, k);
    var s' := Split(s, k);
    forall j | 0 <= j < |s'.stages| ensures At(s', j) {
      if j < k { SpawnAt(s, s', s'.stages[k], s'.stages[k + 1], k, j); }
    }
  }

  lemma SpawnInv(s: Net, s': Net, k: nat)
    requires Inv(s) && k + 1 == |s.stages| && Spawn(s, s', k)
    ensures Inv(s')
  {
    TestIsFree(s, k);
    SpawnShape(s, s', k);
    SplitInv(s, k);
  }

  /** The stages before the one that splits notice nothing. */
  lemma SpawnAt(s: Net, s': Net, st: Stage, child: Stage, k: nat, j: nat)
    requires j < k < |s.stages| && At(s, j) && First(st) == First(s.stages[k])
    requires s'.stages == s.stages[k := st] + [child] && s'.next == s.next && s'.sourceDone == s.sourceDone
    requires s'.size == s.size && s'.max == s.max
    ensures At(s', j)
  {
  }

  lemma ConsumeInv(s: Net, s': Net)
    requires Inv(s) && Consume(s, s')
    ensures Inv(s')
  {
    forall j | 0 <= j < |s'.stages| ensures At(s', j) { assert At(s, j); }
  }

  lemma StepInv(s: Net, s': Net)
    requires Inv(s) && Step(s, s')
    ensures Inv(s') && s'.max == s.max && s'.size == s.size
  {
    if SourceStep(s, s') {
      SourceInv(s, s');
    } else if Consume(s, s') {
      ConsumeInv(s, s');
    } else {
      var k: nat :| Get(s, s', k) || Deal(s, s', k);
      if Get(s, s', k) { GetInv(s, s', k); } else { DealInv(s, s', k); }
    }
  }

  lemma DealInv(s: Net, s': Net, k: nat)
    requires Inv(s) && Deal(s, s', k)
    ensures Inv(s') && s'.max == s.max && s'.size == s.size
  {
    assert At(s, k);
    if Stop(s, s', k) {
      if k + 1 < |s.stages| { StopInv(s, s', k); } else { StopLastInv(s, s', k); }
    }
    else if k + 1 < |s.stages| { MiddleInv(s, s', k); }
    else if Spawn(s, s', k) { SpawnInv(s, s', k); }
    else { LastInv(s, s', k); }
  }

  lemma {:induction false} RunInv(ss: seq<Net>, n: nat)
    requires Run(ss) && n < |ss|
    ensures Inv(ss[n]) && ss[n].max == ss[0].max && ss[n].size == ss[0].size
    decreases n
  {
    if n == 0 {
      InitInv(ss[0]);
    } else {
      RunInv(ss, n - 1);
      RunStep(ss, n);
      StepInv(ss[n - 1], ss[n]);
    }
  }

  lemma OnlyTwo()
    ensures Prime(2) && PrimesIn(2, 3) == [2]
  {
    assert Prime(2) && PrimesIn(2, 2) == [];
  }

  lemma InitInv(s: Net)
    requires Init(s)
    ensures Inv(s)
  {
    OnlyTwo();
    assert Sift(2, 3, 3) == [];
    assert At(s, 0);
  }

  lemma RunStep(ss: seq<Net>, n: nat)
    requires Run(ss) && 0 < n < |ss|
    ensures Step(ss[n - 1], ss[n])
  {
    var i := n - 1;
    assert Step(ss[i], ss[i + 1]);
  }

  // ---------------------------------------------------------------------------------------
  // What holds of every run
  // ---------------------------------------------------------------------------------------

  predicate Finished(s: Net) {
    s.stages != [] && s.stages[|s.stages| - 1].done
  }

  /**
   Whatever the order of steps, the output is always a beginning of the primes, and in the end all of
   them and the sentinel.
   */
  lemma OutputIsPrimes(ss: seq<Net>, n: nat)
    requires Run(ss) && n < |ss|
    ensures !Finished(ss[n]) ==> ss[n].sink <= PrimesIn(2, ss[0].max + 1)
    ensures Finished(ss[n]) ==> ss[n].sink == PrimesIn(2, ss[0].max + 1) + [SENTINEL]
  {
    RunInv(ss, n);
    var s := ss[n];
    var last := s.stages[|s.stages| - 1];
    assert At(s, |s.stages| - 1);
    UptoBound(s, |s.stages| - 1);
    PrimesJoin(2, last.upto, s.max + 1);
  }

  lemma {:induction false} UptoBound(s: Net, k: nat)
    requires Inv(s) && k < |s.stages|
    ensures s.stages[k].upto <= s.max + 1
  {
    assert At(s, k);
    if k > 0 { UptoBound(s, k - 1); }
  }

  function Concat(stages: seq<Stage>): seq<int> {
    if stages == [] then [] else Concat(stages[..|stages| - 1]) + stages[|stages| - 1].primes
  }

  /** The stages share out the primes found so far in order, and all but the last are full. */
  lemma StagesShareOut(ss: seq<Net>, n: nat)
    requires Run(ss) && n < |ss|
    ensures var s := ss[n];
            && s.stages != []
            && Concat(s.stages) == PrimesIn(2, s.stages[|s.stages| - 1].upto)
            && (forall k :: 0 <= k < |s.stages| - 1 ==> |s.stages[k].primes| == s.size)
            && 1 <= |s.stages[|s.stages| - 1].primes| <= s.size
            && (Finished(s) ==> s.stages[|s.stages| - 1].upto == s.max + 1)
  {
    RunInv(ss, n);
    var s := ss[n];
    var last := |s.stages| - 1;
    forall k | 0 <= k < last ensures |s.stages[k].primes| == s.size { assert At(s, k); }
    assert At(s, last);
    ConcatUpTo(s, last);
    PrimesMeans(First(s.stages[last]), s.stages[last].upto);
    assert First(s.stages[last]) in PrimesIn(First(s.stages[last]), s.stages[last].upto);
    PrimesJoin(2, First(s.stages[last]), s.stages[last].upto);
  }

  lemma {:induction false} ConcatUpTo(s: Net, k: nat)
    requires Inv(s) && k < |s.stages|
    ensures 2 <= First(s.stages[k]) && Concat(s.stages[..k]) == PrimesIn(2, First(s.stages[k]))
  {
    if k > 0 {
      ConcatUpTo(s, k - 1);
      assert At(s, k - 1) && At(s, k);
      assert s.stages[..k][..k - 1] == s.stages[..k - 1];
      PrimesJoin(2, First(s.stages[k - 1]), First(s.stages[k]));
    }
  }

  // ---------------------------------------------------------------------------------------
  // The network always comes to its end
  // ---------------------------------------------------------------------------------------

  lemma DoneIsEmpty(s: Net, k: nat)
    requires Inv(s) && k < |s.stages| && s.stages[k].done
    ensures Ahead(s.stages[k]) == [] && Closed(s, k)
  {
    assert At(s, k);
    UptoBound(s, k);
    if k > 0 { UptoBound(s, k - 1); }
  }

  /** A stage with a number in hand and room behind it can go on. */
  lemma StageCanDeal(s: Net, k: nat)
    requires Inv(s) && k < |s.stages| && s.stages[k].hand != [] && Room(s, k)
    ensures exists s' :: Step(s, s')
  {
    assert At(s, k);
    if s.stages[k].done { DoneIsEmpty(s, k); }
    var st := s.stages[k];
    var n := st.hand[0];
    var s' :=
      if n == SENTINEL then Moved(s, k, st.(hand := [], done := true, upto := s.max + 1), [SENTINEL])
      else if !Passes(n, st.primes) then Moved(s, k, Eaten(st), [])
      else if st.count < s.size then Moved(s, k, Eaten(st).(primes := st.primes + [n], count := st.count + 1), [n])
      else
        var t := Moved(s, k, Eaten(st).(count := st.count + 1), [n]);
        if st.count == s.size then t.(stages := t.stages[..k + 1] + [Stage([n], 1, [], [], false, n + 1)]) else t;
    assert Deal(s, s', k);
    assert Step(s, s');
  }

  /** A stage with an empty hand and something in its queue can get it. */
  lemma StageCanGet(s: Net, k: nat)
    requires Inv(s) && k < |s.stages| && s.stages[k].hand == [] && s.stages[k].queue != []
    ensures exists s' :: Step(s, s')
  {
    if s.stages[k].done { DoneIsEmpty(s, k); }
    var s' := Moved(s, k, Got(s.stages[k]), []);
    assert Get(s, s', k);
    assert Step(s, s');
  }

  /** With nothing before the stages up to k and the source done, stage k is done. */
  lemma {:induction false} DryMeansDone(s: Net, k: nat)
    requires Inv(s) && s.sourceDone && k < |s.stages| && forall j :: 0 <= j <= k ==> Ahead(s.stages[j]) == []
    ensures s.stages[k].done
  {
    assert At(s, k);
    if k > 0 { DryMeansDone(s, k - 1); }
  }

  /** The bounded queues never lock up: until the sentinel is out and taken, somebody can go on. */
  lemma {:induction false} CanGo(s: Net, k: nat)
    requires Inv(s) && (!Finished(s) || s.taken < |s.sink|) && k <= |s.stages|
    requires forall j :: k <= j < |s.stages| ==> Ahead(s.stages[j]) == []
    ensures exists s' :: Step(s, s')
  {
    if s.taken < |s.sink| {
      assert Consume(s, s.(taken := s.taken + 1));
      assert Step(s, s.(taken := s.taken + 1));
    } else if k == 0 {
      assert Ahead(s.stages[0]) == [];
      if !s.sourceDone { SourceCanGo(s); } else { DryMeansDone(s, |s.stages| - 1); }
    } else if s.stages[k - 1].hand != [] {
      assert k < |s.stages| ==> Ahead(s.stages[k]) == [];
      StageCanDeal(s, k - 1);
    } else if s.stages[k - 1].queue != [] {
      StageCanGet(s, k - 1);
    } else {
      CanGo(s, k - 1);
    }
  }

  lemma SourceCanGo(s: Net)
    requires Inv(s) && !s.sourceDone && s.stages[0].queue == []
    ensures exists s' :: Step(s, s')
  {
    var st := s.stages[0];
    var s' := if s.next <= s.max
              then s.(next := s.next + 1, stages := s.stages[0 := st.(queue := st.queue + [s.next])])
              else s.(sourceDone := true, stages := s.stages[0 := st.(queue := st.queue + [SENTINEL])]);
    assert SourceStep(s, s');
    assert Step(s, s');
  }

  lemma NeverLocksUp(ss: seq<Net>, n: nat)
    requires Run(ss) && n < |ss| && (!Finished(ss[n]) || ss[n].taken < |ss[n].sink|)
    ensures exists s' :: Step(ss[n], s')
  {
    RunInv(ss, n);
    CanGo(ss[n], |ss[n].stages|);
  }

  function Power(n: nat): nat {
    if n == 0 then 1 else 3 * Power(n - 1)
  }

  lemma {:induction false} PowerGrows(m: nat, n: nat)
    requires m < n
    ensures Power(n) >= 3 * Power(m) && Power(m) >= 1
  {
    if m + 1 < n { PowerGrows(m, n - 1); } else if m > 0 { PowerGrows(m - 1, m); }
  }

  /** What a stage may still do: it has numbers from upto on before it, and each can double the work. */
  function Work(max: int, st: Stage): nat {
    if st.done || st.upto > max + 1 then 0 else Power(max + 2 - st.upto)
  }

  /** The numbers in its queue it has still to get. */
  function Load(max: int, st: Stage): nat {
    Work(max, st) + |st.queue|
  }

  function TotalLoad(max: int, stages: seq<Stage>): nat {
    if stages == [] then 0 else TotalLoad(max, stages[..|stages| - 1]) + Load(max, stages[|stages| - 1])
  }

  function Measure(s: Net): int {
    TotalLoad(s.max, s.stages) + 2 * (s.max + 1 - s.next) + (if s.sourceDone then 0 else 2) + |s.sink| - s.taken
  }

  lemma {:induction false} LoadUpdate(max: int, stages: seq<Stage>, k: nat, st: Stage)
    requires k < |stages|
    ensures TotalLoad(max, stages[k := st]) == TotalLoad(max, stages) - Load(max, stages[k]) + Load(max, st)
  {
    var n := |stages| - 1;
    if k < n {
      LoadUpdate(max, stages[..n], k, st);
      assert stages[k := st][..n] == stages[..n][k := st];
    } else {
      assert stages[k := st][..n] == stages[..n];
    }
  }

  /** Dealing with a number takes at least two thirds off the work of a stage. */
  lemma EatenWork(s: Net, k: nat)
    requires Inv(s) && Takes(s, k)
    ensures Work(s.max, s.stages[k]) >= 3 * Work(s.max, Eaten(s.stages[k])) && Work(s.max, Eaten(s.stages[k])) >= 3
  {
    assert At(s, k);
    var st := s.stages[k];
    HeadIsNext(st, First(st), Hi(s, k), Closed(s, k));
    if k > 0 { UptoBound(s, k - 1); }
    PowerGrows(s.max + 1 - st.hand[0], s.max + 2 - st.upto);
    PowerGrows(0, s.max + 1 - st.hand[0]);
  }

  lemma MovedShrinks(s: Net, k: nat, st: Stage, out: seq<int>)
    requires k < |s.stages| && Load(s.max, st) + |out| < Load(s.max, s.stages[k])
    ensures Measure(Moved(s, k, st, out)) < Measure(s)
  {
    LoadUpdate(s.max, s.stages, k, st);
    if k + 1 < |s.stages| {
      var after := s.stages[k + 1];
      LoadUpdate(s.max, s.stages[k := st], k + 1, after.(queue := after.queue + out));
    }
  }

  lemma StageStepShrinks(s: Net, s': Net, k: nat)
    requires Inv(s) && (Drop(s, s', k) || Keep(s, s', k) || Spawn(s, s', k) || Pass(s, s', k))
    ensures Measure(s') < Measure(s)
  {
    EatenWork(s, k);
    var st := s.stages[k];
    if Drop(s, s', k) {
      MovedShrinks(s, k, Eaten(st), []);
    } else if Keep(s, s', k) {
      MovedShrinks(s, k, Eaten(st).(primes := st.primes + [st.hand[0]], count := st.count + 1), [st.hand[0]]);
    } else if Pass(s, s', k) {
      MovedShrinks(s, k, Eaten(st).(count := st.count + 1), [st.hand[0]]);
    } else {
      SpawnShrinks(s, s', k);
    }
  }

  lemma SpawnShrinks(s: Net, s': Net, k: nat)
    requires Inv(s) && Spawn(s, s', k)
    ensures Measure(s') < Measure(s)
  {
    SpawnIsLast(s, k);
    SpawnShape(s, s', k);
    EatenWork(s, k);
    SplitShrinks(s, k);
  }

  lemma SplitShrinks(s: Net, k: nat)
    requires k + 1 == |s.stages| && s.stages[k].hand != []
    requires Work(s.max, s.stages[k]) >= 3 * Work(s.max, Eaten(s.stages[k])) && Work(s.max, Eaten(s.stages[k])) >= 3
    ensures Measure(Split(s, k)) < Measure(s)
  {
    var st := s.stages[k];
    var st', child := Eaten(st).(count := st.count + 1), Stage([st.hand[0]], 1, [], [], false, st.hand[0] + 1);
    LoadUpdate(s.max, s.stages, k, st');
    LoadAppend(s.max, s.stages[k := st'], child);
    assert Work(s.max, child) <= Work(s.max, Eaten(st).(done := false));
  }

  /** Only the last stage is exactly full. */
  lemma SpawnIsLast(s: Net, k: nat)
    requires Inv(s) && k < |s.stages| && s.stages[k].count == s.size
    ensures k + 1 == |s.stages|
  {
    assert At(s, k);
  }

  lemma LoadAppend(max: int, stages: seq<Stage>, st: Stage)
    ensures TotalLoad(max, stages + [st]) == TotalLoad(max, stages) + Load(max, st)
  {
    assert (stages + [st])[..|stages|] == stages;
  }

  lemma SourceShrinks(s: Net, s': Net)
    requires Inv(s) && SourceStep(s, s')
    ensures Measure(s') < Measure(s)
  {
    LoadUpdate(s.max, s.stages, 0, s'.stages[0]);
  }

  lemma StopShrinks(s: Net, s': Net, k: nat)
    requires Inv(s) && Stop(s, s', k)
    ensures Measure(s') < Measure(s)
  {
    var st := s.stages[k];
    UptoBound(s, k);
    PowerGrows(0, s.max + 2 - st.upto);
    MovedShrinks(s, k, st.(hand := [], done := true, upto := s.max + 1), [SENTINEL]);
  }

  /** Every step leaves less to do, so no run goes on for ever, and with NeverLocksUp every run can be finished. */
  lemma StepShrinks(s: Net, s': Net)
    requires Inv(s) && Step(s, s')
    ensures Measure(s') < Measure(s)
  {
    if SourceStep(s, s') {
      SourceShrinks(s, s');
    } else if !Consume(s, s') {
      var k: nat :| Get(s, s', k) || Deal(s, s', k);
      if Get(s, s', k) { MovedShrinks(s, k, Got(s.stages[k]), []); }
      else if Stop(s, s', k) { StopShrinks(s, s', k); }
      else { StageStepShrinks(s, s', k); }
    }
  }

  lemma RunsEnd(ss: seq<Net>)
    requires Run(ss)
    ensures |ss| <= Measure(ss[0]) + 1
  {
    RunShrinks(ss, |ss| - 1);
  }

  lemma {:induction false} RunShrinks(ss: seq<Net>, n: nat)
    requires Run(ss) && n < |ss|
    ensures 0 <= Measure(ss[n]) <= Measure(ss[0]) - n
    decreases n
  {
    RunInv(ss, n);
    if n > 0 {
      RunShrinks(ss, n - 1);
      RunInv(ss, n - 1);
      RunStep(ss, n);
      StepShrinks(ss[n - 1], ss[n]);
    }
  }
}
