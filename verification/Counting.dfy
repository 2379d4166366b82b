/** Cardinalities, remainders and a little about runs, shared by the other modules. */
module Counting {

  /** One past the largest 64-bit word. */
  const WORD: nat := 0x1_0000_0000_0000_0000

  datatype Option<T> = None | Some(value: T)

  /** The naturals below n. */
  ghost function Upto(n: nat): (r: set<int>)
    ensures forall x :: x in r <==> 0 <= x < n
    ensures |r| == n
  {
    if n == 0 then {} else Upto(n - 1) + {n - 1}
  }

  ghost function Elements<T>(q: seq<T>): set<T> {
    set x | x in q
  }

  ghost predicate Distinct<T>(q: seq<T>) {
    forall i, j :: 0 <= i < j < |q| ==> q[i] != q[j]
  }

  lemma {:induction false} DistinctCard<T>(q: seq<T>)
    requires Distinct(q)
    ensures |Elements(q)| == |q|
  {
    if q == [] {
      assert Elements(q) == {};
    } else {
      var rest := q[..|q| - 1];
      DistinctCard(rest);
      assert q == rest + [q[|q| - 1]];
      assert Elements(q) == Elements(rest) + {q[|q| - 1]};
    }
  }

  /** A map that sends no two keys to one value has as many values as keys. */
  lemma {:induction false} InjectiveCard<K, V>(m: map<K, V>)
    requires forall j, k :: j in m && k in m && m[j] == m[k] ==> j == k
    ensures |m.Values| == |m.Keys|
    decreases |m|
  {
    if m.Keys == {} {
      assert m.Values == {};
    } else {
      var k :| k in m.Keys;
      var rest := m - {k};
      InjectiveCard(rest);
      assert rest.Keys == m.Keys - {k};
      forall v | v in m.Values ensures v in rest.Values + {m[k]} {
        var j :| j in m && m[j] == v;
        assert j != k ==> j in rest && rest[j] == v;
      }
      assert m[k] !in rest.Values;
      assert m.Values == rest.Values + {m[k]};
    }
  }

  /** A set of naturals below n has at most n members, and n only if it is all of them. */
  lemma SubsetCard(s: set<int>, n: nat)
    requires forall x :: x in s ==> 0 <= x < n
    ensures |s| <= n
    ensures |s| == n ==> s == Upto(n)
  {
    var rest := Upto(n) - s;
    assert Upto(n) == s + rest;
    assert |Upto(n)| == |s| + |rest|;
  }

  /** n different naturals below n are all of them. */
  lemma FullIff(q: seq<int>, n: nat)
    requires Distinct(q) && forall i :: 0 <= i < |q| ==> 0 <= q[i] < n
    ensures |q| == n <==> forall x :: 0 <= x < n ==> x in q
  {
    DistinctCard(q);
    SubsetCard(Elements(q), n);
    if |q| == n {
      forall x | 0 <= x < n ensures x in q { assert x in Upto(n); }
    }
    if forall x :: 0 <= x < n ==> x in q {
      assert Elements(q) == Upto(n);
    }
  }

  lemma {:induction false} SubsetSize<T>(s: set<T>, t: set<T>)
    requires s <= t
    ensures |s| <= |t|
  {
    assert t == s + (t - s);
  }

  /** A set of fewer than n naturals below n misses one. */
  lemma MissingOne(s: set<int>, n: nat) returns (j: int)
    requires forall x :: x in s ==> 0 <= x < n
    requires |s| < n
    ensures 0 <= j < n && j !in s
  {
    var rest := Upto(n) - s;
    assert Upto(n) == s + rest;
    assert |Upto(n)| == |s| + |rest|;
    j :| j in rest;
  }

  /** Two lists without repetition and a set that share out 0..n-1 have n members together. */
  lemma SharesCard(a: seq<int>, b: seq<int>, c: set<int>, n: nat)
    requires Distinct(a) && Distinct(b)
    requires forall x :: x in a || x in b || x in c ==> 0 <= x < n
    requires forall x :: 0 <= x < n ==> x in a || x in b || x in c
    requires forall x :: !(x in a && x in b) && !(x in a && x in c) && !(x in b && x in c)
    ensures |a| + |b| + |c| == n
  {
    DistinctCard(a);
    DistinctCard(b);
    var ab := Elements(a) + Elements(b);
    assert Elements(a) !! Elements(b);
    assert |ab| == |a| + |b|;
    assert ab !! c && Upto(n) == ab + c;
    assert |ab + c| == |ab| + |c|;
  }

  lemma MulAtLeast(n: nat, d: int)
    requires d >= 1
    ensures n * d >= n
  {
    assert n * d == n * (d - 1) + n;
  }

  lemma DivMod(x: int, n: nat, q: int, r: int)
    requires n > 0 && x == n * q + r && 0 <= r < n
    ensures x % n == r
  {
    var q', r' := x / n, x % n;
    assert x == n * q' + r';
    assert n * (q' - q) == r - r' && n * (q - q') == r' - r;
    if q' > q { MulAtLeast(n, q' - q); }
    if q' < q { MulAtLeast(n, q - q'); }
  }

  lemma MulMono(a: nat, b: nat, n: nat)
    requires a <= b
    ensures a * n <= b * n
  {
    assert b * n == a * n + (b - a) * n;
    assert (b - a) * n >= 0;
  }

  lemma DivBetween(x: nat, n: nat, lo: nat, hi: nat)
    requires n > 0 && lo * n <= x < hi * n
    ensures lo <= x / n < hi
  {
    var q := x / n;
    assert q * n <= x < (q + 1) * n;
    assert q + 1 <= lo ==> (q + 1) * n <= lo * n by { if q + 1 <= lo { MulMono(q + 1, lo, n); } }
    assert hi <= q ==> hi * n <= q * n by { if hi <= q { MulMono(hi, q, n); } }
  }

  /** Something that holds at first and is lost only by a miss holds up to n exactly when there is no miss before n. */
  lemma {:induction false} NoMissBefore(covered: seq<bool>, missed: seq<bool>, n: nat)
    requires n < |covered| == |missed| + 1 && covered[0]
    requires forall i :: 0 < i < |covered| && covered[i - 1] ==> (covered[i] <==> !missed[i - 1])
    ensures (forall i :: 0 <= i <= n ==> covered[i]) <==> (forall i :: 0 <= i < n ==> !missed[i])
    decreases n
  {
    if n > 0 {
      NoMissBefore(covered, missed, n - 1);
      assert covered[n - 1] ==> (covered[n] <==> !missed[n - 1]);
      assert (forall i :: 0 <= i <= n ==> covered[i]) <==> (forall i :: 0 <= i <= n - 1 ==> covered[i]) && covered[n];
      assert (forall i :: 0 <= i < n ==> !missed[i]) <==> (forall i :: 0 <= i < n - 1 ==> !missed[i]) && !missed[n - 1];
    }
  }

  /** Every element of a sequence is followed by one it may be followed by. */
  ghost predicate Linked<T>(ts: seq<T>, ok: (T, T) -> bool) {
    ts != [] && forall i :: 0 < i < |ts| ==> ok(ts[i - 1], ts[i])
  }

  lemma LinkedJoin<T>(ts: seq<T>, ts': seq<T>, ok: (T, T) -> bool)
    requires Linked(ts, ok) && Linked(ts', ok) && ts[|ts| - 1] == ts'[0]
    ensures var all := ts + ts'[1..];
            Linked(all, ok) && all[0] == ts[0] && all[|all| - 1] == ts'[|ts'| - 1]
  {
    var all := ts + ts'[1..];
    forall i | 0 < i < |all| ensures ok(all[i - 1], all[i]) {
      if i >= |ts| { assert all[i - 1] == ts'[i - |ts|] && all[i] == ts'[i - |ts| + 1]; }
    }
  }
}
