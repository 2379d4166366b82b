/**
 The statically allocated hash table: open addressing, a bit per slot for "allocated" and one
 for "placeholder" (a slot whose entry was removed but which still links a probe chain), a
 left sweep that clears placeholders at the end of a chain, and a rehash in place.

 The two bitsets are sets of slot numbers here; Bitset shows that the packed form is one.
 Module Slots holds the table as a value and the meaning of each loop; class Table in module
 Hashtable runs the loops.
 */
module Slots {
  import opened Counting

  datatype Entry<K, V> = Entry(key: K, val: V)

  datatype Slots<K, V> = Slots(at: seq<Entry<K, V>>, alloc: set<int>, holes: set<int>)

  /** Slot arithmetic: the next slot, and the slot d steps on from i. */
  function Next(n: nat, i: int): int {
    if i + 1 == n then 0 else i + 1
  }

  function Ahead(n: nat, i: int, d: int): int {
    if i + d < n then i + d else i + d - n
  }

  /** How many steps it takes to get from i to j. */
  function Dist(n: nat, i: int, j: int): int {
    if i <= j then j - i else j - i + n
  }

  lemma NextIsMod(n: nat, i: int)
    requires 0 <= i < n
    ensures (i + 1) % n == Next(n, i)
  {
  }

  /** The slot to the left as the source computes it: a signed subtraction, then an unsigned 64-bit remainder. */
  function Left(n: nat, i: int): int
    requires n > 0
  {
    ((i - 1) % WORD) % n
  }

  /** The true cyclic predecessor. */
  function Before(n: nat, i: int): int {
    if i == 0 then n - 1 else i - 1
  }

  lemma LeftOfZero(n: nat)
    requires n > 0
    ensures Left(n, 0) == if WORD % n == 0 then n - 1 else WORD % n - 1
  {
    var q, r := WORD / n, WORD % n;
    assert WORD == n * q + r;
    if r == 0 {
      assert n * (q - 1) == n * q - n;
      DivMod(WORD - 1, n, q - 1, n - 1);
    } else {
      DivMod(WORD - 1, n, q, r - 1);
    }
  }

  lemma LeftOfPositive(n: nat, i: int)
    requires 0 < i < n <= WORD
    ensures Left(n, i) == i - 1
  {
  }

  /** The source's left step is the cyclic predecessor at every slot exactly when num_slots divides 2^64. */
  lemma LeftIsBeforeIff(n: nat)
    requires 0 < n <= WORD
    ensures (forall i :: 0 <= i < n ==> Left(n, i) == Before(n, i)) <==> WORD % n == 0
  {
    LeftOfZero(n);
    forall i | 0 < i < n ensures Left(n, i) == Before(n, i) {
      LeftOfPositive(n, i);
    }
  }

  // ---------------------------------------------------------------------------------------
  // The table and the map it stands for
  // ---------------------------------------------------------------------------------------

  ghost predicate Live<K, V>(t: Slots<K, V>, i: int) {
    0 <= i < |t.at| && i in t.alloc && i !in t.holes
  }

  function Home<K, V>(h: K -> nat, t: Slots<K, V>, k: K): int
    requires |t.at| > 0
  {
    h(k) % |t.at|
  }

  /** Every slot from a live key's home up to its own slot is allocated. */
  ghost predicate Chained<K, V>(h: K -> nat, t: Slots<K, V>, i: int)
    requires 0 <= i < |t.at|
  {
    var home := Home(h, t, t.at[i].key);
    forall j :: 0 <= j < |t.at| && Dist(|t.at|, home, j) <= Dist(|t.at|, home, i) ==> j in t.alloc
  }

  ghost predicate Valid<K, V>(h: K -> nat, t: Slots<K, V>) {
    && |t.at| > 0
    && t.holes <= t.alloc
    && (forall i :: i in t.alloc ==> 0 <= i < |t.at|)
    && (forall i :: Live(t, i) ==> Chained(h, t, i))
    && (forall i, j :: Live(t, i) && Live(t, j) && t.at[i].key == t.at[j].key ==> i == j)
  }

  ghost predicate Represents<K, V>(t: Slots<K, V>, m: map<K, V>) {
    && (forall i :: Live(t, i) ==> t.at[i].key in m && m[t.at[i].key] == t.at[i].val)
    && (forall k :: k in m ==> exists i :: Live(t, i) && t.at[i].key == k)
  }

  // ---------------------------------------------------------------------------------------
  // Lookup
  // ---------------------------------------------------------------------------------------

  datatype Found = At(slot: int) | Absent | Around

  /** The probe loop of get and remove with `left` slots still to see; the step past the last slot is a failure
      even when that slot was the one that ended the search. */
  function Find<K(==), V>(t: Slots<K, V>, k: K, i: int, left: nat): Found
    requires 0 <= i < |t.at|
    decreases left
  {
    if left == 0 then Around
    else if i in t.alloc && i !in t.holes && t.at[i].key == k then At(i)
    else if left == 1 then Around
    else if i !in t.alloc then Absent
    else Find(t, k, Next(|t.at|, i), left - 1)
  }

  /** From the start slot, the loop finds the first slot that ends the search. */
  lemma {:induction false} FindMeans<K, V>(t: Slots<K, V>, k: K, start: int, d: nat)
    requires 0 <= start < |t.at| && d < |t.at|
    requires forall e :: 0 <= e < d ==> Ahead(|t.at|, start, e) in t.alloc
    requires forall e :: 0 <= e < d ==> !(Live(t, Ahead(|t.at|, start, e)) && t.at[Ahead(|t.at|, start, e)].key == k)
    ensures var n := |t.at|; var r := Find(t, k, Ahead(n, start, d), n - d);
            && (r.At? ==> Live(t, r.slot) && t.at[r.slot].key == k
                          && forall e :: 0 <= e <= Dist(n, start, r.slot) ==> Ahead(n, start, e) in t.alloc)
            && (r.Absent? ==> exists e :: d <= e < n - 1 && Ahead(n, start, e) !in t.alloc
                                         && forall f :: 0 <= f < e ==>
                                            !(Live(t, Ahead(n, start, f)) && t.at[Ahead(n, start, f)].key == k)
                                                                       && Ahead(n, start, f) in t.alloc)
            && (r.Around? ==> forall e :: 0 <= e < n - 1 ==> Ahead(n, start, e) in t.alloc)
            && (r.Around? ==> forall e :: 0 <= e < n ==>
                !(Live(t, Ahead(n, start, e)) && t.at[Ahead(n, start, e)].key == k))
    decreases |t.at| - d
  {
    var n := |t.at|;
    var i := Ahead(n, start, d);
    if Live(t, i) && t.at[i].key == k {
    } else if d == n - 1 {
    } else if i !in t.alloc {
    } else {
      assert Next(n, i) == Ahead(n, start, d + 1);
      FindMeans(t, k, start, d + 1);
    }
  }

  /** Lookup agrees with the map: it finds a key exactly when the map has it. An absent key is reported as not found
      exactly when some slot before the last one probed is unallocated, and as a failure otherwise. */
  lemma FindCorrect<K, V>(h: K -> nat, t: Slots<K, V>, m: map<K, V>, k: K)
    requires Valid(h, t) && Represents(t, m)
    ensures var r := Find(t, k, Home(h, t, k), |t.at|);
            && (r.At? <==> k in m)
            && (r.At? ==> Live(t, r.slot) && t.at[r.slot] == Entry(k, m[k]))
            && (k !in m ==> (r.Absent? <==> exists e ::
                               0 <= e < |t.at| - 1 && Ahead(|t.at|, Home(h, t, k), e) !in t.alloc))
  {
    var n, home := |t.at|, Home(h, t, k);
    FindMeans(t, k, home, 0);
    var r := Find(t, k, home, n);
    assert Ahead(n, home, 0) == home;
    if k in m {
      var i :| Live(t, i) && t.at[i].key == k;
      assert Chained(h, t, i);
      assert Ahead(n, home, Dist(n, home, i)) == i;
    }
  }

  // ---------------------------------------------------------------------------------------
  // Add
  // ---------------------------------------------------------------------------------------

  /** The loop of add with `left` slots still to see: the first slot that is not live, or -1 after going around. */
  function FreeSlot<K, V>(t: Slots<K, V>, i: int, left: nat): int
    requires 0 <= i < |t.at|
    decreases left
  {
    if left == 0 then -1
    else if i !in t.alloc || i in t.holes then i
    else FreeSlot(t, Next(|t.at|, i), left - 1)
  }

  function Put<K, V>(t: Slots<K, V>, i: int, k: K, v: V): Slots<K, V>
    requires 0 <= i < |t.at|
  {
    Slots(t.at[i := Entry(k, v)], t.alloc + {i}, t.holes - {i})
  }

  lemma {:induction false} FreeSlotMeans<K, V>(t: Slots<K, V>, start: int, d: nat)
    requires 0 <= start < |t.at| && d <= |t.at|
    requires forall e :: 0 <= e < d ==> Live(t, Ahead(|t.at|, start, e))
    ensures var n := |t.at|; var i := FreeSlot(t, if d == n then start else Ahead(n, start, d), n - d);
            && (i == -1 ==> forall e :: 0 <= e < n ==> Live(t, Ahead(n, start, e)))
            && (i != -1 ==> 0 <= i < n && !Live(t, i)
                            && forall e :: 0 <= e < Dist(n, start, i) ==> Live(t, Ahead(n, start, e)))
    decreases |t.at| - d
  {
    var n := |t.at|;
    if d < n {
      var i := Ahead(n, start, d);
      if Live(t, i) {
        assert Next(n, i) == if d + 1 == n then start else Ahead(n, start, d + 1);
        FreeSlotMeans(t, start, d + 1);
      }
    }
  }

  ghost function LiveSet<K, V>(t: Slots<K, V>): set<int> {
    t.alloc - t.holes
  }

  /** With fewer live slots than slots, add always finds a place: its wrap-around failure is unreachable. */
  lemma AddFindsSlot<K, V>(h: K -> nat, t: Slots<K, V>, start: int)
    requires Valid(h, t) && 0 <= start < |t.at| && |LiveSet(t)| < |t.at|
    ensures FreeSlot(t, start, |t.at|) != -1
  {
    var n := |t.at|;
    var j := MissingOne(LiveSet(t), n);
    assert Ahead(n, start, Dist(n, start, j)) == j && !Live(t, j);
    FreeSlotMeans(t, start, 0);
    assert Ahead(n, start, 0) == start;
  }

  /** The new entry's probe path is the run of live slots it skipped. */
  lemma PutValid<K, V>(h: K -> nat, t: Slots<K, V>, k: K, v: V, i: int)
    requires Valid(h, t) && 0 <= i < |t.at| && !Live(t, i)
    requires forall j :: Live(t, j) ==> t.at[j].key != k
    requires var home := Home(h, t, k);
             forall e :: 0 <= e < Dist(|t.at|, home, i) ==> Live(t, Ahead(|t.at|, home, e))
    ensures Valid(h, Put(t, i, k, v))
  {
    var n, home, t' := |t.at|, Home(h, t, k), Put(t, i, k, v);
    forall j | Live(t', j) ensures Chained(h, t', j) {
      if j == i {
        forall x | 0 <= x < n && Dist(n, home, x) <= Dist(n, home, i) ensures x in t'.alloc {
          assert Ahead(n, home, Dist(n, home, x)) == x;
          assert x == i || Live(t, Ahead(n, home, Dist(n, home, x)));
        }
      } else {
        assert Live(t, j) && Chained(h, t, j);
      }
    }
    assert forall j :: Live(t', j) && j != i ==> Live(t, j);
  }

  lemma PutRepresents<K, V>(t: Slots<K, V>, m: map<K, V>, k: K, v: V, i: int)
    requires Represents(t, m) && k !in m && 0 <= i < |t.at| && !Live(t, i)
    ensures Represents(Put(t, i, k, v), m[k := v])
  {
    var t' := Put(t, i, k, v);
    assert forall j :: Live(t', j) && j != i ==> Live(t, j);
    assert Live(t', i) && t'.at[i].key == k;
    var m' := m[k := v];
    forall x | x in m' ensures exists j :: Live(t', j) && t'.at[j].key == x {
      if x != k {
        var j :| Live(t, j) && t.at[j].key == x;
        assert Live(t', j) && t'.at[j].key == x;
      }
    }
  }

  lemma PutLive<K, V>(t: Slots<K, V>, k: K, v: V, i: int)
    requires 0 <= i < |t.at| && !Live(t, i)
    ensures LiveSet(Put(t, i, k, v)) == LiveSet(t) + {i} && i !in LiveSet(t)
  {
  }

  lemma PutCorrect<K, V>(h: K -> nat, t: Slots<K, V>, m: map<K, V>, k: K, v: V)
    requires Valid(h, t) && Represents(t, m) && k !in m && |LiveSet(t)| < |t.at|
    ensures var i := FreeSlot(t, Home(h, t, k), |t.at|);
            && 0 <= i < |t.at| && !Live(t, i)
            && Valid(h, Put(t, i, k, v)) && Represents(Put(t, i, k, v), m[k := v])
            && LiveSet(Put(t, i, k, v)) == LiveSet(t) + {i} && i !in LiveSet(t)
  {
    var home := Home(h, t, k);
    AddFindsSlot(h, t, home);
    FreeSlotMeans(t, home, 0);
    assert Ahead(|t.at|, home, 0) == home;
    var i := FreeSlot(t, home, |t.at|);
    PutValid(h, t, k, v, i);
    PutRepresents(t, m, k, v, i);
    PutLive(t, k, v, i);
  }

  // ---------------------------------------------------------------------------------------
  // Remove
  // ---------------------------------------------------------------------------------------

  /** The left sweep: from slot p leftwards, placeholders become unallocated. */
  function Sweep<K, V>(t: Slots<K, V>, p: int): Slots<K, V>
    requires |t.at| > 0
    decreases |t.holes|
  {
    if p !in t.holes then t
    else Sweep(t.(alloc := t.alloc - {p}, holes := t.holes - {p}), Left(|t.at|, p))
  }

  /** Taking the entry out of slot i: a placeholder if the next slot is allocated, and otherwise the end of a chain. */
  function TakeOut<K, V>(t: Slots<K, V>, i: int): Slots<K, V>
    requires |t.at| > 0
  {
    if Next(|t.at|, i) in t.alloc then t.(holes := t.holes + {i})
    else Sweep(t.(alloc := t.alloc - {i}), Left(|t.at|, i))
  }

  /** Slot p is no placeholder, or every slot right of it up to the removed slot i is unallocated. */
  ghost predicate Sweeping<K, V>(t: Slots<K, V>, p: int, i: int) {
    && 0 <= i < |t.at| && 0 <= p < |t.at| && i !in t.alloc
    && (p !in t.holes || forall j :: 0 <= j < |t.at| && Dist(|t.at|, p, j) <= Dist(|t.at|, p, i) && j != p ==>
                           j !in t.alloc)
  }

  /** A live key's probe path cannot run over p: the slot to the right of p is unallocated. */
  lemma PathAvoids<K, V>(h: K -> nat, t: Slots<K, V>, p: int, i: int, j: int)
    requires Valid(h, t) && Sweeping(t, p, i) && p in t.holes && Live(t, j)
    ensures var home := Home(h, t, t.at[j].key); Dist(|t.at|, home, p) > Dist(|t.at|, home, j)
  {
    var n, home := |t.at|, Home(h, t, t.at[j].key);
    assert Chained(h, t, j);
    var x := Next(n, p);
    assert x !in t.alloc by { assert Dist(n, p, x) <= Dist(n, p, i); }
    assert !(Dist(n, home, x) <= Dist(n, home, j));
  }

  lemma ClearOne<K, V>(h: K -> nat, t: Slots<K, V>, p: int, i: int)
    requires Valid(h, t) && Sweeping(t, p, i) && p in t.holes
    ensures Valid(h, t.(alloc := t.alloc - {p}, holes := t.holes - {p}))
  {
    var t' := t.(alloc := t.alloc - {p}, holes := t.holes - {p});
    forall j | Live(t', j) ensures Chained(h, t', j) {
      assert Live(t, j) && Chained(h, t, j);
      PathAvoids(h, t, p, i, j);
    }
  }

  lemma SweepOn<K, V>(t: Slots<K, V>, p: int, i: int)
    requires Sweeping(t, p, i) && p in t.holes && t.holes <= t.alloc && 0 < |t.at| <= WORD && WORD % |t.at| <= 2
    ensures Sweeping(t.(alloc := t.alloc - {p}, holes := t.holes - {p}), Left(|t.at|, p), i)
  {
    LeftOfZero(|t.at|);
    if p != 0 { LeftOfPositive(|t.at|, p); }
  }

  /** The sweep clears placeholders only, and none on a live key's probe path. */
  lemma {:induction false} SweepKeeps<K, V>(h: K -> nat, t: Slots<K, V>, p: int, i: int)
    requires Valid(h, t) && |t.at| <= WORD && WORD % |t.at| <= 2
    requires Sweeping(t, p, i)
    ensures var r := Sweep(t, p);
            Valid(h, r) && r.at == t.at && LiveSet(r) == LiveSet(t) && r.holes <= t.holes
    decreases |t.holes|
  {
    if p in t.holes {
      ClearOne(h, t, p, i);
      SweepOn(t, p, i);
      SweepKeeps(h, t.(alloc := t.alloc - {p}, holes := t.holes - {p}), Left(|t.at|, p), i);
    }
  }

  /** Taking an entry out keeps every table valid when 2^64 mod num_slots is at most 2. */
  lemma TakeOutValid<K, V>(h: K -> nat, t: Slots<K, V>, i: int)
    requires Valid(h, t) && Live(t, i) && |t.at| <= WORD && WORD % |t.at| <= 2
    ensures var r := TakeOut(t, i); Valid(h, r) && r.at == t.at && LiveSet(r) == LiveSet(t) - {i}
  {
    var n := |t.at|;
    var r := TakeOut(t, i);
    if Next(n, i) in t.alloc {
      forall j | Live(r, j) ensures Chained(h, r, j) { assert Live(t, j) && Chained(h, t, j); }
    } else {
      var t' := t.(alloc := t.alloc - {i});
      ChainEnd(h, t, i);
      LeftOfZero(n);
      if i != 0 { LeftOfPositive(n, i); }
      assert Sweeping(t', Left(n, i), i);
      SweepKeeps(h, t', Left(n, i), i);
    }
    assert LiveSet(r) == LiveSet(t) - {i};
  }

  /** ... and removes exactly that key. */
  lemma TakeOutCorrect<K, V>(h: K -> nat, t: Slots<K, V>, m: map<K, V>, i: int)
    requires Valid(h, t) && Represents(t, m) && Live(t, i) && |t.at| <= WORD && WORD % |t.at| <= 2
    ensures var r := TakeOut(t, i);
            Valid(h, r) && Represents(r, m - {t.at[i].key}) && r.at == t.at && LiveSet(r) == LiveSet(t) - {i}
  {
    TakeOutValid(h, t, i);
    WithoutKey(h, t, TakeOut(t, i), m, i);
  }

  /** With nothing allocated after it, slot i is on no other key's probe path. */
  lemma ChainEnd<K, V>(h: K -> nat, t: Slots<K, V>, i: int)
    requires Valid(h, t) && Live(t, i) && Next(|t.at|, i) !in t.alloc
    ensures Valid(h, t.(alloc := t.alloc - {i}))
  {
    var n, t' := |t.at|, t.(alloc := t.alloc - {i});
    forall j | Live(t', j) ensures Chained(h, t', j) {
      assert Live(t, j) && Chained(h, t, j);
      var home := Home(h, t, t.at[j].key);
      assert !(Dist(n, home, Next(n, i)) <= Dist(n, home, j));
    }
  }

  lemma WithoutKey<K, V>(h: K -> nat, t: Slots<K, V>, r: Slots<K, V>, m: map<K, V>, i: int)
    requires Valid(h, t) && Represents(t, m) && Live(t, i) && Valid(h, r) && r.at == t.at
    requires LiveSet(r) == LiveSet(t) - {i}
    ensures Represents(r, m - {t.at[i].key})
  {
    assert forall j :: Live(r, j) <==> j in LiveSet(r);
    assert forall j :: Live(t, j) <==> j in LiveSet(t);
    forall k | k in m - {t.at[i].key} ensures exists j :: Live(r, j) && r.at[j].key == k {
      var j :| Live(t, j) && t.at[j].key == k;
      assert Live(r, j) && r.at[j].key == k;
    }
  }

  function Blank<K, V>(at: seq<Entry<K, V>>): Slots<K, V> {
    Slots(at, {}, {})
  }

  function AddKey<K, V>(h: K -> nat, t: Slots<K, V>, k: K, v: V): Slots<K, V>
    requires |t.at| > 0
  {
    var i := FreeSlot(t, Home(h, t, k), |t.at|);
    if 0 <= i < |t.at| then Put(t, i, k, v) else t
  }

  function RemoveKey<K(==), V>(h: K -> nat, t: Slots<K, V>, k: K): Slots<K, V>
    requires |t.at| > 0
  {
    match Find(t, k, Home(h, t, k), |t.at|)
    case At(i) => TakeOut(t, i)
    case _ => t
  }

  /** Add does not look for the key: the table stays valid exactly when the key was absent. */
  lemma AddSoundIff<K, V>(h: K -> nat, t: Slots<K, V>, m: map<K, V>, k: K, v: V)
    requires Valid(h, t) && Represents(t, m) && |LiveSet(t)| < |t.at|
    ensures Valid(h, AddKey(h, t, k, v)) <==> k !in m
  {
    if k !in m {
      PutCorrect(h, t, m, k, v);
    } else {
      var home := Home(h, t, k);
      AddFindsSlot(h, t, home);
      FreeSlotMeans(t, home, 0);
      assert Ahead(|t.at|, home, 0) == home;
      var i :| Live(t, i) && t.at[i].key == k;
      var j := FreeSlot(t, home, |t.at|);
      var t' := AddKey(h, t, k, v);
      assert Live(t', i) && Live(t', j) && t'.at[i].key == t'.at[j].key && i != j;
    }
  }

  /** Three adds and a remove lead to a placeholder at slot r - 1 that key b's chain needs, and key a in slot 0. */
  lemma TrapSet<K, V>(h: K -> nat, at: seq<Entry<K, V>>, a: K, b: K, c: K, v: V)
    requires 0 < |at| <= WORD && WORD % |at| >= 3 && a != b && b != c && a != c
    requires h(a) % |at| == 0 && h(b) % |at| == h(c) % |at| == WORD % |at| - 1
    ensures var r := WORD % |at|;
            var t := RemoveKey(h, AddKey(h, AddKey(h, AddKey(h, Blank(at), c, v), b, v), a, v), c);
            && |t.at| == |at| && t.alloc == {0, r - 1, r} && t.holes == {r - 1}
            && t.at[0] == Entry(a, v) && t.at[r] == Entry(b, v)
  {
    var n, r := |at|, WORD % |at|;
    var t1 := AddKey(h, Blank(at), c, v);
    assert t1 == Slots(at[r - 1 := Entry(c, v)], {r - 1}, {});
    var t2 := AddKey(h, t1, b, v);
    assert FreeSlot(t1, r - 1, n) == FreeSlot(t1, r, n - 1) == r;
    assert t2 == Slots(t1.at[r := Entry(b, v)], {r - 1, r}, {});
    var t3 := AddKey(h, t2, a, v);
    assert t3 == Slots(t2.at[0 := Entry(a, v)], {0, r - 1, r}, {});
    assert Find(t3, c, r - 1, n) == At(r - 1);
  }

  /**
   In four slots, four adds and three removes leave one entry and three placeholders: the next call
   rehashes and spills.
   */
  lemma SpillReached<K, V>(h: K -> nat, at: seq<Entry<K, V>>, a: K, b: K, c: K, d: K, v: V)
    requires |at| == 4 && h(a) % 4 == 0 && h(b) % 4 == 1 && h(c) % 4 == 2 && h(d) % 4 == 3
    ensures var t1 := RemoveKey(h, AddKey(h, AddKey(h, Blank(at), a, v), b, v), a);
            var t2 := RemoveKey(h, AddKey(h, t1, c, v), b);
            var t := RemoveKey(h, AddKey(h, t2, d, v), c);
            && |t.at| == 4 && t.alloc == {0, 1, 2, 3} && t.holes == {0, 1, 2} && t.at[3] == Entry(d, v)
            && |t.holes| > |t.at| / 2
  {
    var s1 := AddKey(h, AddKey(h, Blank(at), a, v), b, v);
    assert s1 == Slots(at[0 := Entry(a, v)][1 := Entry(b, v)], {0, 1}, {});
    assert Find(s1, a, 0, 4) == At(0);
    var t1 := RemoveKey(h, s1, a);
    assert t1 == Slots(s1.at, {0, 1}, {0});
    var s2 := AddKey(h, t1, c, v);
    assert s2 == Slots(t1.at[2 := Entry(c, v)], {0, 1, 2}, {0});
    assert Find(s2, b, 1, 4) == At(1);
    var t2 := RemoveKey(h, s2, b);
    assert t2 == Slots(s2.at, {0, 1, 2}, {0, 1});
    var s3 := AddKey(h, t2, d, v);
    assert s3 == Slots(t2.at[3 := Entry(d, v)], {0, 1, 2, 3}, {0, 1});
    assert Find(s3, c, 2, 4) == At(2);
    assert RemoveKey(h, s3, c) == Slots(s3.at, {0, 1, 2, 3}, {0, 1, 2});
  }

  /** The condition is needed: with a remainder of 3 or more, removing key a then makes key b disappear. */
  lemma TrapSprings<K, V>(h: K -> nat, t: Slots<K, V>, a: K, b: K, v: V)
    requires 0 < |t.at| <= WORD && WORD % |t.at| >= 3 && a != b
    requires h(a) % |t.at| == 0 && h(b) % |t.at| == WORD % |t.at| - 1
    requires var r := WORD % |t.at|;
             t.alloc == {0, r - 1, r} && t.holes == {r - 1} && t.at[0] == Entry(a, v) && t.at[r] == Entry(b, v)
    ensures var t' := RemoveKey(h, t, a); var r := WORD % |t.at|;
            && Valid(h, t) && Represents(t, map[a := v, b := v]) && Live(t, 0) && t' == TakeOut(t, 0)
            && Live(t', r) && t'.at[r].key == b && !Valid(h, t') && Find(t', b, Home(h, t', b), |t.at|) == Absent
  {
    var n, r := |t.at|, WORD % |t.at|;
    LeftOfZero(n);
    LeftOfPositive(n, r - 1);
    assert Live(t, 0) && Live(t, r);
    assert forall i :: Live(t, i) <==> i == 0 || i == r;
    assert Chained(h, t, 0) && Chained(h, t, r);
    assert Find(t, a, 0, n) == At(0);
    var t1 := t.(alloc := t.alloc - {0});
    var t2 := t1.(alloc := t1.alloc - {r - 1}, holes := t1.holes - {r - 1});
    assert TakeOut(t, 0) == Sweep(t1, r - 1) == Sweep(t2, r - 2) == t2;
    assert Live(t2, r) && Dist(n, r - 1, r - 1) == 0 && !Chained(h, t2, r);
  }

  /** Removal is safe on every table of n slots exactly when 2^64 mod n is at most 2. */
  lemma RemoveSafeIff<K(!new), V(!new)>(h: K -> nat, n: nat, a: K, b: K, v: V)
    requires 0 < n <= WORD && a != b && h(a) % n == 0
    requires WORD % n >= 3 ==> h(b) % n == WORD % n - 1
    ensures (forall t: Slots<K, V>, i :: |t.at| == n && Valid(h, t) && Live(t, i) ==> Valid(h, TakeOut(t, i)))
            <==> WORD % n <= 2
  {
    var r := WORD % n;
    if r <= 2 {
      forall t: Slots<K, V>, i | |t.at| == n && Valid(h, t) && Live(t, i) ensures Valid(h, TakeOut(t, i)) {
        TakeOutValid(h, t, i);
      }
    } else {
      TrapSprings(h, Slots(seq(n, i => Entry(if i == 0 then a else b, v)), {0, r - 1, r}, {r - 1}), a, b, v);
    }
  }

  // ---------------------------------------------------------------------------------------
  // Counting and listing
  // ---------------------------------------------------------------------------------------

  /** The live entries below slot i, in slot order. */
  ghost function Listed<K, V>(t: Slots<K, V>, i: nat): seq<Entry<K, V>>
    requires i <= |t.at|
  {
    if i == 0 then [] else Listed(t, i - 1) + if Live(t, i - 1) then [t.at[i - 1]] else []
  }

  ghost function LiveBelow<K, V>(t: Slots<K, V>, i: int): set<int> {
    set j | j in LiveSet(t) && j < i
  }

  lemma {:induction false} ListedCard<K, V>(h: K -> nat, t: Slots<K, V>, i: nat)
    requires Valid(h, t) && i <= |t.at|
    ensures |Listed(t, i)| == |LiveBelow(t, i)|
  {
    if i == 0 {
      assert LiveBelow(t, 0) == {};
    } else {
      ListedCard(h, t, i - 1);
      if Live(t, i - 1) {
        assert LiveBelow(t, i) == LiveBelow(t, i - 1) + {i - 1};
      } else {
        assert LiveBelow(t, i) == LiveBelow(t, i - 1);
      }
    }
  }

  /** The map built by adding a list of entries one by one. */
  ghost function MapOf<K, V>(es: seq<Entry<K, V>>): map<K, V> {
    if es == [] then map[] else MapOf(es[..|es| - 1])[es[|es| - 1].key := es[|es| - 1].val]
  }

  ghost predicate DistinctKeys<K, V>(es: seq<Entry<K, V>>) {
    forall x, y :: 0 <= x < y < |es| ==> es[x].key != es[y].key
  }

  lemma {:induction false} MapOfKeys<K, V>(es: seq<Entry<K, V>>)
    ensures forall k :: k in MapOf(es) <==> exists x :: 0 <= x < |es| && es[x].key == k
  {
    if es != [] {
      var rest := es[..|es| - 1];
      MapOfKeys(rest);
      forall k ensures k in MapOf(es) <==> exists x :: 0 <= x < |es| && es[x].key == k {
        if x :| 0 <= x < |es| && es[x].key == k {
          assert x < |rest| ==> rest[x].key == k;
        }
        if k in MapOf(rest) {
          var x :| 0 <= x < |rest| && rest[x].key == k;
          assert es[x].key == k;
        }
        assert es[|es| - 1].key in MapOf(es);
      }
    }
  }

  lemma MapOfPush<K, V>(es: seq<Entry<K, V>>, e: Entry<K, V>)
    ensures MapOf(es + [e]) == MapOf(es)[e.key := e.val]
    ensures DistinctKeys(es) && e.key !in MapOf(es) ==> DistinctKeys(es + [e])
  {
    assert (es + [e])[..|es|] == es;
    MapOfKeys(es);
  }

  ghost predicate LiveKeyBelow<K, V>(t: Slots<K, V>, i: int, k: K) {
    exists j :: 0 <= j < i && Live(t, j) && t.at[j].key == k
  }

  /** Listing the live entries and adding them to an empty map gives the map back. */
  lemma {:induction false} ListedMap<K, V>(h: K -> nat, t: Slots<K, V>, m: map<K, V>, i: nat)
    requires Valid(h, t) && Represents(t, m) && i <= |t.at|
    ensures DistinctKeys(Listed(t, i))
    ensures forall k :: k in MapOf(Listed(t, i)) <==> LiveKeyBelow(t, i, k)
    ensures forall k :: k in MapOf(Listed(t, i)) ==> k in m && MapOf(Listed(t, i))[k] == m[k]
  {
    if i > 0 {
      ListedMap(h, t, m, i - 1);
      forall k
        ensures LiveKeyBelow(t, i, k) <==> LiveKeyBelow(t, i - 1, k) || (Live(t, i - 1) && t.at[i - 1].key == k)
      {
        LiveKeyNext(t, i, k);
      }
      if Live(t, i - 1) {
        MapOfPush(Listed(t, i - 1), t.at[i - 1]);
        LiveKeyFresh(h, t, i);
      } else {
        assert Listed(t, i) == Listed(t, i - 1);
      }
    }
  }

  lemma LiveKeyNext<K, V>(t: Slots<K, V>, i: int, k: K)
    requires 0 < i <= |t.at|
    ensures LiveKeyBelow(t, i, k) <==> LiveKeyBelow(t, i - 1, k) || (Live(t, i - 1) && t.at[i - 1].key == k)
  {
    if j :| 0 <= j < i && Live(t, j) && t.at[j].key == k {
      assert j < i - 1 ==> LiveKeyBelow(t, i - 1, k);
    }
  }

  lemma LiveKeyFresh<K, V>(h: K -> nat, t: Slots<K, V>, i: int)
    requires Valid(h, t) && 0 < i <= |t.at| && Live(t, i - 1)
    ensures !LiveKeyBelow(t, i - 1, t.at[i - 1].key)
  {
  }

  lemma ListedAll<K, V>(h: K -> nat, t: Slots<K, V>, m: map<K, V>)
    requires Valid(h, t) && Represents(t, m)
    ensures DistinctKeys(Listed(t, |t.at|)) && MapOf(Listed(t, |t.at|)) == m && |Listed(t, |t.at|)| == |LiveSet(t)|
  {
    ListedMap(h, t, m, |t.at|);
    ListedCard(h, t, |t.at|);
    assert LiveBelow(t, |t.at|) == LiveSet(t);
    forall k | k in m ensures LiveKeyBelow(t, |t.at|, k) {
      var i :| Live(t, i) && t.at[i].key == k;
    }
    assert MapOf(Listed(t, |t.at|)).Keys == m.Keys;
  }

  lemma {:induction false} MapOfCard<K, V>(es: seq<Entry<K, V>>)
    requires DistinctKeys(es)
    ensures |MapOf(es)| == |es|
  {
    if es != [] {
      var rest := es[..|es| - 1];
      MapOfCard(rest);
      MapOfKeys(rest);
      assert MapOf(es).Keys == MapOf(rest).Keys + {es[|es| - 1].key};
      assert |MapOf(es).Keys| == |MapOf(rest).Keys| + 1;
    }
  }

  /** The map has one key per live slot. */
  lemma MapCard<K, V>(h: K -> nat, t: Slots<K, V>, m: map<K, V>)
    requires Valid(h, t) && Represents(t, m)
    ensures |m| == |LiveSet(t)|
  {
    ListedAll(h, t, m);
    MapOfCard(Listed(t, |t.at|));
  }

  lemma {:induction false} ListedPrefix<K, V>(t: Slots<K, V>, i: nat, j: nat)
    requires i <= j <= |t.at|
    ensures Listed(t, i) <= Listed(t, j)
    decreases j
  {
    if i < j { ListedPrefix(t, i, j - 1); }
  }

  // ---------------------------------------------------------------------------------------
  // The copies of a rehash
  // ---------------------------------------------------------------------------------------

  /** q written over s from position i on. */
  function Overlay<T>(s: seq<T>, i: nat, q: seq<T>): (r: seq<T>)
    requires i + |q| <= |s|
    ensures |r| == |s|
  {
    s[..i] + q + s[i + |q|..]
  }

  /**
   The scratch space after the first i slots have been looked at. A copy takes a byte length for
   words, so seven entries come along: those behind the entry, and behind the last slot whatever
   memory holds there.
   */
  ghost function Copied<K, V>(t: Slots<K, V>, after: seq<Entry<K, V>>, scr: seq<Entry<K, V>>, i: nat)
    : (r: seq<Entry<K, V>>)
    requires i <= |t.at| && |after| == 7 && |scr| == |t.at| + 7
    ensures |r| == |scr|
  {
    if i == 0 then scr
    else
      var s := Copied(t, after, scr, i - 1);
      ListedShort(t, i - 1);
      if Live(t, i - 1) then Overlay(s, |Listed(t, i - 1)|, (t.at + after)[i - 1..i + 7]) else s
  }

  lemma {:induction false} ListedShort<K, V>(t: Slots<K, V>, i: nat)
    requires i <= |t.at|
    ensures |Listed(t, i)| <= i
  {
    if i > 0 { ListedShort(t, i - 1); }
  }

  /** The last live slot below i. */
  ghost function LastLive<K, V>(t: Slots<K, V>, i: nat): (r: nat)
    requires i <= |t.at| && Listed(t, i) != []
    ensures r < i && Live(t, r)
  {
    if Live(t, i - 1) then i - 1 else LastLive(t, i - 1)
  }

  /**
   Every copy overwrites what the one before it spilled, so the scratch space begins with the live
   entries in slot order; the last copy's spill stays, and behind it nothing is touched.
   */
  lemma {:induction false} CopiedMeans<K, V>(t: Slots<K, V>, after: seq<Entry<K, V>>, scr: seq<Entry<K, V>>, i: nat)
    requires i <= |t.at| && |after| == 7 && |scr| == |t.at| + 7
    ensures var c, r := |Listed(t, i)|, Copied(t, after, scr, i);
            && c + 7 <= |scr| && r[..c] == Listed(t, i)
            && (c == 0 ==> r == scr)
            && (c > 0 ==> r[c - 1..c + 7] == (t.at + after)[LastLive(t, i)..LastLive(t, i) + 8]
                          && r[c + 7..] == scr[c + 7..])
  {
    ListedShort(t, i);
    if i > 0 {
      CopiedMeans(t, after, scr, i - 1);
      if Live(t, i - 1) { CopiedNext(t, after, scr, i); }
    }
  }

  lemma CopiedNext<K, V>(t: Slots<K, V>, after: seq<Entry<K, V>>, scr: seq<Entry<K, V>>, i: nat)
    requires 0 < i <= |t.at| && |after| == 7 && |scr| == |t.at| + 7 && Live(t, i - 1) && |Listed(t, i)| + 7 <= |scr|
    requires var c, r := |Listed(t, i - 1)|, Copied(t, after, scr, i - 1);
             r[..c] == Listed(t, i - 1) && r[c + 7..] == scr[c + 7..]
    ensures var c, r := |Listed(t, i)|, Copied(t, after, scr, i);
            && r[..c] == Listed(t, i) && r[c + 7..] == scr[c + 7..]
            && r[c - 1..c + 7] == (t.at + after)[i - 1..i + 7]
  {
    var c, before, r := |Listed(t, i - 1)|, Copied(t, after, scr, i - 1), Copied(t, after, scr, i);
    var piece := (t.at + after)[i - 1..i + 7];
    assert r == before[..c] + piece + before[c + 8..];
    assert r[c..c + 8] == piece && r[c] == piece[0] == t.at[i - 1];
    assert r[..c + 1] == r[..c] + [r[c]];
    assert r[c + 8..] == before[c + 8..] == before[c + 7..][1..];
  }

  /** Once all live entries are out, the rest of the slots changes nothing. */
  lemma {:induction false} CopiedSettled<K, V>(
    t: Slots<K, V>, after: seq<Entry<K, V>>, scr: seq<Entry<K, V>>, i: nat, j: nat)
    requires i <= j <= |t.at| && |after| == 7 && |scr| == |t.at| + 7 && |Listed(t, i)| == |Listed(t, j)|
    ensures Copied(t, after, scr, j) == Copied(t, after, scr, i)
    decreases j
  {
    if i < j {
      ListedPrefix(t, i, j - 1);
      CopiedSettled(t, after, scr, i, j - 1);
    }
  }

  /**
   What a rehash does to the seven entries behind the scratch space: nothing if it has nothing to
   copy or seven fewer entries than slots, and otherwise they receive the end of the last copy.
   */
  ghost predicate Spilled<K, V>(t: Slots<K, V>, after: seq<Entry<K, V>>, scr: seq<Entry<K, V>>, r: seq<Entry<K, V>>)
    requires |after| == 7 && |scr| == |r| == |t.at| + 7
  {
    var n, c := |t.at|, |Listed(t, |t.at|)|;
    && c <= n
    && if c == 0 || c + 7 <= n then r[n..] == scr[n..]
       else
         var last := LastLive(t, n);
         r[n..c + 7] == (t.at + after)[last + n - c + 1..last + 8] && r[c + 7..] == scr[c + 7..]
  }

  lemma SpillMeans<K, V>(t: Slots<K, V>, after: seq<Entry<K, V>>, scr: seq<Entry<K, V>>)
    requires |after| == 7 && |scr| == |t.at| + 7
    ensures Spilled(t, after, scr, Copied(t, after, scr, |t.at|))
  {
    if |Listed(t, |t.at|)| == 0 || |Listed(t, |t.at|)| + 7 <= |t.at| {
      StaysInside(t, after, scr);
    } else {
      GoesOver(t, after, scr);
    }
  }

  lemma StaysInside<K, V>(t: Slots<K, V>, after: seq<Entry<K, V>>, scr: seq<Entry<K, V>>)
    requires |after| == 7 && |scr| == |t.at| + 7
    requires |Listed(t, |t.at|)| == 0 || |Listed(t, |t.at|)| + 7 <= |t.at|
    ensures Unspilled(t, after, scr)
  {
    var n := |t.at|;
    var c, r := |Listed(t, n)|, Copied(t, after, scr, n);
    CopiedMeans(t, after, scr, n);
    if c > 0 { SameEnd(r, scr, c + 7, n); }
  }

  lemma GoesOver<K, V>(t: Slots<K, V>, after: seq<Entry<K, V>>, scr: seq<Entry<K, V>>)
    requires |after| == 7 && |scr| == |t.at| + 7
    requires |Listed(t, |t.at|)| > 0 && |Listed(t, |t.at|)| + 7 > |t.at|
    ensures Spilled(t, after, scr, Copied(t, after, scr, |t.at|))
  {
    var n := |t.at|;
    var c, r := |Listed(t, n)|, Copied(t, after, scr, n);
    CopiedMeans(t, after, scr, n);
    ListedShort(t, n);
    SpillEnd(r, t.at + after, LastLive(t, n), c, n);
  }

  lemma SameEnd<T>(r: seq<T>, s: seq<T>, i: nat, n: nat)
    requires i <= n <= |r| == |s| && r[i..] == s[i..]
    ensures r[n..] == s[n..]
  {
    assert r[n..] == r[i..][n - i..] && s[n..] == s[i..][n - i..];
  }

  lemma SpillEnd<T>(r: seq<T>, memory: seq<T>, last: nat, c: nat, n: nat)
    requires 0 < c <= n <= c + 7 <= |r| && last + 8 <= |memory| && r[c - 1..c + 7] == memory[last..last + 8]
    ensures r[n..c + 7] == memory[last + n - c + 1..last + 8]
  {
    assert r[n..c + 7] == r[c - 1..c + 7][n - c + 1..];
    assert memory[last + n - c + 1..last + 8] == memory[last..last + 8][n - c + 1..];
  }

  /** A rehash leaves the memory behind the scratch space alone. */
  ghost predicate Unspilled<K, V>(t: Slots<K, V>, after: seq<Entry<K, V>>, scr: seq<Entry<K, V>>)
    requires |after| == 7 && |scr| == |t.at| + 7
  {
    Copied(t, after, scr, |t.at|)[|t.at|..] == scr[|t.at|..]
  }

  /** It does so whatever is there exactly when it has nothing to copy or seven fewer entries than slots. */
  lemma SpillIff<K, V>(t: Slots<K, V>, after: seq<Entry<K, V>>, x: Entry<K, V>, y: Entry<K, V>)
    requires |after| == 7 && x != y
    ensures var c := |Listed(t, |t.at|)|;
            (forall scr :: |scr| == |t.at| + 7 ==> Unspilled(t, after, scr)) <==> c == 0 || c + 7 <= |t.at|
  {
    var n, c := |t.at|, |Listed(t, |t.at|)|;
    if c == 0 || c + 7 <= n {
      forall scr: seq<Entry<K, V>> | |scr| == n + 7 ensures Unspilled(t, after, scr) { StaysInside(t, after, scr); }
    } else {
      SpillSeen(t, after, x, y);
    }
  }

  /** Two different fillings cannot both stay, as they would have to become the same. */
  lemma SpillSeen<K, V>(t: Slots<K, V>, after: seq<Entry<K, V>>, x: Entry<K, V>, y: Entry<K, V>)
    requires |after| == 7 && x != y && |Listed(t, |t.at|)| > 0 && |Listed(t, |t.at|)| + 7 > |t.at|
    ensures exists scr :: |scr| == |t.at| + 7 && !Unspilled(t, after, scr)
  {
    var xs, ys := seq(|t.at| + 7, i => x), seq(|t.at| + 7, i => y);
    SpillShows(t, after, xs);
    SpillShows(t, after, ys);
    assert xs[|t.at|..][0] == x && ys[|t.at|..][0] == y;
    assert !Unspilled(t, after, xs) || !Unspilled(t, after, ys);
  }

  /** The first entry behind the scratch space then comes from the last copy. */
  lemma SpillShows<K, V>(t: Slots<K, V>, after: seq<Entry<K, V>>, scr: seq<Entry<K, V>>)
    requires |after| == 7 && |scr| == |t.at| + 7
    requires |Listed(t, |t.at|)| > 0 && |Listed(t, |t.at|)| + 7 > |t.at|
    ensures var n, c := |t.at|, |Listed(t, |t.at|)|;
            && c <= n
            && Copied(t, after, scr, n)[n..][0] == (t.at + after)[LastLive(t, n) + n - c + 1]
  {
    var n, c := |t.at|, |Listed(t, |t.at|)|;
    GoesOver(t, after, scr);
    assert Copied(t, after, scr, n)[n] == Copied(t, after, scr, n)[n..c + 7][0];
  }

  /**
   The layout of SpillReached, rehashed: its one entry is copied, and the entries behind the scratch
   space become those behind the slots.
   */
  lemma SpillEscapes<K, V>(t: Slots<K, V>, after: seq<Entry<K, V>>, scr: seq<Entry<K, V>>)
    requires |t.at| == 4 && t.alloc == {0, 1, 2, 3} && t.holes == {0, 1, 2} && |after| == 7 && |scr| == 11
    ensures Copied(t, after, scr, 4)[4..8] == after[3..7]
  {
    assert Live(t, 3) && !Live(t, 0) && !Live(t, 1) && !Live(t, 2);
    assert Listed(t, 0) == Listed(t, 1) == Listed(t, 2) == Listed(t, 3) == [];
    assert Listed(t, 4) == [t.at[3]];
    SpillMeans(t, after, scr);
    assert (t.at + after)[7..11] == after[3..7];
  }

  lemma OverlayNext<T>(was: seq<T>, dest: nat, memory: seq<T>, from: nat, j: nat, now: seq<T>)
    requires j < 8 && dest + 8 <= |was| && from + 8 <= |memory|
    requires now == Overlay(was, dest, memory[from..from + j])[dest + j := memory[from + j]]
    ensures now == Overlay(was, dest, memory[from..from + j + 1])
  {
  }

  /**
   A table that is due for a rehash has few enough entries for the spill to stay inside the scratch
   space, if it has twelve slots.
   */
  lemma SpillFits<K, V>(h: K -> nat, t: Slots<K, V>, m: map<K, V>, kvs: nat, phs: nat)
    requires Good(h, t, m, kvs, phs) && phs > |t.at| / 2 && |t.at| >= 12
    ensures kvs + 7 <= |t.at|
  {
    assert t.alloc == LiveSet(t) + t.holes;
    SubsetCard(t.alloc, |t.at|);
  }

  /** Entry j of a list with distinct keys is not among the entries before it. */
  lemma AddsNext<K, V>(es: seq<Entry<K, V>>, j: nat)
    requires DistinctKeys(es) && j < |es|
    ensures es[j].key !in MapOf(es[..j]) && |MapOf(es[..j])| == j
    ensures MapOf(es[..j + 1]) == MapOf(es[..j])[es[j].key := es[j].val]
  {
    MapOfKeys(es[..j]);
    MapOfCard(es[..j]);
    assert es[..j + 1] == es[..j] + [es[j]];
    MapOfPush(es[..j], es[j]);
  }

  lemma WithAndWithout<K, V>(m: map<K, V>, k: K, v: V)
    ensures (m - {k})[k := v] == m[k := v]
    ensures k in m ==> |m - {k}| == |m| - 1
    ensures k !in m ==> m - {k} == m
  {
    assert k in m ==> m.Keys == (m - {k}).Keys + {k};
  }

  /** The table, the map it stands for, and its two counters. */
  ghost predicate Good<K, V>(h: K -> nat, t: Slots<K, V>, m: map<K, V>, kvs: nat, phs: nat) {
    && Valid(h, t) && Represents(t, m)
    && kvs == |LiveSet(t)| && phs == |t.holes| && kvs <= |t.at| / 2
  }

  lemma BlankGood<K, V>(h: K -> nat, at: seq<Entry<K, V>>)
    requires |at| > 0
    ensures Good(h, Blank(at), map[], 0, 0)
  {
  }

  lemma PutGood<K, V>(h: K -> nat, t: Slots<K, V>, m: map<K, V>, kvs: nat, phs: nat, k: K, v: V)
    requires Good(h, t, m, kvs, phs) && kvs < |t.at| / 2 && k !in m
    ensures var i := FreeSlot(t, Home(h, t, k), |t.at|);
            && 0 <= i < |t.at|
            && (i in t.holes ==> phs > 0)
            && Good(h, Put(t, i, k, v), m[k := v], kvs + 1, if i in t.holes then phs - 1 else phs)
  {
    PutCorrect(h, t, m, k, v);
  }

  lemma TakeOutGood<K, V>(h: K -> nat, t: Slots<K, V>, m: map<K, V>, kvs: nat, phs: nat, i: int)
    requires Good(h, t, m, kvs, phs) && Live(t, i) && |t.at| <= WORD && WORD % |t.at| <= 2
    ensures kvs > 0 && Good(h, TakeOut(t, i), m - {t.at[i].key}, kvs - 1, |TakeOut(t, i).holes|)
  {
    TakeOutCorrect(h, t, m, i);
    assert i in LiveSet(t);
  }
}

/** The hash table of hashtable.c, with its loops. */
module Hashtable {
  import opened Counting
  import opened Slots

  datatype Status = Success | Full | KeyNotFound | Failure

  datatype Lookup<V> = Value(v: V) | NotFound | Failed

  class Table<K(==, 0), V(0)> {
    const n: nat
    const hash: K -> nat
    const slots: array<Entry<K, V>>
    const after: seq<Entry<K, V>>         // whatever lies in memory behind the slots
    const scratch: array<Entry<K, V>>     // n entries of rehash space, and seven behind it that are not the table's
    var alloc: set<int>
    var placeholders: set<int>
    var numKvs: nat
    var numPlaceholders: nat
    ghost var Contents: map<K, V>

    ghost function View(): Slots<K, V>
      reads this, slots
    {
      Slots(slots[..], alloc, placeholders)
    }

    ghost predicate Ok()
      reads this, slots
    {
      && 0 < n == slots.Length && scratch.Length == n + 7 && |after| == 7 && n <= WORD && slots != scratch
      && Good(hash, View(), Contents, numKvs, numPlaceholders)
    }

    constructor (maxEntries: nat, hash: K -> nat, after: seq<Entry<K, V>>)
      requires 0 < maxEntries && 2 * maxEntries <= WORD && |after| == 7
      ensures Ok() && Contents == map[] && n == 2 * maxEntries && fresh(slots) && fresh(scratch) && this.hash == hash
    {
      n := 2 * maxEntries;
      this.hash, this.after := hash, after;
      slots := new Entry<K, V>[2 * maxEntries];
      scratch := new Entry<K, V>[2 * maxEntries + 7];
      alloc, placeholders := {}, {};
      numKvs, numPlaceholders := 0, 0;
      Contents := map[];
    }

    /** The probe loop shared by get and remove. */
    method Probe(k: K) returns (r: Found)
      requires Ok()
      ensures r == Find(View(), k, Home(hash, View(), k), n)
    {
      var start := hash(k) % n;
      var idx := start;
      ghost var d := 0;
      var searching := true;
      while searching
        invariant searching ==> 0 <= d < n && idx == Ahead(n, start, d)
        invariant searching ==> Find(View(), k, start, n) == Find(View(), k, idx, n - d)
        invariant !searching ==> Find(View(), k, start, n) == Absent
        decreases searching, n - d
      {
        if idx !in alloc {
          searching := false;
        } else if idx !in placeholders && slots[idx].key == k {
          return At(idx);
        }
        NextIsMod(n, idx);
        idx := (idx + 1) % n;
        if idx == start {
          return Around;
        }
        d := d + 1;
      }
      return Absent;
    }

    /** get: the value if the key is in the map. For a key that is not, the outcome depends on the layout:
        "not found" needs an unallocated slot before the last one probed. */
    method Get(k: K) returns (r: Lookup<V>)
      requires Ok()
      ensures k in Contents ==> r == Value(Contents[k])
      ensures k !in Contents ==>
                r == if exists e :: 0 <= e < n - 1 && Ahead(n, hash(k) % n, e) !in alloc then NotFound else Failed
    {
      FindCorrect(hash, View(), Contents, k);
      var found := Probe(k);
      match found
      case At(i) => r := Value(slots[i].val);
      case Absent => r := NotFound;
      case Around => r := Failed;
    }

    /** The loop of add: it always finds a slot. */
    method FindFree(k: K) returns (idx: int)
      requires Ok() && k !in Contents && numKvs < n / 2
      ensures idx == FreeSlot(View(), Home(hash, View(), k), n) && 0 <= idx < n
    {
      ghost var t := View();
      AddFindsSlot(hash, t, Home(hash, t, k));
      var start := hash(k) % n;
      idx := start;
      ghost var d := 0;
      while idx in alloc && idx !in placeholders
        invariant 0 <= d < n && idx == Ahead(n, start, d)
        invariant FreeSlot(t, start, n) == FreeSlot(t, idx, n - d)
        decreases n - d
      {
        NextIsMod(n, idx);
        idx := (idx + 1) % n;
        if idx == start {
          assert false;       // the source's "error in the hashtable add function"
        }
        d := d + 1;
      }
    }

    method Insert(k: K, v: V)
      requires Ok() && k !in Contents && numKvs < n / 2
      modifies this, slots
      ensures Ok() && Contents == old(Contents)[k := v] && numPlaceholders <= old(numPlaceholders)
    {
      ghost var t := View();
      PutGood(hash, t, Contents, numKvs, numPlaceholders, k, v);
      var idx := FindFree(k);
      slots[idx] := Entry(k, v);
      alloc := alloc + {idx};
      if idx in placeholders {
        placeholders := placeholders - {idx};
        numPlaceholders := numPlaceholders - 1;
      }
      numKvs := numKvs + 1;
      Contents := Contents[k := v];
      assert View() == Put(t, idx, k, v);
    }

    /** add, for a key that is not in the table: full at half load, and otherwise never a failure.
        A rehash inside add calls add again, but never a second rehash. */
    method Add(k: K, v: V) returns (r: Status)
      requires Ok() && k !in Contents
      modifies this, slots, scratch
      ensures Ok()
      ensures old(|Contents|) >= n / 2 ==> r == Full && Contents == old(Contents)
      ensures old(|Contents|) < n / 2 ==> r == Success && Contents == old(Contents)[k := v]
      ensures old(numPlaceholders) <= n / 2 ==> numPlaceholders <= old(numPlaceholders)
                                                && scratch[..] == old(scratch[..])
      decreases if numPlaceholders > n / 2 then 2 else 0, 0
    {
      MapCard(hash, View(), Contents);
      if numKvs >= n / 2 {
        return Full;
      }
      if numPlaceholders > n / 2 {
        Rehash();
      }
      Insert(k, v);
      return Success;
    }

    /** The copy of one entry: the length is taken for words where bytes are meant, so seven more entries come along. */
    method CopyEntry(from: nat, dest: nat)
      requires from < n == slots.Length && dest + 8 <= scratch.Length && |after| == 7 && slots != scratch
      modifies scratch
      ensures scratch[..] == Overlay(old(scratch[..]), dest, (slots[..] + after)[from..from + 8])
    {
      ghost var was, memory := scratch[..], slots[..] + after;
      for j := 0 to 8
        invariant scratch[..] == Overlay(was, dest, memory[from..from + j])
      {
        scratch[dest + j] := if from + j < n then slots[from + j] else after[from + j - n];
        OverlayNext(was, dest, memory, from, j, scratch[..]);
      }
    }

    /** One turn of the copying loop. */
    method CopySlot(idx: nat, copied: nat, ghost t: Slots<K, V>, ghost was: seq<Entry<K, V>>) returns (now: nat)
      requires idx < n == slots.Length && scratch.Length == n + 7 && |after| == 7 && slots != scratch && |was| == n + 7
      requires View() == t && copied == |Listed(t, idx)| && scratch[..] == Copied(t, after, was, idx)
      modifies scratch
      ensures now == |Listed(t, idx + 1)| && scratch[..] == Copied(t, after, was, idx + 1)
    {
      ListedShort(t, idx);
      now := copied;
      if idx in alloc && idx !in placeholders {
        CopyEntry(idx, copied);
        now := copied + 1;
      }
    }

    /** First half of a rehash: the copying loop, which stops at the last live entry. */
    method CopyOut()
      requires Ok()
      modifies scratch
      ensures numKvs == |Listed(View(), n)| && scratch[..] == Copied(View(), after, old(scratch[..]), n)
    {
      ghost var t := View();
      ListedAll(hash, t, Contents);
      CopyLoop(t);
    }

    method CopyLoop(ghost t: Slots<K, V>)
      requires 0 < n == slots.Length && scratch.Length == n + 7 && |after| == 7 && slots != scratch
      requires View() == t && numKvs == |Listed(t, n)|
      modifies scratch
      ensures scratch[..] == Copied(t, after, old(scratch[..]), n)
    {
      ghost var was := scratch[..];
      var copied, idx := 0, 0;
      while copied < numKvs
        invariant 0 <= idx <= n && copied == |Listed(t, idx)| <= numKvs && View() == t
        invariant scratch[..] == Copied(t, after, was, idx)
        decreases n - idx
      {
        copied := CopySlot(idx, copied, t, was);
        idx := idx + 1;
        ListedPrefix(t, idx, n);
      }
      CopiedSettled(t, after, was, idx, n);
    }

    /** The live entries are copied out, both sets cleared, and the entries added again. */
    method Rehash()
      requires Ok() && numPlaceholders > n / 2
      modifies this, slots, scratch
      ensures Ok() && Contents == old(Contents) && numPlaceholders == 0 && numKvs == old(numKvs)
      ensures scratch[..] == old(Copied(View(), after, scratch[..], n))
      ensures Spilled(old(View()), after, old(scratch[..]), scratch[..])
      ensures n >= 12 ==> scratch[n..] == old(scratch[n..])
      decreases 1, 0
    {
      ghost var t, was := View(), scratch[..];
      if n >= 12 { SpillFits(hash, t, Contents, numKvs, numPlaceholders); }
      MapCard(hash, View(), Contents);
      ListedAll(hash, t, Contents);
      SpillMeans(t, after, was);
      var total, listed := Unload();
      AddAll(listed, total);
      MapCard(hash, View(), Contents);
    }

    /** Copy the entries out and forget them. */
    method Unload() returns (total: nat, ghost listed: seq<Entry<K, V>>)
      requires Ok()
      modifies this, scratch
      ensures Ok() && Contents == map[] && numPlaceholders == 0
      ensures total == old(numKvs) <= n / 2 && listed == scratch[..total] && DistinctKeys(listed)
      ensures MapOf(listed) == old(Contents)
      ensures scratch[..] == old(Copied(View(), after, scratch[..], n))
    {
      ghost var t := View();
      ListedAll(hash, t, Contents);
      CopiedMeans(t, after, scratch[..], n);
      total := numKvs;
      listed := Listed(t, n);
      CopyOut();
      Forget();
    }

    /** Both sets are cleared. */
    method Forget()
      requires Ok()
      modifies this
      ensures Ok() && Contents == map[] && numPlaceholders == 0 && numKvs == 0
    {
      alloc, placeholders := {}, {};
      numPlaceholders, numKvs := 0, 0;
      Contents := map[];
      BlankGood(hash, slots[..]);
    }

    /** Second half of a rehash: add the listed entries to the emptied table. */
    method AddAll(ghost listed: seq<Entry<K, V>>, total: nat)
      requires Ok() && Contents == map[] && numPlaceholders == 0
      requires total <= n / 2 && listed == scratch[..total] && DistinctKeys(listed)
      modifies this, slots, scratch
      ensures Ok() && Contents == MapOf(listed) && numPlaceholders == 0 && scratch[..] == old(scratch[..])
      decreases 0, 1
    {
      for j := 0 to total
        invariant Ok() && numPlaceholders == 0 && scratch[..] == old(scratch[..])
        invariant Contents == MapOf(listed[..j])
      {
        AddsNext(listed, j);
        var status := Add(scratch[j].key, scratch[j].val);
      }
      assert listed[..total] == listed;
    }

    /** Taking out a found entry, with the left sweep. The table stays good for every layout
        exactly when 2^64 mod num_slots is at most 2 (RemoveSafeIff). */
    method TakeSlot(idx: int)
      requires Ok() && Live(View(), idx)
      modifies this
      ensures View() == old(TakeOut(View(), idx)) && Contents == old(Contents) - {old(slots[idx].key)}
      ensures WORD % n <= 2 ==> Ok()
    {
      ghost var t := View();
      if WORD % n <= 2 {
        TakeOutGood(hash, t, Contents, numKvs, numPlaceholders, idx);
      }
      assert idx in LiveSet(t);
      Unlink(idx);
      Contents := Contents - {t.at[idx].key};
    }

    /** The slot becomes a placeholder if the chain goes on behind it; otherwise the chain is cut back. */
    method Unlink(idx: int)
      requires 0 < n == slots.Length && 0 <= idx < n && idx !in placeholders
      requires numPlaceholders == |placeholders| && numKvs > 0
      modifies this
      ensures View() == old(TakeOut(View(), idx)) && numPlaceholders == |placeholders|
      ensures numKvs == old(numKvs) - 1 && Contents == old(Contents)
    {
      NextIsMod(n, idx);
      if (idx + 1) % n in alloc {
        placeholders := placeholders + {idx};
        numPlaceholders := numPlaceholders + 1;
      } else {
        alloc := alloc - {idx};
        SweepLeft(Left(n, idx));
      }
      numKvs := numKvs - 1;
    }

    /** The left sweep. */
    method SweepLeft(from: int)
      requires 0 < n == slots.Length && numPlaceholders == |placeholders|
      modifies this
      ensures View() == old(Sweep(View(), from)) && numPlaceholders == |placeholders|
      ensures numKvs == old(numKvs) && Contents == old(Contents)
    {
      var prev := from;
      while prev in placeholders
        invariant Sweep(View(), prev) == old(Sweep(View(), from))
        invariant numPlaceholders == |placeholders| && numKvs == old(numKvs) && Contents == old(Contents)
        decreases |placeholders|
      {
        placeholders := placeholders - {prev};
        numPlaceholders := numPlaceholders - 1;
        alloc := alloc - {prev};
        prev := Left(n, prev);
      }
    }

    /** remove: takes the key out of the map if it is there. */
    method Remove(k: K) returns (r: Status)
      requires Ok()
      modifies this, slots, scratch
      ensures Contents == old(Contents) - {k}
      ensures k !in old(Contents) || WORD % n <= 2 ==> Ok()
      ensures k in old(Contents) <==> r == Success
      ensures k !in old(Contents) ==>
                r == if exists e :: 0 <= e < n - 1 && Ahead(n, hash(k) % n, e) !in alloc then KeyNotFound else Failure
    {
      if numPlaceholders > n / 2 {
        Rehash();
      }
      r := RemoveProbed(k);
    }

    /** remove, with the rehash out of the way. */
    method RemoveProbed(k: K) returns (r: Status)
      requires Ok()
      modifies this
      ensures Contents == old(Contents) - {k}
      ensures k !in old(Contents) || WORD % n <= 2 ==> Ok()
      ensures k in old(Contents) <==> r == Success
      ensures k !in old(Contents) ==> alloc == old(alloc)
      ensures k !in old(Contents) ==>
                r == if exists e :: 0 <= e < n - 1 && Ahead(n, hash(k) % n, e) !in alloc then KeyNotFound else Failure
    {
      FindCorrect(hash, View(), Contents, k);
      var found := Probe(k);
      match found
      case Absent => return KeyNotFound;
      case Around => return Failure;
      case At(idx) =>
        TakeSlot(idx);
        return Success;
    }

    /** replace: remove, whatever comes of it, then add. */
    method Replace(k: K, v: V) returns (r: Status)
      requires Ok() && (WORD % n <= 2 || k !in Contents)
      modifies this, slots, scratch
      ensures Ok()
      ensures |old(Contents) - {k}| < n / 2 ==> r == Success && Contents == old(Contents)[k := v]
      ensures |old(Contents) - {k}| >= n / 2 ==> r == Full && Contents == old(Contents)
    {
      MapCard(hash, View(), Contents);
      WithAndWithout(Contents, k, v);
      var _ := Remove(k);
      r := Add(k, v);
    }

    /** The iterator: the first live slot at or after index, or the end. */
    method IteratorNext(index: nat) returns (done: bool, next: nat, e: Entry<K, V>)
      requires Ok()
      ensures !done ==> index < next <= n && Live(View(), next - 1) && e == slots[next - 1]
                        && Listed(View(), next) == Listed(View(), index) + [e]
      ensures done ==> index >= n || Listed(View(), n) == Listed(View(), index)
    {
      next, e := index, slots[0];
      while next < n
        invariant index <= next && (index <= n ==> next <= n)
        invariant next <= n ==> Listed(View(), next) == Listed(View(), index)
      {
        var idx := next;
        next := next + 1;
        assert Listed(View(), next) == Listed(View(), idx) + if Live(View(), idx) then [View().at[idx]] else [];
        if idx in alloc && idx !in placeholders {
          return false, next, slots[idx];
        }
      }
      return true, next, e;
    }
  }
}
