/**
 The bitset: a set of naturals below a fixed size, one bit each, with the number of members and
 the number of leading zeroes kept beside the bits.

 Within a byte the bits run from the left, so that member i is bit 7 - i % 8 of byte i / 8. The
 bytes start on a word boundary and are padded to whole words, and a word that is zero is skipped
 at one go. Module Bits holds the bits of a byte, Scanning the scan over a set, and class Bitset the loops.
 */
module Bits {
  /** The table of masks. */
  function Mask(j: int): bv8 {
    if j == 0 then 0x01 else if j == 1 then 0x02 else if j == 2 then 0x04 else if j == 3 then 0x08
    else if j == 4 then 0x10 else if j == 5 then 0x20 else if j == 6 then 0x40 else 0x80
  }

  predicate IsSet(x: bv8, j: int) {
    x & Mask(j) != 0
  }

  predicate Bit(d: seq<bv8>, i: int)
    requires 0 <= i < 8 * |d|
  {
    IsSet(d[i / 8], 7 - i % 8)
  }

  /** Turn one bit on; the byte changes exactly when the bit does. */
  method TurnOn(x: bv8, j: int) returns (y: bv8)
    requires 0 <= j < 8
    ensures forall k :: 0 <= k < 8 ==> (IsSet(y, k) <==> k == j || IsSet(x, k))
    ensures y != x <==> !IsSet(x, j)
  {
    y := x | Mask(j);
  }

  /** Turn one bit off. */
  method TurnOff(x: bv8, j: int) returns (y: bv8)
    requires 0 <= j < 8
    ensures forall k :: 0 <= k < 8 ==> (IsSet(y, k) <==> k != j && IsSet(x, k))
    ensures y != x <==> IsSet(x, j)
  {
    y := x & !Mask(j);
  }

  /** Bring one bit down to 0 or 1. */
  method Extract(x: bv8, j: int) returns (b: bool)
    requires 0 <= j < 8
    ensures b <==> IsSet(x, j)
  {
    var y := x & Mask(j);
    assert y == 0 || y == Mask(j);
    b := y >> j == 1;
  }

  lemma ZeroByte(x: bv8)
    ensures x == 0 <==> forall j :: 0 <= j < 8 ==> !IsSet(x, j)
  {
    assert IsSet(x, 0) || IsSet(x, 1) || IsSet(x, 2) || IsSet(x, 3) || IsSet(x, 4) || IsSet(x, 5) || IsSet(x, 6)
        || IsSet(x, 7) || x == 0;
  }

}

/** The scan over a set of naturals below size, as the source does it and as it should be. */
module Scanning {
  /** The first member from i on, or size if there is none. */
  function First(s: set<int>, size: nat, i: int): (r: int)
    requires i >= 0
    decreases size - i
  {
    if i >= size then size else if i in s then i else First(s, size, i + 1)
  }

  ghost predicate Empty(s: set<int>, a: int, b: int) {
    forall i :: a <= i < b ==> i !in s
  }

  lemma {:induction false} FirstMeans(s: set<int>, size: nat, i: int)
    requires 0 <= i <= size
    ensures i <= First(s, size, i) <= size
    ensures Empty(s, i, First(s, size, i))
    ensures First(s, size, i) < size ==> First(s, size, i) in s
    decreases size - i
  {
    if i < size && i !in s { FirstMeans(s, size, i + 1); }
  }

  lemma {:induction false} FirstSkips(s: set<int>, size: nat, i: int, j: int)
    requires 0 <= i <= j <= size && Empty(s, i, j)
    ensures First(s, size, i) == First(s, size, j)
    decreases j - i
  {
    if i < j { FirstSkips(s, size, i + 1, j); }
  }

  ghost predicate WordZero(s: set<int>, w: int) {
    Empty(s, 64 * w, 64 * w + 64)
  }

  ghost predicate ByteZero(s: set<int>, k: int) {
    Empty(s, 8 * k, 8 * k + 8)
  }

  /** Where the loop of zeroes_to_right stops: it tests the byte's address for a word boundary, not the index. */
  ghost function Scan(s: set<int>, size: nat, i: int): int
    requires i >= 0
    decreases size - i
  {
    if i >= size then i
    else if i + 64 < size && (i / 8) % 8 == 0 && WordZero(s, i / 64) then Scan(s, size, i + 64)
    else if i + 8 < size && i % 8 == 0 && ByteZero(s, i / 8) then Scan(s, size, i + 8)
    else if i in s then i
    else Scan(s, size, i + 1)
  }

  /** A place from which no word is skipped in the middle. */
  ghost predicate Safe(s: set<int>, size: nat, i: int) {
    i % 64 == 0 || i % 64 >= 8 || !WordZero(s, i / 64) || i + 64 >= size
  }

  lemma SafeOn(s: set<int>, size: nat, i: int)
    requires 0 <= i < size && Safe(s, size, i)
    ensures i % 8 == 0 ==> Safe(s, size, i + 8)
    ensures i % 64 == 0 && i + 64 < size && WordZero(s, i / 64) ==> Safe(s, size, i + 64)
    ensures !(i % 64 == 0 && i + 64 < size && WordZero(s, i / 64)) ==> Safe(s, size, i + 1)
  {
    if i % 64 < 8 && i % 64 != 7 { assert (i + 1) / 64 == i / 64; }
  }

  lemma WordSkip(s: set<int>, size: nat, i: int)
    requires 0 <= i && i + 64 < size && i % 64 == 0 && WordZero(s, i / 64)
    ensures First(s, size, i) == First(s, size, i + 64)
  {
    assert 64 * (i / 64) == i;
    FirstSkips(s, size, i, i + 64);
  }

  lemma ByteSkip(s: set<int>, size: nat, i: int)
    requires 0 <= i && i + 8 < size && i % 8 == 0 && ByteZero(s, i / 8)
    ensures First(s, size, i) == First(s, size, i + 8)
  {
    assert 8 * (i / 8) == i;
    FirstSkips(s, size, i, i + 8);
  }

  lemma AlignedByte(i: int)
    requires i >= 0
    ensures (i / 8) % 8 == 0 <==> i % 64 < 8
  {
  }

  lemma {:induction false} SafeScan(s: set<int>, size: nat, i: int)
    requires 0 <= i <= size && Safe(s, size, i)
    ensures Scan(s, size, i) == First(s, size, i)
    decreases size - i
  {
    if i < size {
      SafeOn(s, size, i);
      AlignedByte(i);
      if i + 64 < size && (i / 8) % 8 == 0 && WordZero(s, i / 64) {
        SafeScan(s, size, i + 64);
        WordSkip(s, size, i);
      } else if i + 8 < size && i % 8 == 0 && ByteZero(s, i / 8) {
        SafeScan(s, size, i + 8);
        ByteSkip(s, size, i);
      } else if i !in s {
        SafeScan(s, size, i + 1);
      }
    }
  }

  /** Out of step with the words by r, a scan that gets into the word of the first member m behind it misses it. */
  ghost predicate Misses(s: set<int>, size: nat, i: int)
    requires i >= 0
  {
    var m := First(s, size, i);
    m < size && m % 64 < i % 64 && m - m % 64 + i % 64 < size
  }

  /** One word on, out of step. */
  lemma MissesNext(s: set<int>, size: nat, i: int)
    requires 0 <= i && 1 <= i % 64 <= 7 && i + 64 < size && WordZero(s, i / 64)
    ensures WordZero(s, i / 64 + 1) ==> First(s, size, i) == First(s, size, i + 64)
    ensures (i + 64) / 64 == i / 64 + 1 && (i + 64) % 64 == i % 64
  {
    assert i == 64 * (i / 64) + i % 64;
    if WordZero(s, i / 64 + 1) { FirstSkips(s, size, i, i + 64); }
  }

  /** The next word is not empty: the scan goes on bit by bit from the middle of it. */
  lemma MissesHere(s: set<int>, size: nat, i: int)
    requires 0 <= i && 1 <= i % 64 <= 7 && i + 64 < size && WordZero(s, i / 64) && !WordZero(s, i / 64 + 1)
    requires forall x :: x in s ==> 0 <= x < size
    ensures First(s, size, i + 64) != First(s, size, i) <==> Misses(s, size, i)
  {
    var w := i / 64 + 1;
    assert i == 64 * (w - 1) + i % 64;
    FirstMeans(s, size, i);
    FirstMeans(s, size, i + 64);
    var m := First(s, size, i);
    var x :| 64 * w <= x < 64 * w + 64 && x in s;
    assert 64 * w <= m <= x;
    assert m / 64 == w && m - m % 64 == 64 * w;
    if Empty(s, i, i + 64) { FirstSkips(s, size, i, i + 64); }
  }

  /** A scan that starts out of step in an empty word is right exactly when it does not miss the first member. */
  lemma {:induction false} UnsafeScan(s: set<int>, size: nat, i: int)
    requires 0 <= i && 1 <= i % 64 <= 7 && i + 64 < size && WordZero(s, i / 64)
    requires forall x :: x in s ==> 0 <= x < size
    ensures Scan(s, size, i) == First(s, size, i) <==> !Misses(s, size, i)
    decreases size - i
  {
    MissesNext(s, size, i);
    AlignedByte(i);
    var j := i + 64;
    assert Scan(s, size, i) == Scan(s, size, j);
    if !WordZero(s, j / 64) {
      SafeScan(s, size, j);
      MissesHere(s, size, i);
    } else if j + 64 < size {
      UnsafeScan(s, size, j);
    } else {
      SafeScan(s, size, j);
      NothingToMiss(s, size, i);
    }
  }

  /** The next word is empty and the last whole one: there is nothing behind the scan. */
  lemma NothingToMiss(s: set<int>, size: nat, i: int)
    requires 0 <= i && 1 <= i % 64 <= 7 && i + 64 < size <= i + 128
    requires WordZero(s, i / 64) && WordZero(s, i / 64 + 1)
    ensures !Misses(s, size, i)
  {
    MissesNext(s, size, i);
    FirstMeans(s, size, i + 64);
    var w, m := i / 64 + 1, First(s, size, i + 64);
    assert i == 64 * (w - 1) + i % 64;
    assert m < size ==> m >= 64 * w + 64;
    assert m >= 64 * w + 64 ==> m - m % 64 >= 64 * w + 64;
  }

  /** The starting points from which zeroes_to_right goes wrong. */
  ghost predicate Overshoot(s: set<int>, size: nat, v: int)
    requires v >= 0
  {
    && v % 64 <= 6 && WordZero(s, v / 64)
    && var m := First(s, size, v + 1);
       m < size && m % 64 <= v % 64 && m - m % 64 + v % 64 + 1 < size
  }

  /** zeroes_to_right is the distance to the next member, or to the end, unless it overshoots; and then it is not. */
  lemma ScanExactIff(s: set<int>, size: nat, v: int)
    requires 0 <= v < size && forall x :: x in s ==> 0 <= x < size
    ensures Scan(s, size, v + 1) == First(s, size, v + 1) <==> !Overshoot(s, size, v)
  {
    var i := v + 1;
    if v % 64 > 6 {
      SafeScan(s, size, i);
    } else if WordZero(s, v / 64) && i + 64 < size {
      StepOn(v);
      UnsafeScan(s, size, i);
      OvershootIsMiss(s, size, v);
    } else {
      StepOn(v);
      SafeScan(s, size, i);
      NearTheEnd(s, size, v);
    }
  }

  lemma StepOn(v: int)
    requires 0 <= v && v % 64 <= 6
    ensures (v + 1) / 64 == v / 64 && (v + 1) % 64 == v % 64 + 1
  {
  }

  lemma OvershootIsMiss(s: set<int>, size: nat, v: int)
    requires 0 <= v < size && v % 64 <= 6 && WordZero(s, v / 64)
    ensures Overshoot(s, size, v) <==> Misses(s, size, v + 1)
  {
    StepOn(v);
  }

  /** With less than a word to go there is nothing to overshoot. */
  lemma NearTheEnd(s: set<int>, size: nat, v: int)
    requires 0 <= v < size && v % 64 <= 6 && (v + 65 >= size || !WordZero(s, v / 64))
    ensures !Overshoot(s, size, v)
  {
    var m := First(s, size, v + 1);
    FirstMeans(s, size, v + 1);
    if WordZero(s, v / 64) && m < size {
      assert m >= 64 * (v / 64) + 64;
      assert m - m % 64 >= 64 * (v / 64) + 64;
    }
  }

  /** From a member it never overshoots, so next finds the next larger member or the end. */
  lemma NextFromMember(s: set<int>, size: nat, v: int)
    requires v in s && forall x :: x in s ==> 0 <= x < size
    ensures !Overshoot(s, size, v)
    ensures var r := Scan(s, size, v + 1);
            && v < r <= size && Empty(s, v + 1, r) && (r < size ==> r in s)
  {
    assert 64 * (v / 64) <= v < 64 * (v / 64) + 64;
    ScanExactIff(s, size, v);
    FirstMeans(s, size, v + 1);
  }

  /** Resetting 2 in {2, 64} of size 128: the scan runs past 64. */
  lemma OvershootHappens()
    ensures Overshoot({64}, 128, 2)
    ensures Scan({64}, 128, 3) == 128 && First({64}, 128, 3) == 64
  {
    FirstSkips({64}, 128, 3, 64);
    assert WordZero({64}, 0);
    MissesNext({64}, 128, 3);
    assert 64 in {64} && !WordZero({64}, 1);
    assert Scan({64}, 128, 3) == Scan({64}, 128, 67);
    SafeScan({64}, 128, 67);
    FirstSkips({64}, 128, 67, 128);
  }
}

module Bitset {
  import opened Bits
  import opened Scanning

  /** Bytes for size bits, in whole words. */
  function Bytes(size: nat): nat {
    (size + 63) / 64 * 8
  }

  lemma InRange(size: nat, i: int)
    requires 0 <= i < size
    ensures i / 8 < Bytes(size)
    ensures i + 64 < size && (i / 8) % 8 == 0 ==> i / 8 + 8 <= Bytes(size) && (i / 8) / 8 == i / 64
  {
  }

  /** The numbers below size whose bit is on; the bits behind them may hold anything. */
  ghost function Members(d: seq<bv8>, size: nat): set<int> {
    set i | 0 <= i < size && i < 8 * |d| && Bit(d, i)
  }

  lemma MembersAfterSet(d: seq<bv8>, d': seq<bv8>, size: nat, v: int)
    requires 0 <= v < size <= 8 * |d| && |d'| == |d| && d' == d[v / 8 := d'[v / 8]]
    requires forall k :: 0 <= k < 8 ==> (IsSet(d'[v / 8], k) <==> k == 7 - v % 8 || IsSet(d[v / 8], k))
    ensures Members(d', size) == Members(d, size) + {v}
  {
    forall i | 0 <= i < 8 * |d| ensures Bit(d', i) <==> i == v || Bit(d, i) {
      if i / 8 == v / 8 { assert 7 - i % 8 == 7 - v % 8 <==> i == v; }
    }
  }

  lemma MembersAfterReset(d: seq<bv8>, d': seq<bv8>, size: nat, v: int)
    requires 0 <= v < size <= 8 * |d| && |d'| == |d| && d' == d[v / 8 := d'[v / 8]]
    requires forall k :: 0 <= k < 8 ==> (IsSet(d'[v / 8], k) <==> k != 7 - v % 8 && IsSet(d[v / 8], k))
    ensures Members(d', size) == Members(d, size) - {v}
  {
    forall i | 0 <= i < 8 * |d| ensures Bit(d', i) <==> i != v && Bit(d, i) {
      if i / 8 == v / 8 { assert 7 - i % 8 == 7 - v % 8 <==> i == v; }
    }
  }

  /** A byte is zero exactly when none of its eight numbers is a member. */
  lemma ZeroByteIsEmpty(d: seq<bv8>, size: nat, k: int)
    requires 0 <= k < |d| && 8 * k + 8 <= size
    ensures d[k] == 0 <==> ByteZero(Members(d, size), k)
  {
    ZeroByte(d[k]);
    if d[k] == 0 {
      forall i | 8 * k <= i < 8 * k + 8 ensures i !in Members(d, size) { assert i / 8 == k; }
    } else if ByteZero(Members(d, size), k) {
      forall j | 0 <= j < 8 ensures !IsSet(d[k], j) {
        var i := 8 * k + (7 - j);
        assert i / 8 == k && i % 8 == 7 - j && i !in Members(d, size);
      }
    }
  }

  /** Eight bytes from a word boundary are zero exactly when the word is empty. */
  lemma ZeroWordIsEmpty(d: seq<bv8>, size: nat, k: int)
    requires 0 <= k && k + 8 <= |d| && k % 8 == 0 && 8 * k + 64 <= size
    ensures (forall j :: k <= j < k + 8 ==> d[j] == 0) <==> WordZero(Members(d, size), k / 8)
  {
    var s := Members(d, size);
    forall j | k <= j < k + 8 ensures d[j] == 0 <==> ByteZero(s, j) { ZeroByteIsEmpty(d, size, j); }
    if forall j :: k <= j < k + 8 ==> d[j] == 0 {
      forall i | 8 * k <= i < 8 * k + 64 ensures i !in s { assert ByteZero(s, i / 8); }
    }
  }

  lemma AllZero(d: seq<bv8>, size: nat)
    requires forall k :: 0 <= k < |d| && k < (size + 7) / 8 ==> d[k] == 0
    ensures Members(d, size) == {}
  {
  }

  datatype Status = Success | BoundsError | IterationComplete | Failure

  class Bitset {
    const size: nat
    const data: array<bv8>
    var length: nat
    var leadingZeroes: nat

    ghost function Set(): set<int>
      reads data
    {
      Members(data[..], size)
    }

    /** The length is the number of members. */
    ghost predicate Valid()
      reads this, data
    {
      && data.Length == Bytes(size)
      && length == |Set()|
    }

    /** The cached minimum is right. */
    ghost predicate LeadExact()
      reads this, data
    {
      leadingZeroes == First(Set(), size, 0)
    }

    /** Init, on memory that holds anything at all. */
    constructor (size: nat, bytes: seq<bv8>)
      requires |bytes| == Bytes(size)
      ensures Valid() && LeadExact() && Set() == {} && this.size == size && fresh(data)
    {
      this.size := size;
      data := new bv8[|bytes|](i requires 0 <= i < |bytes| => bytes[i]);
      new;
      Clear();
    }

    method Clear()
      requires data.Length == Bytes(size)
      modifies this, data
      ensures Valid() && LeadExact() && Set() == {}
    {
      var k := 0;
      var max := (size + 7) / 8;
      while k < max
        invariant k <= max <= data.Length
        invariant forall j :: 0 <= j < k ==> data[j] == 0
      {
        data[k] := 0;
        k := k + 1;
      }
      length, leadingZeroes := 0, size;
      AllZero(data[..], size);
      FirstSkips({}, size, 0, size);
    }

    method Put(v: nat) returns (status: Status)
      requires Valid()
      modifies this, data
      ensures Valid() && status == if v < size then Success else BoundsError
      ensures Set() == if v < size then old(Set()) + {v} else old(Set())
      ensures old(LeadExact()) ==> LeadExact()
    {
      if v >= size {
        return BoundsError;
      }
      ghost var s := Set();
      AddBit(v);
      LeadAfterSet(s, size, v);
      if v < leadingZeroes {
        leadingZeroes := v;
      }
      return Success;
    }

    /** The bit and the count, without the cached minimum. */
    method AddBit(v: nat)
      requires Valid() && v < size
      modifies this`length, data
      ensures Valid() && Set() == old(Set()) + {v}
    {
      ghost var d, s := data[..], Set();
      InRange(size, v);
      var previous := data[v / 8];
      var now := TurnOn(previous, 7 - v % 8);
      data[v / 8] := now;
      MembersAfterSet(d, data[..], size, v);
      assert v in s <==> Bit(d, v);
      if previous != now {
        length := length + 1;
      }
    }

    method Get(v: nat) returns (status: Status, b: bool)
      requires Valid()
      ensures status == if v < size then Success else BoundsError
      ensures b <==> v in Set()
    {
      if v >= size {
        return BoundsError, false;
      }
      b := Extract(data[v / 8], 7 - v % 8);
      assert v in Set() <==> Bit(data[..], v);
      return Success, b;
    }

    method ByteIsZero(k: nat) returns (zero: bool)
      requires k < data.Length && 8 * k + 8 <= size
      ensures zero <==> ByteZero(Set(), k)
    {
      ZeroByteIsEmpty(data[..], size, k);
      return data[k] == 0;
    }

    /** Eight bytes read as one word. */
    method WordIsZero(k: nat) returns (zero: bool)
      requires k % 8 == 0 && k + 8 <= data.Length && 8 * k + 64 <= size
      ensures zero <==> WordZero(Set(), k / 8)
    {
      ZeroWordIsEmpty(data[..], size, k);
      assert forall j :: k <= j < k + 8 ==> data[..][j] == data[j];
      return forall j :: k <= j < k + 8 ==> data[j] == 0;
    }

    method ZeroesToRight(v: nat) returns (status: Status, n: nat)
      requires Valid()
      ensures status == if v < size then Success else BoundsError
      ensures v < size ==> v + 1 + n == Scan(Set(), size, v + 1)
    {
      if v >= size {
        return BoundsError, 0;
      }
      ghost var s := Set();
      var idx := v + 1;
      n := 0;
      while idx < size
        invariant idx == v + 1 + n <= size
        invariant Scan(s, size, v + 1) == Scan(s, size, idx)
      {
        InRange(size, idx);
        var skip := false;
        if idx + 64 < size && (idx / 8) % 8 == 0 {
          skip := WordIsZero(idx / 8);
        }
        var byteZero := false;
        if idx + 8 < size && idx % 8 == 0 {
          byteZero := ByteIsZero(idx / 8);
        }
        if skip {
          idx := idx + 64;
          n := n + 64;
        } else if byteZero {
          idx := idx + 8;
          n := n + 8;
        } else {
          var _, b := Get(idx);
          if b {
            return Success, n;
          }
          n := n + 1;
          idx := idx + 1;
        }
      }
      return Success, n;
    }

    /**
     The set is always right; the cached minimum stays right exactly when the scan for the new one does
     not overshoot.
     */
    method Reset(v: nat) returns (status: Status)
      requires Valid()
      modifies this, data
      ensures Valid() && status == if v < size then Success else BoundsError
      ensures Set() == if v < size then old(Set()) - {v} else old(Set())
      ensures old(LeadExact()) && v < size ==>
                (LeadExact() <==> !(v == old(leadingZeroes) && Overshoot(Set(), size, v)))
      ensures v >= size || v != old(leadingZeroes) ==> leadingZeroes == old(leadingZeroes)
    {
      if v >= size {
        return BoundsError;
      }
      ghost var s := Set();
      DropBit(v);
      LeadAfterReset(s, size, v);
      if v == leadingZeroes {
        if length == 0 {
          leadingZeroes := size;
        } else {
          var _, n := ZeroesToRight(v);
          leadingZeroes := v + n + 1;
          ScanExactIff(Set(), size, v);
        }
      }
      return Success;
    }

    /** The bit and the count, without the cached minimum. */
    method DropBit(v: nat)
      requires Valid() && v < size
      modifies this`length, data
      ensures Valid() && Set() == old(Set()) - {v}
    {
      ghost var d, s := data[..], Set();
      InRange(size, v);
      var previous := data[v / 8];
      var now := TurnOff(previous, 7 - v % 8);
      data[v / 8] := now;
      MembersAfterReset(d, data[..], size, v);
      assert v in s <==> Bit(d, v);
      if previous != now {
        length := length - 1;
      }
    }

    /** With an exact cache: the least member, or that there is none. */
    method FirstMember() returns (status: Status, first: nat)
      requires Valid()
      ensures LeadExact() ==> status == if Set() == {} then IterationComplete else Success
      ensures status.Success? ==> first == leadingZeroes && first in Set()
      ensures LeadExact() && status.Success? ==> forall i :: i in Set() ==> first <= i
      ensures status.Failure? <==> Set() != {} && leadingZeroes < size && leadingZeroes !in Set()
    {
      FirstMeans(Set(), size, 0);
      first := leadingZeroes;
      if length == 0 || first >= size {
        assert LeadExact() && first >= size ==> Set() == {};
        return IterationComplete, first;
      }
      var _, b := Get(first);
      return if b then Success else Failure, first;
    }

    /** Wherever the scan ends; from a member that is the next larger one, or that there is none, and from elsewhere
        exactly when the scan does not overshoot. */
    method Next(v: nat) returns (status: Status, next: nat)
      requires Valid()
      ensures v >= size ==> status.IterationComplete?
      ensures v < size ==> next == Scan(Set(), size, v + 1) && (status.Success? <==> next < size)
      ensures v < size ==> (next == First(Set(), size, v + 1) <==> !Overshoot(Set(), size, v))
      ensures v in Set() ==>
                && (status.Success? ==> next in Set() && v < next && Empty(Set(), v + 1, next))
                && (status.IterationComplete? ==> Empty(Set(), v + 1, size))
      ensures status.Success? || status.IterationComplete?
    {
      if v >= size {
        return IterationComplete, 0;
      }
      var _, n := ZeroesToRight(v);
      next := v + n + 1;
      ScanExactIff(Set(), size, v);
      if v in Set() { NextFromMember(Set(), size, v); }
      return if next >= size then IterationComplete else Success, next;
    }
  }

  lemma LeadAfterSet(s: set<int>, size: nat, v: nat)
    requires v < size
    ensures First(s + {v}, size, 0) == if v < First(s, size, 0) then v else First(s, size, 0)
  {
    FirstMeans(s, size, 0);
    FirstMeans(s + {v}, size, 0);
  }

  lemma LeadAfterReset(s: set<int>, size: nat, v: nat)
    requires v < size && forall x :: x in s ==> 0 <= x < size
    ensures v != First(s, size, 0) ==> First(s - {v}, size, 0) == First(s, size, 0)
    ensures v == First(s, size, 0) ==> First(s - {v}, size, 0) == First(s - {v}, size, v + 1)
    ensures s - {v} == {} ==> First(s - {v}, size, 0) == First(s - {v}, size, v + 1) == size
  {
    FirstMeans(s, size, 0);
    FirstMeans(s - {v}, size, 0);
    FirstMeans(s - {v}, size, v + 1);
    var m, m' := First(s, size, 0), First(s - {v}, size, 0);
    if v == m {
      FirstSkips(s - {v}, size, 0, v + 1);
    } else {
      assert m < m' ==> m in s - {v};
      assert m' < m ==> m' in s;
    }
  }
}
