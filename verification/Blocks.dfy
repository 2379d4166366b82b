/**
 The blocks structure: a fixed number of slots for values, handed out under identifiers.

 A slot's id field does double duty. In a slot in use it holds the identifier, generation times
 the number of slots plus the slot's index; in a slot that was freed it links to the next free
 slot, with EOLL at the end. Slots that were never handed out are not on the list and hold
 whatever the memory held before. All arithmetic is that of 64-bit unsigned integers.
 */
module Blocks {
  import opened Counting

  const EOLL: nat := WORD - 1

  type Value = seq<int>

  datatype Blocks = Blocks(
    n: nat,
    width: nat,
    ids: seq<nat>,
    vals: seq<Value>,
    head: nat,
    used: nat,
    inited: nat,
    current: nat)

  /** The arrays have the sizes the header says. */
  predicate Sized(b: Blocks) {
    && 0 < b.n < WORD && |b.ids| == |b.vals| == b.n
    && forall i :: 0 <= i < b.n ==> |b.vals[i]| == b.width
  }

  function Sub(x: nat, y: nat): nat {
    (x - y) % WORD
  }

  // ---------------------------------------------------------------------------------------
  // Operations
  // ---------------------------------------------------------------------------------------

  /** The slot alloc takes: the next one never used, if every initialised slot is in use. */
  function Pick(b: Blocks): nat {
    if b.used == b.inited then b.inited else b.head
  }

  /** The generation would run over the end of the identifiers, so it starts again. */
  predicate Rotates(b: Blocks) {
    Sub(EOLL, b.current * b.n % WORD) <= b.n
  }

  function NewId(b: Blocks): nat {
    ((if Rotates(b) then 1 else b.current) * b.n + Pick(b)) % WORD
  }

  /** dragon_blocks_alloc past its check for space. */
  function Taken(b: Blocks, v: Value): Blocks
    requires Sized(b) && Pick(b) < b.n
  {
    b.(ids := b.ids[Pick(b) := NewId(b)],
       vals := b.vals[Pick(b) := v],
       head := if b.used == b.inited then b.head else b.ids[Pick(b)],
       inited := if b.used == b.inited then b.inited + 1 else b.inited,
       used := b.used + 1,
       current := if Rotates(b) then 2 else (b.current + 1) % WORD)
  }

  /** The test of free, get and next: the slot the identifier points at carries it. */
  predicate Accepts(b: Blocks, id: nat)
    requires Sized(b)
  {
    b.ids[id % b.n] >= b.n && b.ids[id % b.n] == id
  }

  function Zeros(k: nat): Value {
    seq(k, _ => 0)
  }

  /** dragon_blocks_free of an accepted identifier. */
  function Freed(b: Blocks, id: nat): Blocks
    requires Sized(b)
  {
    var i := id % b.n;
    b.(ids := b.ids[i := b.head], head := i, vals := b.vals[i := Zeros(b.width)], used := Sub(b.used, 1))
  }

  /** The test of count, first and next for a slot in use. */
  predicate InUse(b: Blocks, i: nat)
    requires i < |b.ids|
  {
    b.ids[i] >= b.n && b.ids[i] != EOLL
  }

  // ---------------------------------------------------------------------------------------
  // Abstraction and invariant
  // ---------------------------------------------------------------------------------------

  /** What the structure stores: identifiers in use and their values. */
  ghost function Live(b: Blocks): map<nat, Value>
    requires Sized(b)
  {
    map id | id in b.ids && Owned(b, id) :: b.vals[id % b.n]
  }

  ghost predicate Owned(b: Blocks, id: nat)
    requires Sized(b)
  {
    id % b.n < b.inited && b.ids[id % b.n] == id && InUse(b, id % b.n)
  }

  function Link(free: seq<nat>, k: nat): nat {
    if k < |free| then free[k] else EOLL
  }

  /** The list that starts at head runs through exactly the slots in free. */
  ghost predicate Threaded(b: Blocks, free: seq<nat>)
    requires Sized(b)
  {
    && Distinct(free)
    && b.head == Link(free, 0)
    && (forall k :: 0 <= k < |free| ==> free[k] < b.inited && free[k] < b.n)
    && (forall j, k :: 0 <= j < k < |free| && k == j + 1 ==> b.ids[free[j]] == free[k])
    && (free != [] ==> b.ids[free[|free| - 1]] == EOLL)
  }

  ghost predicate Stamped(b: Blocks, i: nat)
    requires Sized(b) && i < b.n
  {
    b.n <= b.ids[i] < EOLL && b.ids[i] % b.n == i
  }

  ghost predicate Valid(b: Blocks, free: seq<nat>) {
    && Sized(b) && b.n < 0x8000_0000_0000_0000
    && b.used <= b.inited <= b.n && |free| == b.inited - b.used
    && b.current >= 1 && b.current * b.n < EOLL
    && Threaded(b, free)
    && forall i :: 0 <= i < b.inited && i !in free ==> Stamped(b, i)
  }

  /** A slot passes the test of count, first and next exactly when it is initialised and not on the list. */
  lemma InUseIff(b: Blocks, free: seq<nat>, i: nat)
    requires Valid(b, free) && i < b.inited
    ensures InUse(b, i) <==> i !in free
    ensures i !in free ==> b.ids[i] in Live(b) && b.ids[i] % b.n == i
  {
    if i in free {
      var k :| 0 <= k < |free| && free[k] == i;
      assert b.ids[free[k]] == Link(free, k + 1);
      assert k + 1 < |free| ==> free[k + 1] < b.n;
    } else {
      assert Stamped(b, i);
    }
  }

  /** An identifier that is accepted and not in use: left over in fresh memory, or the end mark of the list. */
  ghost predicate Stray(b: Blocks, id: nat)
    requires Sized(b)
  {
    Accepts(b, id) && (id % b.n >= b.inited || id == EOLL)
  }

  lemma LiveOrStray(b: Blocks, id: nat)
    requires Sized(b)
    ensures Accepts(b, id) <==> id in Live(b) || Stray(b, id)
    ensures !(id in Live(b) && Stray(b, id))
  {
  }

  /**
   Get, free and next accept an identifier exactly when it is in use, or when a slot that was never
   handed out happens to hold it, or when it is the end mark and the last slot on the list is the
   one the end mark points at.
   */
  lemma AcceptsIff(b: Blocks, free: seq<nat>, id: nat)
    requires Valid(b, free)
    ensures Accepts(b, id) <==>
              || id in Live(b)
              || (id % b.n >= b.inited && id >= b.n && b.ids[id % b.n] == id)
              || (id == EOLL && free != [] && free[|free| - 1] == EOLL % b.n)
  {
    LiveOrStray(b, id);
    if id == EOLL && EOLL % b.n < b.inited { EndMarkAccepted(b, free); }
  }

  // ---------------------------------------------------------------------------------------
  // Identifiers
  // ---------------------------------------------------------------------------------------

  /** In sixty-four bits the rotation test says what it means: one more generation would reach EOLL. */
  lemma RotatesIff(b: Blocks)
    requires b.current * b.n < EOLL
    ensures Rotates(b) <==> (b.current + 1) * b.n >= EOLL
  {
    assert (b.current + 1) * b.n == b.current * b.n + b.n;
  }

  lemma StampOf(n: nat, c: nat, i: nat)
    requires i < n && c >= 1 && c * n + n <= EOLL
    ensures (c * n + i) % WORD == c * n + i && (c * n + i) % n == i && n <= c * n + i < EOLL
  {
    MulAtLeast(n, c);
    assert n * c == c * n;
    DivMod(c * n + i, n, c, i);
  }

  /** Identifiers never wrap, never look like a link and lead back to their slot; the next one will not either. */
  lemma NewIdGood(b: Blocks)
    requires 0 < b.n < 0x8000_0000_0000_0000 && b.current >= 1 && b.current * b.n < EOLL && Pick(b) < b.n
    ensures NewId(b) == (if Rotates(b) then b.n else b.current * b.n) + Pick(b)
    ensures b.n <= NewId(b) < EOLL && NewId(b) % b.n == Pick(b)
  {
    if Rotates(b) {
      StampOf(b.n, 1, Pick(b));
    } else {
      RotatesIff(b);
      assert (b.current + 1) * b.n == b.current * b.n + b.n;
      StampOf(b.n, b.current, Pick(b));
    }
  }

  lemma NextGeneration(b: Blocks)
    requires 0 < b.n < 0x8000_0000_0000_0000 && b.current >= 1 && b.current * b.n < EOLL
    ensures Rotates(b) ==> 2 * b.n < EOLL
    ensures !Rotates(b) ==> (b.current + 1) % WORD == b.current + 1 && (b.current + 1) * b.n < EOLL
  {
    if !Rotates(b) {
      RotatesIff(b);
      MulAtLeast(b.current + 1, b.n);
    }
  }

  // ---------------------------------------------------------------------------------------
  // Alloc and free on the map
  // ---------------------------------------------------------------------------------------

  ghost function AfterAlloc(b: Blocks, free: seq<nat>): seq<nat> {
    if b.used == b.inited || free == [] then free else free[1..]
  }

  /** With a slot to spare, alloc takes a fresh slot exactly when the list is empty, and its head otherwise. */
  lemma PickIsFree(b: Blocks, free: seq<nat>)
    requires Valid(b, free) && b.used < b.n
    ensures Pick(b) < b.n
    ensures Pick(b) == if free == [] then b.inited else free[0]
    ensures Pick(b) >= b.inited || Pick(b) in free
  {
  }

  lemma AllocThreaded(b: Blocks, free: seq<nat>, v: Value)
    requires Valid(b, free) && b.used < b.n && |v| == b.width
    ensures Pick(b) < b.n && Threaded(Taken(b, v), AfterAlloc(b, free))
  {
    PickIsFree(b, free);
    var b', free' := Taken(b, v), AfterAlloc(b, free);
    if free != [] {
      assert b.ids[free[0]] == Link(free, 1);
      forall k | 0 <= k < |free'|
        ensures free'[k] < b'.inited && free'[k] < b'.n && b'.ids[free'[k]] == Link(free', k + 1)
      {
        assert free'[k] == free[k + 1];
        assert b.ids[free[k + 1]] == Link(free, k + 2);
      }
    }
  }

  lemma AllocStamped(b: Blocks, free: seq<nat>, v: Value, i: nat)
    requires Valid(b, free) && b.used < b.n && |v| == b.width
    requires Pick(b) < b.n && i < Taken(b, v).inited && i !in AfterAlloc(b, free)
    ensures i < b.n && Sized(Taken(b, v)) && Stamped(Taken(b, v), i)
  {
    if i == Pick(b) {
      NewIdGood(b);
    } else {
      PickIsFree(b, free);
      assert free == AfterAlloc(b, free) || free == [Pick(b)] + AfterAlloc(b, free);
      assert Stamped(b, i);
    }
  }

  lemma AllocValid(b: Blocks, free: seq<nat>, v: Value)
    requires Valid(b, free) && b.used < b.n && |v| == b.width
    ensures Pick(b) < b.n && Valid(Taken(b, v), AfterAlloc(b, free))
  {
    PickIsFree(b, free);
    NextGeneration(b);
    AllocThreaded(b, free, v);
    var b', free' := Taken(b, v), AfterAlloc(b, free);
    forall i | 0 <= i < b'.inited && i !in free' ensures Stamped(b', i) {
      AllocStamped(b, free, v, i);
    }
  }

  /** Two structures that differ in one slot store the same under the identifiers of all others. */
  lemma ElsewhereSame(b: Blocks, b': Blocks, i: nat, x: nat)
    requires Sized(b) && Sized(b') && b.n == b'.n && i < b.n && x % b.n != i
    requires b'.ids == b.ids[i := b'.ids[i]] && b'.vals == b.vals[i := b'.vals[i]]
    requires b.inited <= b'.inited <= b.inited + 1 && (b'.inited > b.inited ==> i == b.inited)
    ensures x in Live(b) <==> x in Live(b')
    ensures x in Live(b) ==> Live(b)[x] == Live(b')[x]
  {
    assert Owned(b', x) <==> Owned(b, x);
    assert Owned(b', x) ==> b'.ids[x % b.n] in b'.ids && b.ids[x % b.n] in b.ids;
  }

  /** Nothing is stored in a slot that is not in use. */
  lemma NoneInSlot(b: Blocks, free: seq<nat>, i: nat, x: nat)
    requires Valid(b, free) && i < b.n && (i >= b.inited || i in free) && x % b.n == i
    ensures x !in Live(b)
  {
    if i < b.inited { InUseIff(b, free, i); }
  }

  /** What alloc does to one identifier. */
  lemma AllocLiveAt(b: Blocks, free: seq<nat>, v: Value, x: nat)
    requires Valid(b, free) && b.used < b.n && |v| == b.width
    ensures Pick(b) < b.n
    ensures x in Live(Taken(b, v)) <==> x == NewId(b) || x in Live(b)
    ensures x in Live(b) ==> x != NewId(b) && Live(Taken(b, v))[x] == Live(b)[x]
  {
    PickIsFree(b, free);
    NewIdGood(b);
    var b', id := Taken(b, v), NewId(b);
    if x % b.n != Pick(b) {
      ElsewhereSame(b, b', Pick(b), x);
    } else {
      NoneInSlot(b, free, Pick(b), x);
      assert b'.ids[Pick(b)] == id && Owned(b', id);
    }
  }

  /** Alloc adds one entry, under an identifier that was not in use. */
  lemma AllocCorrect(b: Blocks, free: seq<nat>, v: Value)
    requires Valid(b, free) && b.used < b.n && |v| == b.width
    ensures Pick(b) < b.n && NewId(b) !in Live(b)
    ensures Live(Taken(b, v)) == Live(b)[NewId(b) := v]
  {
    PickIsFree(b, free);
    var b', id := Taken(b, v), NewId(b);
    var m, m' := Live(b), Live(b');
    forall x: nat
      ensures x in m' <==> x == id || x in m
      ensures x in m ==> x != id && m'[x] == m[x]
    {
      AllocLiveAt(b, free, v, x);
    }
    NewIdGood(b);
    NewValue(b, v);
  }

  lemma NewValue(b: Blocks, v: Value)
    requires Sized(b) && Pick(b) < b.n && Sized(Taken(b, v)) && NewId(b) % b.n == Pick(b)
    requires NewId(b) in Live(Taken(b, v))
    ensures Live(Taken(b, v))[NewId(b)] == v
  {
  }

  lemma FreeThreaded(b: Blocks, free: seq<nat>, id: nat)
    requires Valid(b, free) && id in Live(b)
    ensures Threaded(Freed(b, id), [id % b.n] + free)
  {
    InUseIff(b, free, id % b.n);
    var b', free' := Freed(b, id), [id % b.n] + free;
    forall k | 0 <= k < |free'|
      ensures free'[k] < b'.inited && free'[k] < b'.n && b'.ids[free'[k]] == Link(free', k + 1)
    {
      if k > 0 {
        assert free'[k] == free[k - 1];
        assert b.ids[free[k - 1]] == Link(free, k);
      }
    }
  }

  lemma FreeValid(b: Blocks, free: seq<nat>, id: nat)
    requires Valid(b, free) && id in Live(b)
    ensures Valid(Freed(b, id), [id % b.n] + free)
  {
    InUseIff(b, free, id % b.n);
    FreeThreaded(b, free, id);
    UsedPositive(b, free, id % b.n);
    var b', free' := Freed(b, id), [id % b.n] + free;
    forall i | 0 <= i < b'.inited && i !in free' ensures Stamped(b', i) {
      assert Stamped(b, i);
    }
  }

  /** What free does to one identifier. */
  lemma FreeLiveAt(b: Blocks, free: seq<nat>, id: nat, x: nat)
    requires Valid(b, free) && id in Live(b)
    ensures x in Live(Freed(b, id)) <==> x != id && x in Live(b)
    ensures x in Live(Freed(b, id)) ==> Live(Freed(b, id))[x] == Live(b)[x]
  {
    FreeValid(b, free, id);
    var b', free' := Freed(b, id), [id % b.n] + free;
    assert free'[0] == id % b.n;
    if x % b.n != id % b.n { ElsewhereSame(b, b', id % b.n, x); } else { NoneInSlot(b', free', id % b.n, x); }
  }

  /** Free puts the slot on the list and takes away exactly this entry. */
  lemma FreeCorrect(b: Blocks, free: seq<nat>, id: nat)
    requires Valid(b, free) && id in Live(b)
    ensures Valid(Freed(b, id), [id % b.n] + free)
    ensures Live(Freed(b, id)) == Live(b) - {id}
  {
    FreeValid(b, free, id);
    var b' := Freed(b, id);
    forall x: nat
      ensures x in Live(b') <==> x != id && x in Live(b)
      ensures x in Live(b') ==> Live(b')[x] == Live(b)[x]
    {
      FreeLiveAt(b, free, id, x);
    }
  }

  /** A slot in use is counted. */
  lemma UsedPositive(b: Blocks, free: seq<nat>, i: nat)
    requires Valid(b, free) && i < b.inited && i !in free
    ensures b.used > 0
  {
    DistinctCard<int>(free);
    var listed := Elements<int>(free);
    SubsetCard(listed, b.inited);
    assert i in Upto(b.inited) && i !in listed;
  }

  /** As many entries as the header counts, so alloc refuses exactly when every slot is in use. */
  lemma UsedIsLive(b: Blocks, free: seq<nat>)
    requires Valid(b, free)
    ensures b.used == |Live(b)|
    ensures |free| == b.inited - |Live(b)|
  {
    var slots := set i | 0 <= i < b.inited && i !in free;
    DistinctCard<int>(free);
    var listed := Elements<int>(free);
    assert slots + listed == Upto(b.inited) && slots !! listed;
    assert |slots| == b.used;
    LiveSlots(b, free, slots);
  }

  lemma LiveSlots(b: Blocks, free: seq<nat>, slots: set<int>)
    requires Valid(b, free) && slots == set i | 0 <= i < b.inited && i !in free
    ensures |slots| == |Live(b)|
  {
    forall i | i in slots ensures b.ids[i] in Live(b) && b.ids[i] % b.n == i { InUseIff(b, free, i); }
    forall id | id in Live(b) ensures id % b.n in slots { InUseIff(b, free, id % b.n); }
    var idOf := map i | i in slots :: b.ids[i];
    assert idOf.Keys == slots;
    assert idOf.Values == Live(b).Keys by {
      forall id | id in Live(b) ensures id in idOf.Values { assert idOf[id % b.n] == id; }
    }
    InjectiveCard(idOf);
  }

  // ---------------------------------------------------------------------------------------
  // Runs
  // ---------------------------------------------------------------------------------------

  datatype Op = OpAlloc(v: Value) | OpFree(id: nat)

  /** dragon_blocks_init leaves the slots as it finds them. */
  predicate Fresh(b: Blocks) {
    Sized(b) && b.n < 0x8000_0000_0000_0000 && b.head == EOLL && b.used == b.inited == 0 && b.current == 1
  }

  predicate Step(b: Blocks, b': Blocks, op: Op) {
    && Sized(b)
    && match op
       case OpAlloc(v) => |v| == b.width && if b.used == b.n then b' == b else Pick(b) < b.n && b' == Taken(b, v)
       case OpFree(id) => b' == if Accepts(b, id) then Freed(b, id) else b
  }

  /** An identifier that alloc may have given out: such a one is never stray. */
  predicate Plausible(b: Blocks, id: nat) {
    b.n > 0 && id != EOLL && id % b.n < b.inited
  }

  /** Any calls whatever. */
  ghost predicate AnyRun(bs: seq<Blocks>, ops: seq<Op>) {
    && |bs| == |ops| + 1 && Fresh(bs[0])
    && (forall i :: 0 <= i < |ops| ==> Step(bs[i], bs[i + 1], ops[i]))
  }

  /** Calls that free only what alloc may have given out. */
  ghost predicate Run(bs: seq<Blocks>, ops: seq<Op>) {
    AnyRun(bs, ops) && forall i :: 0 <= i < |ops| && ops[i].OpFree? ==> Plausible(bs[i], ops[i].id)
  }

  ghost predicate Sound(b: Blocks) {
    exists free :: Valid(b, free)
  }

  lemma StepSound(b: Blocks, b': Blocks, op: Op)
    requires Sound(b) && Step(b, b', op) && (op.OpFree? ==> Plausible(b, op.id))
    ensures Sound(b') && b'.n == b.n
  {
    var free :| Valid(b, free);
    match op
    case OpAlloc(v) =>
      if b.used != b.n { AllocValid(b, free, v); }
    case OpFree(id) =>
      LiveOrStray(b, id);
      if Accepts(b, id) { FreeValid(b, free, id); }
  }

  /** A caller that frees only what it was given keeps the structure sound for ever. */
  lemma {:induction false} RunSound(bs: seq<Blocks>, ops: seq<Op>, k: nat)
    requires Run(bs, ops) && k < |bs|
    ensures Sound(bs[k]) && bs[k].n == bs[0].n
    decreases k
  {
    if k == 0 {
      assert Valid(bs[0], []);
    } else {
      RunSound(bs, ops, k - 1);
      StepSound(bs[k - 1], bs[k], ops[k - 1]);
    }
  }

  /** An identifier of this turn of the generation counter. */
  predicate Older(b: Blocks, id: nat) {
    id < b.current * b.n
  }

  predicate RotatesAt(b: Blocks, op: Op) {
    op.OpAlloc? && b.used != b.n && Rotates(b)
  }

  lemma NewIdOlder(b: Blocks)
    requires 0 < b.n < 0x8000_0000_0000_0000 && b.current >= 1 && b.current * b.n < EOLL && Pick(b) < b.n
    ensures NewId(b) < (if Rotates(b) then 2 else (b.current + 1) % WORD) * b.n
    ensures !Rotates(b) ==> b.current * b.n < (b.current + 1) % WORD * b.n
  {
    NewIdGood(b);
    NextGeneration(b);
    assert (b.current + 1) * b.n == b.current * b.n + b.n;
  }

  /** What alloc gives out is plausible and of this turn from then on. */
  lemma IssuedIsOlder(b: Blocks, v: Value)
    requires Sound(b) && b.used < b.n && |v| == b.width
    ensures Pick(b) < b.n && Plausible(Taken(b, v), NewId(b)) && Older(Taken(b, v), NewId(b))
  {
    var free :| Valid(b, free);
    PickIsFree(b, free);
    NewIdGood(b);
    NewIdOlder(b);
    assert NewId(b) % b.n < Taken(b, v).inited;
  }

  lemma DeadAlloc(b: Blocks, free: seq<nat>, v: Value, id: nat)
    requires Valid(b, free) && b.used < b.n && |v| == b.width && !Rotates(b)
    requires id !in Live(b) && Older(b, id) && Plausible(b, id)
    ensures Pick(b) < b.n && id !in Live(Taken(b, v)) && Older(Taken(b, v), id) && Plausible(Taken(b, v), id)
  {
    AllocCorrect(b, free, v);
    NewIdOlder(b);
    NewIdGood(b);
  }

  lemma DeadStep(b: Blocks, b': Blocks, op: Op, id: nat)
    requires Sound(b) && Step(b, b', op) && !FreesStray(b, op) && !RotatesAt(b, op)
    requires id !in Live(b) && Older(b, id) && Plausible(b, id)
    ensures Sound(b') && id !in Live(b') && Older(b', id) && Plausible(b', id)
  {
    StepSoundIff(b, b', op);
    var free :| Valid(b, free);
    match op
    case OpAlloc(v) =>
      if b.used != b.n { DeadAlloc(b, free, v, id); }
    case OpFree(x) =>
      LiveOrStray(b, x);
      if Accepts(b, x) { FreeCorrect(b, free, x); }
  }

  /** Whatever is called, as long as nobody frees a stray identifier: a freed one is rejected by get, free and next
      until the generation counter rotates. */
  lemma {:induction false} DeadStaysDead(bs: seq<Blocks>, ops: seq<Op>, i: nat, j: nat, id: nat)
    requires AnyRun(bs, ops) && i <= j < |bs| && forall k :: 0 <= k < j ==> !FreesStray(bs[k], ops[k])
    requires Sized(bs[i]) && id !in Live(bs[i]) && Older(bs[i], id) && Plausible(bs[i], id)
    requires forall k :: i <= k < j ==> !RotatesAt(bs[k], ops[k])
    ensures Sized(bs[j]) && id !in Live(bs[j]) && Older(bs[j], id) && Plausible(bs[j], id) && !Accepts(bs[j], id)
    decreases j
  {
    if i < j {
      DeadStaysDead(bs, ops, i, j - 1, id);
      RunSoundIff(bs, ops, j - 1);
      DeadAt(bs, ops, j, id);
    }
    LiveOrStray(bs[j], id);
  }

  lemma DeadAt(bs: seq<Blocks>, ops: seq<Op>, j: nat, id: nat)
    requires AnyRun(bs, ops) && 0 < j < |bs| && Sound(bs[j - 1])
    requires !FreesStray(bs[j - 1], ops[j - 1]) && !RotatesAt(bs[j - 1], ops[j - 1])
    requires id !in Live(bs[j - 1]) && Older(bs[j - 1], id) && Plausible(bs[j - 1], id)
    ensures Sound(bs[j]) && id !in Live(bs[j]) && Older(bs[j], id) && Plausible(bs[j], id)
  {
    var k := j - 1;
    assert Step(bs[k], bs[k + 1], ops[k]);
    DeadStep(bs[j - 1], bs[j], ops[j - 1], id);
  }

  // ---------------------------------------------------------------------------------------
  // The end mark taken for an identifier
  // ---------------------------------------------------------------------------------------

  /**
   Among initialised slots the end mark is accepted exactly when the last slot on the list is the one it
   points at.
   */
  lemma EndMarkAccepted(b: Blocks, free: seq<nat>)
    requires Valid(b, free) && EOLL % b.n < b.inited
    ensures Accepts(b, EOLL) <==> free != [] && free[|free| - 1] == EOLL % b.n
  {
    var i := EOLL % b.n;
    InUseIff(b, free, i);
    if i in free {
      var k :| 0 <= k < |free| && free[k] == i;
      assert b.ids[free[k]] == Link(free, k + 1);
      assert k + 1 < |free| ==> free[k + 1] < b.n;
    }
  }

  /** In a sound structure a link is below the number of slots, or the end mark. */
  lemma LinkIsSmall(b: Blocks, free: seq<nat>, i: nat)
    requires Valid(b, free) && i in free
    ensures i < b.n && (b.ids[i] < b.n || b.ids[i] == EOLL)
  {
    var k :| 0 <= k < |free| && free[k] == i;
    assert k + 1 < |free| ==> b.ids[free[k]] == free[k + 1];
  }

  /** A fresh slot at the head of the list is no list of initialised slots. */
  lemma FreshFreeUnsound(b: Blocks, id: nat, free': seq<nat>)
    requires Sized(b) && b.n < 0x8000_0000_0000_0000 && id % b.n >= b.inited
    ensures !Valid(Freed(b, id), free')
  {
    var b' := Freed(b, id);
    assert b'.head == id % b.n != EOLL;
  }

  /** An initialised slot whose id field is no identifier is on the list. */
  lemma SmallIsLinked(b: Blocks, free: seq<nat>, i: nat)
    requires Valid(b, free) && i < b.inited && (b.ids[i] < b.n || b.ids[i] == EOLL)
    ensures i in free
  {
    InUseIff(b, free, i);
  }

  /** The end mark's slot is on the list already, so no list can be one slot longer. */
  lemma EndMarkUnsound(b: Blocks, free: seq<nat>, free': seq<nat>)
    requires Valid(b, free) && Accepts(b, EOLL) && EOLL % b.n < b.inited
    ensures !Valid(Freed(b, EOLL), free')
  {
    EndMarkAccepted(b, free);
    var b', i := Freed(b, EOLL), EOLL % b.n;
    if Valid(b', free') {
      forall x | x in free' ensures x in free {
        LinkIsSmall(b', free', x);
        if x != i { SmallIsLinked(b, free, x); }
      }
      DistinctCard(free);
      DistinctCard(free');
      SubsetSize(Elements(free'), Elements(free));
    }
  }

  /** Freeing an accepted identifier leaves the structure sound exactly when it is not a stray one. */
  lemma FreeSoundIff(b: Blocks, id: nat)
    requires Sound(b) && Accepts(b, id)
    ensures Sound(Freed(b, id)) <==> !Stray(b, id)
  {
    var free :| Valid(b, free);
    LiveOrStray(b, id);
    if !Stray(b, id) {
      FreeValid(b, free, id);
    } else {
      forall free' ensures !Valid(Freed(b, id), free') {
        if id % b.n >= b.inited { FreshFreeUnsound(b, id, free'); } else { EndMarkUnsound(b, free, free'); }
      }
    }
  }

  /** A call that frees a stray identifier. */
  ghost predicate FreesStray(b: Blocks, op: Op) {
    op.OpFree? && Sized(b) && Stray(b, op.id)
  }

  lemma StepSoundIff(b: Blocks, b': Blocks, op: Op)
    requires Sound(b) && Step(b, b', op)
    ensures Sound(b') <==> !FreesStray(b, op)
  {
    match op
    case OpAlloc(v) => StepSound(b, b', op);
    case OpFree(id) => if Accepts(b, id) { FreeSoundIff(b, id); }
  }

  /**
   Whatever is called, the structure is sound up to state n exactly when no call before has freed a
   stray identifier.
   */
  lemma RunSoundIff(bs: seq<Blocks>, ops: seq<Op>, n: nat)
    requires AnyRun(bs, ops) && n < |bs|
    ensures (forall i :: 0 <= i <= n ==> Sound(bs[i])) <==> (forall i :: 0 <= i < n ==> !FreesStray(bs[i], ops[i]))
  {
    assert Valid(bs[0], []);
    var sound := seq(|bs|, i requires 0 <= i < |bs| => Sound(bs[i]));
    var stray := seq(|ops|, i requires 0 <= i < |ops| => FreesStray(bs[i], ops[i]));
    forall i | 0 < i < |bs| && sound[i - 1] ensures sound[i] <==> !stray[i - 1] {
      var j := i - 1;
      assert Step(bs[j], bs[j + 1], ops[j]);
      StepSoundIff(bs[i - 1], bs[i], ops[i - 1]);
    }
    NoMissBefore(sound, stray, n);
    assert forall i :: 0 <= i <= n ==> sound[i] == Sound(bs[i]);
    assert forall i :: 0 <= i < n ==> stray[i] == FreesStray(bs[i], ops[i]);
  }

  /** Two slots, of which the second was freed: alloc, alloc, free. */
  lemma EndMarkReached(v: Value) returns (bs: seq<Blocks>, ops: seq<Op>)
    requires |v| == 1
    ensures Run(bs, ops) && |bs| == 4 && bs[3] == Blocks(2, 1, [2, EOLL], [v, Zeros(1)], 1, 1, 2, 3)
  {
    var b0 := Blocks(2, 1, [0, 0], [v, v], EOLL, 0, 0, 1);
    var b1 := Blocks(2, 1, [2, 0], [v, v], EOLL, 1, 1, 2);
    assert Taken(b0, v) == b1;
    var b2 := Blocks(2, 1, [2, 5], [v, v], EOLL, 2, 2, 3);
    assert Taken(b1, v) == b2;
    var b3 := Blocks(2, 1, [2, EOLL], [v, Zeros(1)], 1, 1, 2, 3);
    assert Accepts(b2, 5) && Freed(b2, 5) == b3;
    bs, ops := [b0, b1, b2, b3], [OpAlloc(v), OpAlloc(v), OpFree(5)];
    assert Step(b0, b1, ops[0]) && Step(b1, b2, ops[1]) && Step(b2, b3, ops[2]) && Plausible(b2, 5);
  }

  /**
   There, freeing the end mark ties the list into a loop: two allocs in a row take the same slot, and
   the first block is lost.
   */
  lemma EndMarkFreed(v: Value) returns (b: Blocks, b1: Blocks, b2: Blocks, b3: Blocks)
    requires |v| == 1
    ensures b == Blocks(2, 1, [2, EOLL], [v, Zeros(1)], 1, 1, 2, 3)
    ensures Sized(b) && Sized(b1) && Sized(b2) && Sized(b3)
    ensures Accepts(b, EOLL) && b1 == Freed(b, EOLL)
    ensures Pick(b1) < b1.n && b2 == Taken(b1, v) && Pick(b2) < b2.n && b3 == Taken(b2, v)
    ensures Accepts(b2, NewId(b1)) && !Accepts(b3, NewId(b1))
  {
    b := Blocks(2, 1, [2, EOLL], [v, Zeros(1)], 1, 1, 2, 3);
    assert EOLL % 2 == 1;
    b1 := Blocks(2, 1, [2, 1], [v, Zeros(1)], 1, 0, 2, 3);
    assert Freed(b, EOLL) == b1;
    b2 := Blocks(2, 1, [2, 7], [v, v], 1, 1, 2, 4);
    assert Taken(b1, v) == b2;
    b3 := Blocks(2, 1, [2, 9], [v, v], 7, 2, 2, 5);
    assert Taken(b2, v) == b3;
  }

  /**
   In memory that holds 3 where the second slot will be, a new structure accepts 3, and freeing it makes
   the used count wrap.
   */
  lemma FreshMemoryFreed(v: Value) returns (b: Blocks)
    requires |v| == 1
    ensures Fresh(b) && Accepts(b, 3) && Stray(b, 3) && !Sound(Freed(b, 3)) && Freed(b, 3).used == WORD - 1
  {
    b := Blocks(2, 1, [0, 3], [v, v], EOLL, 0, 0, 1);
    assert Valid(b, []);
    FreeSoundIff(b, 3);
  }

  // ---------------------------------------------------------------------------------------
  // Iteration
  // ---------------------------------------------------------------------------------------

  datatype Query = Query(value: Value, offset: nat, len: nat)

  predicate Fits(b: Blocks, q: Query) {
    q.offset + q.len <= b.width && q.len <= |q.value|
  }

  /**
   What count, first and next need of their caller: the value is as long as it is said to be, and a
   sum of offset and length that wraps around does not slip through the test of the sum.
   */
  predicate InMemory(b: Blocks, q: Query) {
    q.len <= |q.value| && (q.offset + q.len <= b.width < WORD || (q.offset + q.len) % WORD > b.width)
  }

  predicate Holds(b: Blocks, v: Value, q: Query)
    requires Fits(b, q) && |v| == b.width
  {
    v[q.offset..q.offset + q.len] == q.value[..q.len]
  }

  predicate Matches(b: Blocks, q: Query, i: nat)
    requires Sized(b) && Fits(b, q) && i < b.n
  {
    InUse(b, i) && Holds(b, b.vals[i], q)
  }

  /** Identifiers of the matching slots from start on, in slot order. */
  ghost function Listed(b: Blocks, q: Query, start: nat): seq<nat>
    requires Sized(b) && Fits(b, q) && b.inited <= b.n
    decreases b.inited - start
  {
    if start >= b.inited then []
    else (if Matches(b, q, start) then [b.ids[start]] else []) + Listed(b, q, start + 1)
  }

  /** The loop of first and next: the first match from start on. */
  function FirstFrom(b: Blocks, q: Query, start: nat): Option<nat>
    requires Sized(b) && Fits(b, q) && b.inited <= b.n
    decreases b.inited - start
  {
    if start >= b.inited then None
    else if Matches(b, q, start) then Some(b.ids[start])
    else FirstFrom(b, q, start + 1)
  }

  lemma {:induction false} FirstIsListed(b: Blocks, free: seq<nat>, q: Query, start: nat)
    requires Valid(b, free) && Fits(b, q)
    ensures FirstFrom(b, q, start).None? <==> Listed(b, q, start) == []
    ensures FirstFrom(b, q, start).Some? ==>
              var id := FirstFrom(b, q, start).value;
              && start <= id % b.n < b.inited && Accepts(b, id)
              && Listed(b, q, start) == [id] + Listed(b, q, id % b.n + 1)
    decreases b.inited - start
  {
    if start < b.inited {
      InUseIff(b, free, start);
      if !Matches(b, q, start) { FirstIsListed(b, free, q, start + 1); }
    }
  }

  /** First, then next on what was found last, until the iteration is complete. */
  ghost function Visit(b: Blocks, free: seq<nat>, q: Query, start: nat): seq<nat>
    requires Valid(b, free) && Fits(b, q)
    decreases b.inited - start
  {
    FirstIsListed(b, free, q, start);
    match FirstFrom(b, q, start)
    case None => []
    case Some(id) => [id] + Visit(b, free, q, id % b.n + 1)
  }

  lemma {:induction false} VisitIsListed(b: Blocks, free: seq<nat>, q: Query, start: nat)
    requires Valid(b, free) && Fits(b, q)
    ensures Visit(b, free, q, start) == Listed(b, q, start)
    decreases b.inited - start
  {
    FirstIsListed(b, free, q, start);
    match FirstFrom(b, q, start)
    case None =>
    case Some(id) => VisitIsListed(b, free, q, id % b.n + 1);
  }

  ghost predicate SlotOrder(b: Blocks, q: seq<nat>)
    requires b.n > 0
  {
    forall j, k :: 0 <= j < k < |q| ==> q[j] % b.n < q[k] % b.n
  }

  lemma {:induction false} ListedOrder(b: Blocks, free: seq<nat>, q: Query, start: nat)
    requires Valid(b, free) && Fits(b, q)
    ensures SlotOrder(b, Listed(b, q, start))
    ensures forall k :: 0 <= k < |Listed(b, q, start)| ==> start <= Listed(b, q, start)[k] % b.n
    decreases b.inited - start
  {
    if start < b.inited {
      ListedOrder(b, free, q, start + 1);
      InUseIff(b, free, start);
    }
  }

  lemma {:induction false} ListedMembers(b: Blocks, free: seq<nat>, q: Query, start: nat, id: nat)
    requires Valid(b, free) && Fits(b, q)
    ensures id in Listed(b, q, start) <==> id in Live(b) && Holds(b, Live(b)[id], q) && start <= id % b.n
    decreases b.inited - start
  {
    if start < b.inited {
      ListedMembers(b, free, q, start + 1, id);
      InUseIff(b, free, start);
    }
  }

  /** The iteration visits every block that holds the substring, each once, in slot order. */
  lemma IterationVisitsAll(b: Blocks, free: seq<nat>, q: Query)
    requires Valid(b, free) && Fits(b, q)
    ensures forall id :: id in Visit(b, free, q, 0) <==> id in Live(b) && Holds(b, Live(b)[id], q)
    ensures SlotOrder(b, Visit(b, free, q, 0)) && Distinct(Visit(b, free, q, 0))
    ensures |Visit(b, free, q, 0)| == |Listed(b, q, 0)|
  {
    VisitIsListed(b, free, q, 0);
    ListedOrder(b, free, q, 0);
    forall id: nat ensures id in Listed(b, q, 0) <==> id in Live(b) && Holds(b, Live(b)[id], q) {
      ListedMembers(b, free, q, 0, id);
    }
  }

  // ---------------------------------------------------------------------------------------
  // The structure in memory
  // ---------------------------------------------------------------------------------------

  datatype Status = Success | InvalidArgument | OutOfSpace | KeyNotFound | IterationComplete | Failure

  class Store {
    const n: nat
    const width: nat
    const ids: array<nat>
    const vals: array<Value>
    var head: nat
    var used: nat
    var inited: nat
    var current: nat

    ghost function View(): Blocks
      reads this, ids, vals
    {
      Blocks(n, width, ids[..], vals[..], head, used, inited, current)
    }

    /** Init on memory that holds anything at all. */
    constructor (n: nat, width: nat, words: seq<nat>, bytes: seq<Value>)
      requires 0 < n < 0x8000_0000_0000_0000 && |words| == |bytes| == n
      requires forall i :: 0 <= i < n ==> |bytes[i]| == width
      ensures Fresh(View()) && View().ids == words && View().vals == bytes && fresh(ids) && fresh(vals)
    {
      this.n, this.width := n, width;
      ids := new nat[n](i requires 0 <= i < n => words[i]);
      vals := new Value[n](i requires 0 <= i < n => bytes[i]);
      head, used, inited, current := EOLL, 0, 0, 1;
      new;
      assert ids[..] == words && vals[..] == bytes;
    }

    /** A slot index past the end would be reported; AllocValid shows that it does not come up. */
    method Alloc(v: Value) returns (status: Status, id: nat)
      requires Sized(View()) && |v| == width && (used == n || Pick(View()) < n)
      modifies this, ids, vals
      ensures status == if old(used) == n then OutOfSpace else Success
      ensures status.OutOfSpace? ==> View() == old(View())
      ensures status.Success? ==> id == NewId(old(View())) && View() == Taken(old(View()), v)
    {
      if used == n {
        return OutOfSpace, 0;
      }
      var idx;
      if used == inited {
        idx := inited;
        inited := inited + 1;
      } else {
        idx := head;
        head := ids[idx];
      }
      var generation := current;
      current := (current + 1) % WORD;
      if Sub(EOLL, generation * n % WORD) <= n {
        current := 2;
        generation := 1;
      }
      id := (generation * n + idx) % WORD;
      ids[idx] := id;
      vals[idx] := v;
      used := used + 1;
      status := Success;
    }

    method Free(id: nat) returns (status: Status)
      requires Sized(View())
      modifies this, ids, vals
      ensures status == if old(Accepts(View(), id)) then Success else InvalidArgument
      ensures View() == if status.Success? then Freed(old(View()), id) else old(View())
    {
      var idx := id % n;
      if ids[idx] < n {
        return InvalidArgument;
      }
      if ids[idx] != id {
        return InvalidArgument;
      }
      ids[idx] := head;
      head := idx;
      vals[idx] := Zeros(width);
      used := Sub(used, 1);
      return Success;
    }

    method Get(id: nat) returns (status: Status, v: Value)
      requires Sized(View())
      ensures status.Success? <==> Accepts(View(), id)
      ensures status.Success? && !Stray(View(), id) ==> id in Live(View()) && v == Live(View())[id]
      ensures !status.Success? ==> id !in Live(View()) && (status.InvalidArgument? <==> ids[id % n] < n)
    {
      LiveOrStray(View(), id);
      var idx := id % n;
      if ids[idx] < n {
        return InvalidArgument, [];
      }
      if ids[idx] != id {
        return KeyNotFound, [];
      }
      return Success, vals[idx];
    }

    /** Without a query the number in use, with one the number that an iteration visits. */
    method Count(query: Option<Query>) returns (status: Status, count: nat)
      requires Sized(View()) && inited <= n
      requires query.Some? ==> InMemory(View(), query.value)
      ensures query.None? ==> status.Success? && count == used
      ensures query.Some? ==> (status.Success? <==>
                               0 < query.value.len && query.value.offset + query.value.len <= width)
      ensures query.Some? && status.Success? ==> count == |Listed(View(), query.value, 0)|
      ensures !status.Success? ==> status.InvalidArgument?
    {
      if query.None? {
        return Success, used;
      }
      var q := query.value;
      if q.len == 0 || (q.offset + q.len) % WORD > width {
        return InvalidArgument, 0;
      }
      count := 0;
      var idx := 0;
      while idx < inited
        invariant idx <= inited && count + |Listed(View(), q, idx)| == |Listed(View(), q, 0)|
      {
        if ids[idx] >= n && ids[idx] != EOLL && vals[idx][q.offset..q.offset + q.len] == q.value[..q.len] {
          count := count + 1;
        }
        idx := idx + 1;
      }
      return Success, count;
    }

    /** The loop that first and next share. */
    method ScanFrom(q: Query, start: nat) returns (status: Status, id: nat)
      requires Sized(View()) && inited <= n && Fits(View(), q)
      ensures status == match FirstFrom(View(), q, start) case None => IterationComplete case Some(_) => Success
      ensures status.Success? ==> id == FirstFrom(View(), q, start).value
    {
      var idx := start;
      while idx < inited
        invariant start <= idx && FirstFrom(View(), q, start) == FirstFrom(View(), q, idx)
      {
        if ids[idx] >= n && ids[idx] != EOLL && vals[idx][q.offset..q.offset + q.len] == q.value[..q.len] {
          return Success, ids[idx];
        }
        idx := idx + 1;
      }
      return IterationComplete, 0;
    }

    method First(q: Query) returns (status: Status, id: nat)
      requires Sized(View()) && inited <= n && InMemory(View(), q)
      ensures status.InvalidArgument? <==> q.offset + q.len > width
      ensures q.offset + q.len <= width ==>
                status == match FirstFrom(View(), q, 0) case None => IterationComplete case Some(_) => Success
      ensures status.Success? ==> id == FirstFrom(View(), q, 0).value
    {
      if (q.offset + q.len) % WORD > width {
        return InvalidArgument, 0;
      }
      status, id := ScanFrom(q, 0);
    }

    method Next(q: Query, from: nat) returns (status: Status, id: nat)
      requires Sized(View()) && inited <= n && InMemory(View(), q)
      ensures status.InvalidArgument? <==> q.offset + q.len > width || !Accepts(View(), from)
      ensures q.offset + q.len <= width && Accepts(View(), from) ==>
                status == match FirstFrom(View(), q, from % n + 1)
                          case None => IterationComplete
                          case Some(_) => Success
      ensures status.Success? ==> id == FirstFrom(View(), q, from % n + 1).value
    {
      if (q.offset + q.len) % WORD > width || ids[from % n] < n || ids[from % n] != from {
        return InvalidArgument, 0;
      }
      status, id := ScanFrom(q, from % n + 1);
    }
  }
}
