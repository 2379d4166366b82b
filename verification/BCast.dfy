/**
 The ticket and spin-slot protocol of a BCast that is not synchronised (DRAGON_NO_SYNC).

 Waiters either spin on a slot of their own, which a trigger moves from 1 to 2, or sleep and come
 back for a ticket, which they draw by decrementing the allowable count. A step contains at most one
 access to a word that others change at the same time; what a step touches besides is its own, is
 guarded by the lock, or is read by nobody else. Spin waits have no timeout; idle waits and triggers
 may have one.
 */
module BCast {
  import opened Counting

  type Pid = nat

  const INT_MAX: int := 0x7FFF_FFFF
  const INT_MIN: int := -0x8000_0000

  datatype Lock = Free | Held(p: Pid) | Leaked

  datatype Pc =
    | Idle
    | Searching(idx: nat)     // _spin_wait, under the lock, looking for a slot
    | Crowded                 // found none, about to wait idly
    | Spinning(idx: nat)
    | Leaving(idx: nat)       // saw its slot at 2, about to store 0
    | Left                    // stored 0, still in the spinner count
    | Falling                 // gave its slot up for an idle wait, still in the spinner count
    | Sleeping                // in the ticket loop
    | Finishing               // released, still in the waiter count
    | Reporting               // not yet in the triggered count
    | Asked(want: int, waiting: nat)   // trigger, under the lock: it wants this many and has seen this many waiters
    | Starting(k: nat)        // before it reads the spinner count
    | Scanning(k: nat, spinners: nat, idx: nat, flipped: nat)
    | Waking(k: nat)
    | Settling                // enough have reported, or nobody waits

  /** History of one trigger round. */
  datatype Round = Round(asked: nat, flipped: nat, granted: nat)

  datatype State = State(
    lock: Lock,
    slots: seq<nat>,
    spinCount: nat,
    numWaiting: nat,
    numTriggered: nat,
    allowable: int,
    numToTrigger: nat,
    triggering: bool,
    pc: map<Pid, Pc>,
    // history
    owner: map<nat, Pid>,     // who claimed a slot that is not 0
    waiters: set<Pid>,
    spinners: set<Pid>,
    released: set<Pid>,       // flipped or granted a ticket, not yet returned
    returned: nat,
    rounds: seq<Round>,
    ticketRound: nat,         // tickets in hand come from rounds[ticketRound - 1], or 0 for no round
    base: int,                // the allowable count as last stored, and
    tries: nat)               // how often it was decremented since

  // ---------------------------------------------------------------------------------------
  // Waiters
  // ---------------------------------------------------------------------------------------

  /** 32-bit unsigned decrement. */
  function Less(n: nat): nat {
    if n == 0 then 0xFFFF_FFFF else n - 1
  }

  function At(s: State, p: Pid, c: Pc): State {
    s.(pc := s.pc[p := c])
  }

  /** _idle_wait: become a waiter, under the lock. */
  predicate EnterIdle(s: State, s': State, p: Pid) {
    && p in s.pc && (s.pc[p].Idle? || s.pc[p].Crowded?) && s.lock.Free?
    && s' == At(s, p, Sleeping).(numWaiting := s.numWaiting + 1, waiters := s.waiters + {p})
  }

  /** _spin_wait: take the lock and assume a slot will be found. */
  predicate EnterSpin(s: State, s': State, p: Pid) {
    && p in s.pc && s.pc[p].Idle? && s.lock.Free?
    && s' == At(s, p, Searching(0)).(lock := Held(p), spinCount := s.spinCount + 1, spinners := s.spinners + {p})
  }

  /** The search for a slot goes on to the next one. */
  predicate Pass(s: State, s': State, p: Pid) {
    && p in s.pc && s.pc[p].Searching?
    && var i := s.pc[p].idx;
    && i < |s.slots| && s.slots[i] != 0 && s' == At(s, p, Searching(i + 1))
  }

  /** The search finds a free slot. */
  predicate Claim(s: State, s': State, p: Pid) {
    && p in s.pc && s.pc[p].Searching?
    && var i := s.pc[p].idx;
    && i < |s.slots| && s.slots[i] == 0
    && s' == At(s, p, Spinning(i)).(lock := Free, slots := s.slots[i := 1], owner := s.owner[i := p],
                                    numWaiting := s.numWaiting + 1, waiters := s.waiters + {p})
  }

  /** The search ends without one. */
  predicate Crowd(s: State, s': State, p: Pid) {
    && p in s.pc && s.pc[p].Searching? && s.pc[p].idx >= |s.slots|
    && s' == At(s, p, Crowded).(lock := Free, spinCount := Less(s.spinCount), spinners := s.spinners - {p})
  }

  /** A spinner finds its slot changed, in its loop or when it tries to fall over to an idle wait. */
  predicate Notice(s: State, s': State, p: Pid) {
    && p in s.pc && s.pc[p].Spinning?
    && var i := s.pc[p].idx;
    && i < |s.slots| && s.slots[i] != 1 && s' == At(s, p, Leaving(i))
  }

  predicate Clear(s: State, s': State, p: Pid) {
    && p in s.pc && s.pc[p].Leaving?
    && var i := s.pc[p].idx;
    && i < |s.slots| && s' == At(s, p, Left).(slots := s.slots[i := 0], owner := s.owner - {i})
  }

  /** Adaptive waiting: swap the slot from 1 to 0 and wait idly. */
  predicate FallOver(s: State, s': State, p: Pid) {
    && p in s.pc && s.pc[p].Spinning?
    && var i := s.pc[p].idx;
    && i < |s.slots| && s.slots[i] == 1
    && s' == At(s, p, Falling).(slots := s.slots[i := 0], owner := s.owner - {i})
  }

  /** Leave the spinner count, to go on waiting or to finish. */
  predicate Uncount(s: State, s': State, p: Pid) {
    && p in s.pc && (s.pc[p].Left? || s.pc[p].Falling?)
    && s' == At(s, p, if s.pc[p].Left? then Finishing else Sleeping)
             .(spinCount := Less(s.spinCount), spinners := s.spinners - {p})
  }

  /** 32-bit signed decrement. */
  function Dec(a: int): int {
    if a == INT_MIN then INT_MAX else a - 1
  }

  function Granted(rounds: seq<Round>, i: nat): seq<Round> {
    if i < |rounds| then rounds[i := rounds[i].(granted := rounds[i].granted + 1)] else rounds
  }

  function Drawn(s: State): State {
    s.(allowable := Dec(s.allowable), tries := s.tries + 1)
  }

  /** An idle waiter draws a ticket that is not positive, and sleeps again. */
  predicate Lose(s: State, s': State, p: Pid) {
    p in s.pc && s.pc[p].Sleeping? && s.allowable <= 0 && s' == Drawn(s)
  }

  /** An idle waiter draws a positive ticket, which releases it. */
  predicate Win(s: State, s': State, p: Pid) {
    && p in s.pc && s.pc[p].Sleeping? && s.allowable > 0
    && s' == At(Drawn(s), p, Finishing)
             .(released := s.released + {p},
               rounds := if s.ticketRound == 0 then s.rounds else Granted(s.rounds, s.ticketRound - 1))
  }

  /** An idle wait times out. */
  predicate GiveUp(s: State, s': State, p: Pid) {
    && p in s.pc && s.pc[p].Sleeping?
    && s' == At(s, p, Idle).(numWaiting := Less(s.numWaiting), waiters := s.waiters - {p})
  }

  predicate Finish(s: State, s': State, p: Pid) {
    && p in s.pc && s.pc[p].Finishing?
    && s' == At(s, p, Reporting).(numWaiting := Less(s.numWaiting), waiters := s.waiters - {p})
  }

  predicate Report(s: State, s': State, p: Pid) {
    && p in s.pc && s.pc[p].Reporting?
    && s' == At(s, p, Idle).(numTriggered := s.numTriggered + 1, released := s.released - {p},
                             returned := s.returned + 1)
  }

  // ---------------------------------------------------------------------------------------
  // Triggers
  // ---------------------------------------------------------------------------------------

  /** How many to trigger when INT_MAX means everybody. */
  function Wanted(waiting: nat, k: int): int {
    if k == INT_MAX && waiting < INT_MAX then waiting else k
  }

  /** A count that is negative turns into a huge one when compared with the unsigned number of waiters. */
  predicate Insufficient(waiting: nat, k: int) {
    Wanted(waiting, k) < 0 || waiting < Wanted(waiting, k)
  }

  /** dragon_bcast_trigger_some: take the lock and read the number of waiters; with none, leave again. */
  predicate Begin(s: State, s': State, p: Pid, k: int) {
    && p in s.pc && s.pc[p].Idle? && s.lock.Free? && INT_MIN <= k <= INT_MAX
    && s' == if s.numWaiting == 0 then s else At(s, p, Asked(k, s.numWaiting)).(lock := Held(p))
  }

  /** Reset the triggered count and start the round; with too few waiters, return and keep the lock. */
  predicate Zero(s: State, s': State, p: Pid) {
    && p in s.pc && s.pc[p].Asked?
    && var w, k := s.pc[p].waiting, s.pc[p].want;
    && s' == if Insufficient(w, k) then At(s, p, Idle).(lock := Leaked, numTriggered := 0)
             else At(s, p, Starting(Wanted(w, k))).(numTriggered := 0, numToTrigger := Wanted(w, k), triggering := true,
                                                    rounds := s.rounds + [Round(Wanted(w, k), 0, 0)])
  }

  predicate ReadCount(s: State, s': State, p: Pid) {
    && p in s.pc && s.pc[p].Starting?
    && s' == At(s, p, Scanning(s.pc[p].k, s.spinCount, 0, 0))
  }

  function Flipped(rounds: seq<Round>): seq<Round>
    requires rounds != []
  {
    var n := |rounds| - 1;
    rounds[n := rounds[n].(flipped := rounds[n].flipped + 1)]
  }

  predicate MoreToScan(s: State, c: Pc)
    requires c.Scanning?
  {
    c.flipped < c.spinners && c.idx < |s.slots| && c.flipped < c.k
  }

  /** The scan meets a spinner and moves its slot from 1 to 2. */
  predicate Flip(s: State, s': State, p: Pid) {
    && p in s.pc && s.pc[p].Scanning? && MoreToScan(s, s.pc[p]) && s.rounds != []
    && var c := s.pc[p];
    && s.slots[c.idx] == 1
    && s' == At(s, p, c.(idx := c.idx + 1, flipped := c.flipped + 1))
             .(slots := s.slots[c.idx := 2], rounds := Flipped(s.rounds),
               released := if c.idx in s.owner then s.released + {s.owner[c.idx]} else s.released)
  }

  predicate Skip(s: State, s': State, p: Pid) {
    && p in s.pc && s.pc[p].Scanning? && MoreToScan(s, s.pc[p])
    && var c := s.pc[p];
    && s.slots[c.idx] != 1 && s' == At(s, p, c.(idx := c.idx + 1))
  }

  /** The scan is over: whatever is left becomes tickets. */
  predicate Ration(s: State, s': State, p: Pid) {
    && p in s.pc && s.pc[p].Scanning? && !MoreToScan(s, s.pc[p])
    && var c := s.pc[p];
    && s' == At(s, p, Waking(c.k)).(allowable := c.k - c.flipped, base := c.k - c.flipped, tries := 0,
                                    ticketRound := |s.rounds|)
  }

  /** The trigger's loop ends: enough have reported, or nobody waits. */
  predicate Exit(s: State, s': State, p: Pid) {
    && p in s.pc && s.pc[p].Waking? && (s.numTriggered >= s.pc[p].k || s.numWaiting == 0)
    && s' == At(s, p, Settling)
  }

  /** _trigger_completion. */
  predicate Complete(s: State, s': State, p: Pid) {
    && p in s.pc && s.pc[p].Settling?
    && s' == At(s, p, Idle).(allowable := 0, base := 0, tries := 0, ticketRound := 0, numToTrigger := 0,
                             triggering := false, lock := Free)
  }

  /** The trigger times out: the tickets stay out. */
  predicate Quit(s: State, s': State, p: Pid) {
    && p in s.pc && s.pc[p].Waking?
    && s' == At(s, p, Idle).(triggering := false, lock := Free)
  }

  datatype Action =
    | AEnterIdle | AEnterSpin | APass | AClaim | ACrowd | ANotice | AClear | AFallOver | AUncount | ALose | AWin
    | AGiveUp | AFinish | AReport
    | ABegin(k: int) | AZero | AReadCount | AFlip | ASkip | ARation | AExit | AComplete | AQuit

  predicate Step(s: State, s': State, p: Pid, a: Action) {
    match a
    case AEnterIdle => EnterIdle(s, s', p)
    case AEnterSpin => EnterSpin(s, s', p)
    case APass => Pass(s, s', p)
    case AClaim => Claim(s, s', p)
    case ACrowd => Crowd(s, s', p)
    case ANotice => Notice(s, s', p)
    case AClear => Clear(s, s', p)
    case AFallOver => FallOver(s, s', p)
    case AUncount => Uncount(s, s', p)
    case ALose => Lose(s, s', p)
    case AWin => Win(s, s', p)
    case AGiveUp => GiveUp(s, s', p)
    case AFinish => Finish(s, s', p)
    case AReport => Report(s, s', p)
    case ABegin(k) => Begin(s, s', p, k)
    case AZero => Zero(s, s', p)
    case AReadCount => ReadCount(s, s', p)
    case AFlip => Flip(s, s', p)
    case ASkip => Skip(s, s', p)
    case ARation => Ration(s, s', p)
    case AExit => Exit(s, s', p)
    case AComplete => Complete(s, s', p)
    case AQuit => Quit(s, s', p)
  }

  predicate Init(s: State) {
    && s.lock.Free? && (forall i :: 0 <= i < |s.slots| ==> s.slots[i] == 0)
    && s.spinCount == s.numWaiting == s.numTriggered == s.numToTrigger == 0 && s.allowable == s.base == 0
    && !s.triggering
    && (forall p :: p in s.pc ==> s.pc[p].Idle?)
    && s.owner == map[] && s.waiters == s.spinners == s.released == {}
    && s.returned == s.tries == s.ticketRound == 0 && s.rounds == []
  }

  predicate Run(ss: seq<State>, es: seq<(Pid, Action)>) {
    && |ss| == |es| + 1 && Init(ss[0])
    && forall i :: 0 <= i < |es| ==> Step(ss[i], ss[i + 1], es[i].0, es[i].1)
  }

  // ---------------------------------------------------------------------------------------
  // Invariants
  // ---------------------------------------------------------------------------------------

  predicate Waiter(c: Pc) {
    c.Spinning? || c.Leaving? || c.Left? || c.Falling? || c.Sleeping? || c.Finishing?
  }

  predicate Spinner(c: Pc) {
    c.Searching? || c.Spinning? || c.Leaving? || c.Left? || c.Falling?
  }

  predicate Locked(c: Pc) {
    c.Searching? || c.Asked? || c.Starting? || c.Scanning? || c.Waking? || c.Settling?
  }

  predicate Holds(c: Pc) {
    c.Spinning? || c.Leaving?
  }

  predicate Let(s: State, c: Pc) {
    || c.Leaving? || c.Left? || c.Finishing? || c.Reporting?
    || (c.Spinning? && c.idx < |s.slots| && s.slots[c.idx] == 2)
  }

  /** A process is where its program counter says. */
  predicate PcOk(s: State, p: Pid, c: Pc) {
    && (Waiter(c) <==> p in s.waiters)
    && (Spinner(c) <==> p in s.spinners)
    && (Locked(c) <==> s.lock == Held(p))
    && (Holds(c) ==> c.idx in s.owner && s.owner[c.idx] == p)
    && (c.Leaving? ==> c.idx < |s.slots| && s.slots[c.idx] == 2)
    && (Let(s, c) <==> p in s.released)
    && (c.Asked? ==> INT_MIN <= c.want <= INT_MAX && c.waiting > 0)
    && (c.Starting? ==> c.k <= INT_MAX && s.rounds != [] && s.rounds[|s.rounds| - 1] == Round(c.k, 0, 0)
                        && s.ticketRound < |s.rounds|)
    && (c.Scanning? ==> c.flipped <= c.k <= INT_MAX && s.rounds != []
                        && s.rounds[|s.rounds| - 1] == Round(c.k, c.flipped, 0)
                        && s.ticketRound < |s.rounds|)
  }

  predicate Placed(s: State) {
    && s.waiters + s.spinners + s.released <= s.pc.Keys
    && forall p :: p in s.pc ==> PcOk(s, p, s.pc[p])
  }

  /** A slot is 0, or 1 or 2 and owned by the one process that spins on it. */
  predicate Slotted(s: State) {
    && (forall i :: 0 <= i < |s.slots| ==> s.slots[i] <= 2)
    && (forall i :: 0 <= i < |s.slots| ==> (s.slots[i] != 0 <==> i in s.owner))
    && (forall i :: i in s.owner ==>
          i < |s.slots| && s.owner[i] in s.pc && Holds(s.pc[s.owner[i]]) && s.pc[s.owner[i]].idx == i)
  }

  predicate Counted(s: State) {
    && s.numWaiting == |s.waiters|
    && s.spinCount == |s.spinners|
  }

  predicate RoundOk(r: Round) {
    r.flipped + r.granted <= r.asked
  }

  /** At most 2^31 draws more than tickets since the count was last stored. */
  predicate Few(s: State) {
    s.tries <= s.base + 0x8000_0000
  }

  /** As long as that is so the count is what was stored less what was drawn. */
  predicate Rationed(s: State) {
    && s.ticketRound <= |s.rounds|
    && INT_MIN <= s.allowable <= INT_MAX && s.base >= 0
    && (Few(s) ==> s.allowable == s.base - s.tries)
  }

  predicate Inv(s: State) {
    Placed(s) && Slotted(s) && Counted(s) && Rationed(s)
  }

  // ---------------------------------------------------------------------------------------
  // Every step keeps the invariants
  // ---------------------------------------------------------------------------------------

  lemma EnterIdlePc(s: State, s': State, p: Pid, q: Pid)
    requires EnterIdle(s, s', p) && q in s.pc && PcOk(s, p, s.pc[p]) && PcOk(s, q, s.pc[q])
    ensures q in s'.pc && PcOk(s', q, s'.pc[q])
  {
  }

  lemma EnterIdleSlotted(s: State, s': State, p: Pid)
    requires Slotted(s) && p in s.pc && PcOk(s, p, s.pc[p]) && EnterIdle(s, s', p)
    ensures Slotted(s')
  {
  }

  lemma EnterIdleCounted(s: State, s': State, p: Pid)
    requires Counted(s) && p in s.pc && PcOk(s, p, s.pc[p]) && EnterIdle(s, s', p)
    ensures Counted(s')
  {
  }

  lemma EnterIdleInv(s: State, s': State, p: Pid)
    requires Inv(s) && EnterIdle(s, s', p)
    ensures Inv(s')
  {
    forall q | q in s'.pc ensures PcOk(s', q, s'.pc[q]) { EnterIdlePc(s, s', p, q); }
    assert PcOk(s, p, s.pc[p]);
    EnterIdleSlotted(s, s', p);
    EnterIdleCounted(s, s', p);
  }

  lemma EnterSpinPc(s: State, s': State, p: Pid, q: Pid)
    requires EnterSpin(s, s', p) && q in s.pc && PcOk(s, p, s.pc[p]) && PcOk(s, q, s.pc[q])
    ensures q in s'.pc && PcOk(s', q, s'.pc[q])
  {
  }

  lemma EnterSpinSlotted(s: State, s': State, p: Pid)
    requires Slotted(s) && p in s.pc && PcOk(s, p, s.pc[p]) && EnterSpin(s, s', p)
    ensures Slotted(s')
  {
  }

  lemma EnterSpinCounted(s: State, s': State, p: Pid)
    requires Counted(s) && p in s.pc && PcOk(s, p, s.pc[p]) && EnterSpin(s, s', p)
    ensures Counted(s')
  {
  }

  lemma EnterSpinInv(s: State, s': State, p: Pid)
    requires Inv(s) && EnterSpin(s, s', p)
    ensures Inv(s')
  {
    forall q | q in s'.pc ensures PcOk(s', q, s'.pc[q]) { EnterSpinPc(s, s', p, q); }
    assert PcOk(s, p, s.pc[p]);
    EnterSpinSlotted(s, s', p);
    EnterSpinCounted(s, s', p);
  }

  lemma PassPc(s: State, s': State, p: Pid, q: Pid)
    requires Pass(s, s', p) && q in s.pc && PcOk(s, p, s.pc[p]) && PcOk(s, q, s.pc[q])
    ensures q in s'.pc && PcOk(s', q, s'.pc[q])
  {
  }

  lemma PassInv(s: State, s': State, p: Pid)
    requires Inv(s) && Pass(s, s', p)
    ensures Inv(s')
  {
    forall q | q in s'.pc ensures PcOk(s', q, s'.pc[q]) { PassPc(s, s', p, q); }
    assert PcOk(s, p, s.pc[p]);
  }

  lemma ClaimPc(s: State, s': State, p: Pid, q: Pid)
    requires Claim(s, s', p) && q in s.pc && PcOk(s, p, s.pc[p]) && PcOk(s, q, s.pc[q]) && Slotted(s)
    ensures q in s'.pc && PcOk(s', q, s'.pc[q])
  {
  }

  lemma ClaimSlotted(s: State, s': State, p: Pid)
    requires Slotted(s) && p in s.pc && PcOk(s, p, s.pc[p]) && Claim(s, s', p)
    ensures Slotted(s')
  {
  }

  lemma ClaimCounted(s: State, s': State, p: Pid)
    requires Counted(s) && p in s.pc && PcOk(s, p, s.pc[p]) && Claim(s, s', p)
    ensures Counted(s')
  {
  }

  lemma ClaimInv(s: State, s': State, p: Pid)
    requires Inv(s) && Claim(s, s', p)
    ensures Inv(s')
  {
    forall q | q in s'.pc ensures PcOk(s', q, s'.pc[q]) { ClaimPc(s, s', p, q); }
    assert PcOk(s, p, s.pc[p]);
    ClaimSlotted(s, s', p);
    ClaimCounted(s, s', p);
  }

  lemma CrowdPc(s: State, s': State, p: Pid, q: Pid)
    requires Crowd(s, s', p) && q in s.pc && PcOk(s, p, s.pc[p]) && PcOk(s, q, s.pc[q])
    ensures q in s'.pc && PcOk(s', q, s'.pc[q])
  {
  }

  lemma CrowdSlotted(s: State, s': State, p: Pid)
    requires Slotted(s) && p in s.pc && PcOk(s, p, s.pc[p]) && Crowd(s, s', p)
    ensures Slotted(s')
  {
  }

  lemma CrowdCounted(s: State, s': State, p: Pid)
    requires Counted(s) && p in s.pc && PcOk(s, p, s.pc[p]) && Crowd(s, s', p)
    ensures Counted(s')
  {
  }

  lemma CrowdInv(s: State, s': State, p: Pid)
    requires Inv(s) && Crowd(s, s', p)
    ensures Inv(s')
  {
    forall q | q in s'.pc ensures PcOk(s', q, s'.pc[q]) { CrowdPc(s, s', p, q); }
    assert PcOk(s, p, s.pc[p]);
    CrowdSlotted(s, s', p);
    CrowdCounted(s, s', p);
  }

  lemma NoticePc(s: State, s': State, p: Pid, q: Pid)
    requires Notice(s, s', p) && q in s.pc && PcOk(s, p, s.pc[p]) && PcOk(s, q, s.pc[q]) && Slotted(s)
    ensures q in s'.pc && PcOk(s', q, s'.pc[q])
  {
  }

  lemma NoticeInv(s: State, s': State, p: Pid)
    requires Inv(s) && Notice(s, s', p)
    ensures Inv(s')
  {
    forall q | q in s'.pc ensures PcOk(s', q, s'.pc[q]) { NoticePc(s, s', p, q); }
    assert PcOk(s, p, s.pc[p]);
  }

  lemma ClearPc(s: State, s': State, p: Pid, q: Pid)
    requires Clear(s, s', p) && q in s.pc && PcOk(s, p, s.pc[p]) && PcOk(s, q, s.pc[q]) && Slotted(s)
    ensures q in s'.pc && PcOk(s', q, s'.pc[q])
  {
  }

  lemma ClearInv(s: State, s': State, p: Pid)
    requires Inv(s) && Clear(s, s', p)
    ensures Inv(s')
  {
    forall q | q in s'.pc ensures PcOk(s', q, s'.pc[q]) { ClearPc(s, s', p, q); }
    assert PcOk(s, p, s.pc[p]);
  }

  lemma FallOverPc(s: State, s': State, p: Pid, q: Pid)
    requires FallOver(s, s', p) && q in s.pc && PcOk(s, p, s.pc[p]) && PcOk(s, q, s.pc[q]) && Slotted(s)
    ensures q in s'.pc && PcOk(s', q, s'.pc[q])
  {
  }

  lemma FallOverInv(s: State, s': State, p: Pid)
    requires Inv(s) && FallOver(s, s', p)
    ensures Inv(s')
  {
    forall q | q in s'.pc ensures PcOk(s', q, s'.pc[q]) { FallOverPc(s, s', p, q); }
    assert PcOk(s, p, s.pc[p]);
  }

  lemma UncountPc(s: State, s': State, p: Pid, q: Pid)
    requires Uncount(s, s', p) && q in s.pc && PcOk(s, p, s.pc[p]) && PcOk(s, q, s.pc[q])
    ensures q in s'.pc && PcOk(s', q, s'.pc[q])
  {
  }

  lemma UncountInv(s: State, s': State, p: Pid)
    requires Inv(s) && Uncount(s, s', p)
    ensures Inv(s')
  {
    forall q | q in s'.pc ensures PcOk(s', q, s'.pc[q]) { UncountPc(s, s', p, q); }
    assert PcOk(s, p, s.pc[p]);
  }

  lemma LosePc(s: State, s': State, p: Pid, q: Pid)
    requires Lose(s, s', p) && q in s.pc && PcOk(s, p, s.pc[p]) && PcOk(s, q, s.pc[q])
    ensures q in s'.pc && PcOk(s', q, s'.pc[q])
  {
  }

  lemma LoseInv(s: State, s': State, p: Pid)
    requires Inv(s) && Lose(s, s', p)
    ensures Inv(s')
  {
    forall q | q in s'.pc ensures PcOk(s', q, s'.pc[q]) { LosePc(s, s', p, q); }
    assert PcOk(s, p, s.pc[p]);
  }

  lemma WinPc(s: State, s': State, p: Pid, q: Pid)
    requires Win(s, s', p) && q in s.pc && PcOk(s, p, s.pc[p]) && PcOk(s, q, s.pc[q])
    ensures q in s'.pc && PcOk(s', q, s'.pc[q])
  {
  }

  lemma WinInv(s: State, s': State, p: Pid)
    requires Inv(s) && Win(s, s', p)
    ensures Inv(s')
  {
    forall q | q in s'.pc ensures PcOk(s', q, s'.pc[q]) { WinPc(s, s', p, q); }
    assert PcOk(s, p, s.pc[p]);
  }

  lemma GiveUpPc(s: State, s': State, p: Pid, q: Pid)
    requires GiveUp(s, s', p) && q in s.pc && PcOk(s, p, s.pc[p]) && PcOk(s, q, s.pc[q])
    ensures q in s'.pc && PcOk(s', q, s'.pc[q])
  {
  }

  lemma GiveUpInv(s: State, s': State, p: Pid)
    requires Inv(s) && GiveUp(s, s', p)
    ensures Inv(s')
  {
    forall q | q in s'.pc ensures PcOk(s', q, s'.pc[q]) { GiveUpPc(s, s', p, q); }
    assert PcOk(s, p, s.pc[p]);
  }

  lemma FinishPc(s: State, s': State, p: Pid, q: Pid)
    requires Finish(s, s', p) && q in s.pc && PcOk(s, p, s.pc[p]) && PcOk(s, q, s.pc[q])
    ensures q in s'.pc && PcOk(s', q, s'.pc[q])
  {
  }

  lemma FinishSlotted(s: State, s': State, p: Pid)
    requires Slotted(s) && p in s.pc && PcOk(s, p, s.pc[p]) && Finish(s, s', p)
    ensures Slotted(s')
  {
  }

  lemma FinishCounted(s: State, s': State, p: Pid)
    requires Counted(s) && p in s.pc && PcOk(s, p, s.pc[p]) && Finish(s, s', p)
    ensures Counted(s')
  {
  }

  lemma FinishInv(s: State, s': State, p: Pid)
    requires Inv(s) && Finish(s, s', p)
    ensures Inv(s')
  {
    forall q | q in s'.pc ensures PcOk(s', q, s'.pc[q]) { FinishPc(s, s', p, q); }
    assert PcOk(s, p, s.pc[p]);
    FinishSlotted(s, s', p);
    FinishCounted(s, s', p);
  }

  lemma ReportPc(s: State, s': State, p: Pid, q: Pid)
    requires Report(s, s', p) && q in s.pc && PcOk(s, p, s.pc[p]) && PcOk(s, q, s.pc[q])
    ensures q in s'.pc && PcOk(s', q, s'.pc[q])
  {
  }

  lemma ReportInv(s: State, s': State, p: Pid)
    requires Inv(s) && Report(s, s', p)
    ensures Inv(s')
  {
    forall q | q in s'.pc ensures PcOk(s', q, s'.pc[q]) { ReportPc(s, s', p, q); }
    assert PcOk(s, p, s.pc[p]);
  }

  lemma BeginPc(s: State, s': State, p: Pid, q: Pid, k: int)
    requires Begin(s, s', p, k) && q in s.pc && PcOk(s, p, s.pc[p]) && PcOk(s, q, s.pc[q])
    ensures q in s'.pc && PcOk(s', q, s'.pc[q])
  {
  }

  lemma BeginSlotted(s: State, s': State, p: Pid, k: int)
    requires Slotted(s) && p in s.pc && PcOk(s, p, s.pc[p]) && Begin(s, s', p, k)
    ensures Slotted(s')
  {
  }

  lemma BeginCounted(s: State, s': State, p: Pid, k: int)
    requires Counted(s) && p in s.pc && PcOk(s, p, s.pc[p]) && Begin(s, s', p, k)
    ensures Counted(s')
  {
  }

  lemma BeginRationed(s: State, s': State, p: Pid, k: int)
    requires Rationed(s) && p in s.pc && PcOk(s, p, s.pc[p]) && Begin(s, s', p, k)
    ensures Rationed(s')
  {
  }

  lemma BeginInv(s: State, s': State, p: Pid, k: int)
    requires Inv(s) && Begin(s, s', p, k)
    ensures Inv(s')
  {
    forall q | q in s'.pc ensures PcOk(s', q, s'.pc[q]) { BeginPc(s, s', p, q, k); }
    assert PcOk(s, p, s.pc[p]);
    BeginSlotted(s, s', p, k);
    BeginCounted(s, s', p, k);
    BeginRationed(s, s', p, k);
  }

  lemma ZeroPc(s: State, s': State, p: Pid, q: Pid)
    requires Zero(s, s', p) && q in s.pc && PcOk(s, p, s.pc[p]) && PcOk(s, q, s.pc[q])
    requires s.ticketRound <= |s.rounds|
    ensures q in s'.pc && PcOk(s', q, s'.pc[q])
  {
  }

  lemma ZeroSlotted(s: State, s': State, p: Pid)
    requires Slotted(s) && p in s.pc && PcOk(s, p, s.pc[p]) && Zero(s, s', p)
    ensures Slotted(s')
  {
  }

  lemma ZeroCounted(s: State, s': State, p: Pid)
    requires Counted(s) && p in s.pc && PcOk(s, p, s.pc[p]) && Zero(s, s', p)
    ensures Counted(s')
  {
  }

  lemma ZeroRationed(s: State, s': State, p: Pid)
    requires Rationed(s) && p in s.pc && PcOk(s, p, s.pc[p]) && Zero(s, s', p)
    ensures Rationed(s')
  {
  }

  lemma ZeroInv(s: State, s': State, p: Pid)
    requires Inv(s) && Zero(s, s', p)
    ensures Inv(s')
  {
    forall q | q in s'.pc ensures PcOk(s', q, s'.pc[q]) { ZeroPc(s, s', p, q); }
    assert PcOk(s, p, s.pc[p]);
    ZeroSlotted(s, s', p);
    ZeroCounted(s, s', p);
    ZeroRationed(s, s', p);
  }

  lemma ReadCountPc(s: State, s': State, p: Pid, q: Pid)
    requires ReadCount(s, s', p) && q in s.pc && PcOk(s, p, s.pc[p]) && PcOk(s, q, s.pc[q])
    ensures q in s'.pc && PcOk(s', q, s'.pc[q])
  {
  }

  lemma ReadCountInv(s: State, s': State, p: Pid)
    requires Inv(s) && ReadCount(s, s', p)
    ensures Inv(s')
  {
    forall q | q in s'.pc ensures PcOk(s', q, s'.pc[q]) { ReadCountPc(s, s', p, q); }
    assert PcOk(s, p, s.pc[p]);
  }

  lemma FlipPc(s: State, s': State, p: Pid, q: Pid)
    requires Flip(s, s', p) && q in s.pc && PcOk(s, p, s.pc[p]) && PcOk(s, q, s.pc[q]) && Slotted(s)
    requires Placed(s)
    ensures q in s'.pc && PcOk(s', q, s'.pc[q])
  {
    assert PcOk(s, s.owner[s.pc[p].idx], s.pc[s.owner[s.pc[p].idx]]);
  }

  lemma FlipSlotted(s: State, s': State, p: Pid)
    requires Slotted(s) && p in s.pc && PcOk(s, p, s.pc[p]) && Flip(s, s', p)
    ensures Slotted(s')
  {
  }

  lemma FlipRationed(s: State, s': State, p: Pid)
    requires Rationed(s) && p in s.pc && PcOk(s, p, s.pc[p]) && Flip(s, s', p)
    ensures Rationed(s')
  {
  }

  lemma FlipInv(s: State, s': State, p: Pid)
    requires Inv(s) && Flip(s, s', p)
    ensures Inv(s')
  {
    forall q | q in s'.pc ensures PcOk(s', q, s'.pc[q]) { FlipPc(s, s', p, q); }
    assert PcOk(s, p, s.pc[p]);
    FlipSlotted(s, s', p);
    FlipRationed(s, s', p);
  }

  lemma SkipPc(s: State, s': State, p: Pid, q: Pid)
    requires Skip(s, s', p) && q in s.pc && PcOk(s, p, s.pc[p]) && PcOk(s, q, s.pc[q])
    ensures q in s'.pc && PcOk(s', q, s'.pc[q])
  {
  }

  lemma SkipInv(s: State, s': State, p: Pid)
    requires Inv(s) && Skip(s, s', p)
    ensures Inv(s')
  {
    forall q | q in s'.pc ensures PcOk(s', q, s'.pc[q]) { SkipPc(s, s', p, q); }
    assert PcOk(s, p, s.pc[p]);
  }

  lemma RationPc(s: State, s': State, p: Pid, q: Pid)
    requires Ration(s, s', p) && q in s.pc && PcOk(s, p, s.pc[p]) && PcOk(s, q, s.pc[q])
    ensures q in s'.pc && PcOk(s', q, s'.pc[q])
  {
  }

  lemma RationInv(s: State, s': State, p: Pid)
    requires Inv(s) && Ration(s, s', p)
    ensures Inv(s')
  {
    forall q | q in s'.pc ensures PcOk(s', q, s'.pc[q]) { RationPc(s, s', p, q); }
    assert PcOk(s, p, s.pc[p]);
  }

  lemma ExitPc(s: State, s': State, p: Pid, q: Pid)
    requires Exit(s, s', p) && q in s.pc && PcOk(s, p, s.pc[p]) && PcOk(s, q, s.pc[q])
    ensures q in s'.pc && PcOk(s', q, s'.pc[q])
  {
  }

  lemma ExitInv(s: State, s': State, p: Pid)
    requires Inv(s) && Exit(s, s', p)
    ensures Inv(s')
  {
    forall q | q in s'.pc ensures PcOk(s', q, s'.pc[q]) { ExitPc(s, s', p, q); }
    assert PcOk(s, p, s.pc[p]);
  }

  lemma CompletePc(s: State, s': State, p: Pid, q: Pid)
    requires Complete(s, s', p) && q in s.pc && PcOk(s, p, s.pc[p]) && PcOk(s, q, s.pc[q])
    ensures q in s'.pc && PcOk(s', q, s'.pc[q])
  {
  }

  lemma CompleteInv(s: State, s': State, p: Pid)
    requires Inv(s) && Complete(s, s', p)
    ensures Inv(s')
  {
    forall q | q in s'.pc ensures PcOk(s', q, s'.pc[q]) { CompletePc(s, s', p, q); }
    assert PcOk(s, p, s.pc[p]);
  }

  lemma QuitPc(s: State, s': State, p: Pid, q: Pid)
    requires Quit(s, s', p) && q in s.pc && PcOk(s, p, s.pc[p]) && PcOk(s, q, s.pc[q])
    ensures q in s'.pc && PcOk(s', q, s'.pc[q])
  {
  }

  lemma QuitInv(s: State, s': State, p: Pid)
    requires Inv(s) && Quit(s, s', p)
    ensures Inv(s')
  {
    forall q | q in s'.pc ensures PcOk(s', q, s'.pc[q]) { QuitPc(s, s', p, q); }
    assert PcOk(s, p, s.pc[p]);
  }

  lemma StepInv(s: State, s': State, p: Pid, a: Action)
    requires Inv(s) && Step(s, s', p, a)
    ensures Inv(s')
  {
    match a
    case AEnterIdle => EnterIdleInv(s, s', p);
    case AEnterSpin => EnterSpinInv(s, s', p);
    case APass => PassInv(s, s', p);
    case AClaim => ClaimInv(s, s', p);
    case ACrowd => CrowdInv(s, s', p);
    case ANotice => NoticeInv(s, s', p);
    case AClear => ClearInv(s, s', p);
    case AFallOver => FallOverInv(s, s', p);
    case AUncount => UncountInv(s, s', p);
    case ALose => LoseInv(s, s', p);
    case AWin => WinInv(s, s', p);
    case AGiveUp => GiveUpInv(s, s', p);
    case AFinish => FinishInv(s, s', p);
    case AReport => ReportInv(s, s', p);
    case ABegin(k) => BeginInv(s, s', p, k);
    case AZero => ZeroInv(s, s', p);
    case AReadCount => ReadCountInv(s, s', p);
    case AFlip => FlipInv(s, s', p);
    case ASkip => SkipInv(s, s', p);
    case ARation => RationInv(s, s', p);
    case AExit => ExitInv(s, s', p);
    case AComplete => CompleteInv(s, s', p);
    case AQuit => QuitInv(s, s', p);
  }

  lemma {:induction false} RunInv(ss: seq<State>, es: seq<(Pid, Action)>, n: nat)
    requires Run(ss, es) && n < |ss|
    ensures Inv(ss[n])
    decreases n
  {
    if n > 0 {
      RunInv(ss, es, n - 1);
      StepInv(ss[n - 1], ss[n], es[n - 1].0, es[n - 1].1);
    }
  }

  // ---------------------------------------------------------------------------------------
  // What holds of every run
  // ---------------------------------------------------------------------------------------

  predicate SpinsOn(s: State, p: Pid, i: nat) {
    p in s.pc && Holds(s.pc[p]) && s.pc[p].idx == i
  }

  /** A slot in use is owned by exactly one process, and a process that spins has a slot in use. */
  lemma SlotHasOneOwner(ss: seq<State>, es: seq<(Pid, Action)>, n: nat, i: nat)
    requires Run(ss, es) && n < |ss| && i < |ss[n].slots|
    ensures ss[n].slots[i] in {0, 1, 2}
    ensures ss[n].slots[i] != 0 <==> exists p :: SpinsOn(ss[n], p, i)
    ensures forall p, q :: SpinsOn(ss[n], p, i) && SpinsOn(ss[n], q, i) ==> p == q
  {
    RunInv(ss, es, n);
    var s := ss[n];
    forall p | SpinsOn(s, p, i) ensures i in s.owner && s.owner[i] == p {
      assert PcOk(s, p, s.pc[p]);
    }
    assert i in s.owner ==> SpinsOn(s, s.owner[i], i);
  }

  // ---------------------------------------------------------------------------------------
  // Who is let out
  // ---------------------------------------------------------------------------------------

  /** How many waiters the rounds let out. */
  function Total(rounds: seq<Round>): nat {
    if rounds == [] then 0
    else Total(rounds[..|rounds| - 1]) + rounds[|rounds| - 1].flipped + rounds[|rounds| - 1].granted
  }

  lemma {:induction false} TotalGranted(rounds: seq<Round>, i: nat)
    requires i < |rounds|
    ensures Total(Granted(rounds, i)) == Total(rounds) + 1
  {
    var n := |rounds| - 1;
    var rounds' := Granted(rounds, i);
    if i < n {
      TotalGranted(rounds[..n], i);
      assert rounds'[..n] == Granted(rounds[..n], i);
    } else {
      assert rounds'[..n] == rounds[..n];
    }
  }

  lemma TotalFlipped(rounds: seq<Round>)
    requires rounds != []
    ensures Total(Flipped(rounds)) == Total(rounds) + 1
  {
    var n := |rounds| - 1;
    assert Flipped(rounds)[..n] == rounds[..n];
  }

  lemma TotalBegun(rounds: seq<Round>, k: nat)
    ensures Total(rounds + [Round(k, 0, 0)]) == Total(rounds)
  {
    assert (rounds + [Round(k, 0, 0)])[..|rounds|] == rounds;
  }

  /** Waits that return without any round having let them out. */
  function Surplus(s: State): int {
    s.returned + |s.released| - Total(s.rounds)
  }

  /** No round lets out more than it was asked to, and nobody returns that no round let out. */
  predicate Fair(s: State) {
    (forall i :: 0 <= i < |s.rounds| ==> RoundOk(s.rounds[i])) && Surplus(s) == 0
  }

  function TicketsLeft(s: State): nat {
    if s.tries < s.base then s.base - s.tries else 0
  }

  /** The tickets in hand are what their round has left to let out; without a round there are none. */
  predicate Tickets(s: State) {
    && s.ticketRound <= |s.rounds|
    && if s.ticketRound == 0 then s.base == 0
       else
         var r := s.rounds[s.ticketRound - 1];
         r.flipped + r.granted + TicketsLeft(s) == r.asked
  }

  predicate FairInv(s: State) {
    Surplus(s) >= 0 && (Fair(s) ==> Tickets(s))
  }

  /** The one way to let out somebody too many: a ticket drawn after the count has gone round. */
  predicate Stray(s: State, a: Action) {
    a.AWin? && !Few(s)
  }

  /** What the step from s to s' does to fairness. */
  predicate FairOn(s: State, s': State, a: Action) {
    && FairInv(s') && (Fair(s') ==> Fair(s))
    && (Fair(s) ==> (Fair(s') <==> !Stray(s, a)))
  }

  predicate SameRounds(s: State, s': State) {
    && s'.rounds == s.rounds && s'.ticketRound == s.ticketRound && s'.base == s.base && s'.tries == s.tries
    && s'.returned == s.returned && s'.released == s.released
  }

  predicate MovesRounds(a: Action) {
    a.ALose? || a.AWin? || a.AReport? || a.AZero? || a.AFlip? || a.ARation? || a.AComplete?
  }

  lemma OthersSame(s: State, s': State, p: Pid, a: Action)
    requires Step(s, s', p, a) && !MovesRounds(a)
    ensures SameRounds(s, s')
  {
  }

  lemma LoseFair(s: State, s': State, p: Pid)
    requires Rationed(s) && FairInv(s) && Lose(s, s', p)
    ensures FairOn(s, s', ALose)
  {
  }

  lemma WinFair(s: State, s': State, p: Pid)
    requires Rationed(s) && FairInv(s) && Win(s, s', p) && PcOk(s, p, s.pc[p])
    ensures FairOn(s, s', AWin)
  {
    assert |s'.released| == |s.released| + 1;
    if s.ticketRound > 0 {
      var k := s.ticketRound - 1;
      TotalGranted(s.rounds, k);
      assert s'.rounds == s.rounds[k := s.rounds[k].(granted := s.rounds[k].granted + 1)];
      assert RoundOk(s'.rounds[k]) ==> RoundOk(s.rounds[k]);
      assert Fair(s') ==> forall i :: 0 <= i < |s.rounds| ==> RoundOk(s.rounds[i]) by {
        forall i | Fair(s') && 0 <= i < |s.rounds| ensures RoundOk(s.rounds[i]) { assert RoundOk(s'.rounds[i]); }
      }
    }
  }

  lemma ReportFair(s: State, s': State, p: Pid)
    requires FairInv(s) && Report(s, s', p) && PcOk(s, p, s.pc[p])
    ensures FairOn(s, s', AReport)
  {
    assert |s'.released| == |s.released| - 1;
  }

  lemma ZeroFair(s: State, s': State, p: Pid)
    requires FairInv(s) && Zero(s, s', p) && PcOk(s, p, s.pc[p]) && s.ticketRound <= |s.rounds|
    ensures FairOn(s, s', AZero)
  {
    var k := Wanted(s.pc[p].waiting, s.pc[p].want);
    if !Insufficient(s.pc[p].waiting, s.pc[p].want) {
      TotalBegun(s.rounds, k);
      BegunOk(s.rounds, Round(k, 0, 0));
    }
  }

  lemma BegunOk(rounds: seq<Round>, r: Round)
    requires RoundOk(r)
    ensures var rounds' := rounds + [r];
            && (forall i :: 0 <= i < |rounds| ==> rounds'[i] == rounds[i])
            && ((forall i :: 0 <= i < |rounds'| ==> RoundOk(rounds'[i]))
                <==> forall i :: 0 <= i < |rounds| ==> RoundOk(rounds[i]))
  {
    var rounds' := rounds + [r];
    assert forall i :: 0 <= i < |rounds| ==> rounds'[i] == rounds[i];
    assert rounds'[|rounds|] == r;
  }

  lemma FlipFair(s: State, s': State, p: Pid)
    requires FairInv(s) && Flip(s, s', p) && PcOk(s, p, s.pc[p]) && Slotted(s) && Placed(s)
    ensures FairOn(s, s', AFlip)
  {
    var q := s.owner[s.pc[p].idx];
    assert PcOk(s, q, s.pc[q]);
    assert |s'.released| == |s.released| + 1;
    TotalFlipped(s.rounds);
    var n := |s.rounds| - 1;
    assert RoundOk(s.rounds[n]) && RoundOk(s'.rounds[n]);
    assert forall i :: 0 <= i < n ==> s'.rounds[i] == s.rounds[i];
  }

  lemma RationFair(s: State, s': State, p: Pid)
    requires FairInv(s) && Ration(s, s', p) && PcOk(s, p, s.pc[p])
    ensures FairOn(s, s', ARation)
  {
  }

  lemma CompleteFair(s: State, s': State, p: Pid)
    requires FairInv(s) && Complete(s, s', p)
    ensures FairOn(s, s', AComplete)
  {
  }

  lemma SameFair(s: State, s': State, a: Action)
    requires FairInv(s) && SameRounds(s, s') && !a.AWin?
    ensures FairOn(s, s', a)
  {
  }

  lemma FairMove(s: State, s': State, p: Pid, a: Action)
    requires Placed(s) && Slotted(s) && Rationed(s) && FairInv(s) && p in s.pc && PcOk(s, p, s.pc[p])
    requires Step(s, s', p, a) && MovesRounds(a)
    ensures FairOn(s, s', a)
  {
    match a
    case ALose => LoseFair(s, s', p);
    case AWin => WinFair(s, s', p);
    case AReport => ReportFair(s, s', p);
    case AZero => ZeroFair(s, s', p);
    case AFlip => FlipFair(s, s', p);
    case ARation => RationFair(s, s', p);
    case AComplete => CompleteFair(s, s', p);
  }

  lemma FairStep(s: State, s': State, p: Pid, a: Action)
    requires Inv(s) && FairInv(s) && Step(s, s', p, a) && p in s.pc && PcOk(s, p, s.pc[p])
    ensures FairOn(s, s', a)
  {
    if MovesRounds(a) {
      FairMove(s, s', p, a);
    } else {
      OthersSame(s, s', p, a);
      SameFair(s, s', a);
    }
  }

  lemma Mover(s: State, s': State, p: Pid, a: Action)
    requires Step(s, s', p, a)
    ensures p in s.pc
  {
  }

  lemma FairAt(ss: seq<State>, es: seq<(Pid, Action)>, n: nat)
    requires Run(ss, es) && 0 < n < |ss| && FairInv(ss[n - 1])
    ensures FairOn(ss[n - 1], ss[n], es[n - 1].1)
  {
    RunInv(ss, es, n - 1);
    var s, s', p, a := ss[n - 1], ss[n], es[n - 1].0, es[n - 1].1;
    Mover(s, s', p, a);
    assert PcOk(s, p, s.pc[p]);
    FairStep(s, s', p, a);
  }

  lemma {:induction false} RunFairInv(ss: seq<State>, es: seq<(Pid, Action)>, n: nat)
    requires Run(ss, es) && n < |ss|
    ensures FairInv(ss[n])
    decreases n
  {
    if n > 0 {
      RunFairInv(ss, es, n - 1);
      FairAt(ss, es, n);
    }
  }

  /** Unfairness never goes away. */
  lemma {:induction false} FairBefore(fair: seq<bool>, m: nat, n: nat)
    requires m <= n < |fair| && fair[n] && forall i :: 0 < i < |fair| && fair[i] ==> fair[i - 1]
    ensures fair[m]
    decreases n
  {
    if m < n { FairBefore(fair, m, n - 1); }
  }

  lemma FairBack(ss: seq<State>, es: seq<(Pid, Action)>, n: nat)
    requires Run(ss, es) && 0 < n < |ss| && Fair(ss[n])
    ensures Fair(ss[n - 1])
  {
    RunFairInv(ss, es, n - 1);
    FairAt(ss, es, n);
  }

  /**
   Up to state n every round has let out at most as many waiters as it was asked to, spinners and
   sleepers together, and nobody has returned that no round let out, exactly when no ticket was won
   after the count had gone round.
   */
  lemma FairIff(ss: seq<State>, es: seq<(Pid, Action)>, n: nat)
    requires Run(ss, es) && n < |ss|
    ensures Fair(ss[n]) <==> forall i :: 0 <= i < n ==> !Stray(ss[i], es[i].1)
  {
    var fair := seq(|ss|, i requires 0 <= i < |ss| => Fair(ss[i]));
    var stray := seq(|es|, i requires 0 <= i < |es| => Stray(ss[i], es[i].1));
    forall i | 0 < i < |ss| && fair[i - 1] ensures fair[i] <==> !stray[i - 1] {
      RunFairInv(ss, es, i - 1);
      FairAt(ss, es, i);
    }
    NoMissBefore(fair, stray, n);
    if Fair(ss[n]) {
      forall i | 0 < i < |fair| && fair[i] ensures fair[i - 1] { FairBack(ss, es, i); }
      forall i | 0 <= i <= n ensures fair[i] { FairBefore(fair, i, n); }
    }
    assert forall i :: 0 <= i < n ==> stray[i] == Stray(ss[i], es[i].1);
    assert fair[n] == Fair(ss[n]);
  }

  function TotalAsked(rounds: seq<Round>): nat {
    if rounds == [] then 0 else TotalAsked(rounds[..|rounds| - 1]) + rounds[|rounds| - 1].asked
  }

  lemma {:induction false} TotalWithinAsked(rounds: seq<Round>)
    requires forall i :: 0 <= i < |rounds| ==> RoundOk(rounds[i])
    ensures Total(rounds) <= TotalAsked(rounds)
  {
    if rounds != [] {
      assert RoundOk(rounds[|rounds| - 1]);
      TotalWithinAsked(rounds[..|rounds| - 1]);
    }
  }

  /** In a fair run no more waits return than all rounds together were asked for. */
  lemma RoundsAreRationed(ss: seq<State>, es: seq<(Pid, Action)>, n: nat)
    requires Run(ss, es) && n < |ss| && forall i :: 0 <= i < n ==> !Stray(ss[i], es[i].1)
    ensures forall i :: 0 <= i < |ss[n].rounds| ==> RoundOk(ss[n].rounds[i])
    ensures ss[n].returned + |ss[n].released| <= TotalAsked(ss[n].rounds)
  {
    FairIff(ss, es, n);
    TotalWithinAsked(ss[n].rounds);
  }

  /** The waiting counters are exact, so that no decrement ever goes below zero. */
  lemma CountersAreExact(ss: seq<State>, es: seq<(Pid, Action)>, n: nat)
    requires Run(ss, es) && n < |ss|
    ensures ss[n].numWaiting == |set p | p in ss[n].pc && Waiter(ss[n].pc[p])|
    ensures ss[n].spinCount == |set p | p in ss[n].pc && Spinner(ss[n].pc[p])|
  {
    RunInv(ss, es, n);
    var s := ss[n];
    forall p | p in s.pc ensures (Waiter(s.pc[p]) <==> p in s.waiters) && (Spinner(s.pc[p]) <==> p in s.spinners) {
      assert PcOk(s, p, s.pc[p]);
    }
    assert (set p | p in s.pc && Waiter(s.pc[p])) == s.waiters;
    assert (set p | p in s.pc && Spinner(s.pc[p])) == s.spinners;
  }

  // ---------------------------------------------------------------------------------------
  // What a trigger achieves
  // ---------------------------------------------------------------------------------------

  predicate Serving(c: Pc) {
    c.Starting? || c.Scanning? || c.Waking? || c.Settling?
  }

  /** The slots whose owner spins and was not let out. */
  function Ones(s: State): set<nat> {
    set i | 0 <= i < |s.slots| && s.slots[i] == 1
  }

  function Last(s: State): Round
    requires s.rounds != []
  {
    s.rounds[|s.rounds| - 1]
  }

  /**
   What a trigger with program counter c has achieved: all that its round let out have reported or are
   on their way; the scan has left no spinner behind it and can still reach the others; and it is over
   only when the round is filled or nobody spins.
   */
  predicate TrigOk(s: State, c: Pc) {
    && (Serving(c) ==>
          && s.rounds != [] && s.triggering
          && s.numTriggered + |s.released| >= Last(s).flipped + Last(s).granted)
    && (c.Starting? || c.Scanning? || c.Waking? ==> s.rounds != [] && Last(s).asked == s.numToTrigger == c.k)
    && (c.Scanning? ==>
          && (forall i :: 0 <= i < |s.slots| && i < c.idx ==> s.slots[i] != 1)
          && |Ones(s)| + c.flipped <= c.spinners)
    && (c.Waking? ==> s.rounds != [] && s.ticketRound == |s.rounds| && (Last(s).flipped == c.k || Ones(s) == {}))
  }

  /** The flag is up exactly while a trigger is at work. */
  predicate FlagOk(s: State) {
    s.triggering ==> s.lock.Held? && s.lock.p in s.pc && Serving(s.pc[s.lock.p])
  }

  predicate TrigInv(s: State) {
    FlagOk(s) && forall p :: p in s.pc ==> TrigOk(s, s.pc[p])
  }

  /** Whoever spins on a slot is in the spinner count. */
  lemma OnesAreSpinners(s: State)
    requires Placed(s) && Slotted(s) && Counted(s)
    ensures |Ones(s)| <= s.spinCount
  {
    forall i | i in Ones(s) ensures i in s.owner && s.owner[i] in s.spinners && s.pc[s.owner[i]].idx == i {
      assert PcOk(s, s.owner[i], s.pc[s.owner[i]]);
    }
    var who := map i | i in Ones(s) :: s.owner[i];
    InjectiveCard(who);
    assert who.Keys == Ones(s);
    SubsetSize(who.Values, s.spinners);
  }

  lemma OnesFewer(s: State, s': State, i: nat)
    requires i < |s.slots| == |s'.slots| && s.slots[i] == 1 && s'.slots[i] != 1 && s'.slots == s.slots[i := s'.slots[i]]
    ensures Ones(s') == Ones(s) - {i} && |Ones(s')| == |Ones(s)| - 1
  {
    assert i in Ones(s);
  }

  /** What TrigOk looks at. */
  predicate SameTrig(s: State, s': State) {
    && s'.slots == s.slots && s'.rounds == s.rounds && s'.released == s.released && s'.ticketRound == s.ticketRound
    && s'.numTriggered == s.numTriggered && s'.numToTrigger == s.numToTrigger && s'.triggering == s.triggering
  }

  lemma SameTrigOk(s: State, s': State, c: Pc)
    requires TrigOk(s, c) && SameTrig(s, s')
    ensures TrigOk(s', c)
  {
    assert Ones(s') == Ones(s);
  }

  predicate MovesTrig(a: Action) {
    a.AClear? || a.AFallOver? || a.AWin? || a.AReport?
  }

  /** While p holds the lock only waiters can move. */
  lemma OthersQuiet(s: State, s': State, q: Pid, a: Action, p: Pid)
    requires Step(s, s', q, a) && q in s.pc && q != p && PcOk(s, q, s.pc[q]) && s.lock == Held(p)
    ensures s'.lock == s.lock && s'.triggering == s.triggering
    ensures !MovesTrig(a) ==> SameTrig(s, s')
  {
  }

  /** Fewer spinners are fine. */
  lemma FewerOnes(s: State, s': State, c: Pc)
    requires TrigOk(s, c) && SameTrig(s, s'.(slots := s.slots)) && |s'.slots| == |s.slots|
    requires forall i :: 0 <= i < |s.slots| && s'.slots[i] == 1 ==> s.slots[i] == 1
    ensures TrigOk(s', c)
  {
    assert Ones(s') <= Ones(s);
    SubsetSize(Ones(s'), Ones(s));
  }

  lemma SlotTrig(s: State, s': State, q: Pid, c: Pc)
    requires (Clear(s, s', q) || FallOver(s, s', q)) && TrigOk(s, c)
    ensures TrigOk(s', c)
  {
    FewerOnes(s, s', c);
  }

  lemma WinTrig(s: State, s': State, q: Pid, c: Pc)
    requires Win(s, s', q) && PcOk(s, q, s.pc[q]) && TrigOk(s, c)
    ensures TrigOk(s', c)
  {
    assert |s'.released| == |s.released| + 1 && Ones(s') == Ones(s);
  }

  lemma ReportTrig(s: State, s': State, q: Pid, c: Pc)
    requires Report(s, s', q) && PcOk(s, q, s.pc[q]) && TrigOk(s, c)
    ensures TrigOk(s', c)
  {
    assert |s'.released| == |s.released| - 1 && Ones(s') == Ones(s);
  }

  /** A step of somebody else while p is at work. */
  lemma OthersTrig(s: State, s': State, q: Pid, a: Action, p: Pid)
    requires Step(s, s', q, a) && p in s.pc && q in s.pc && q != p && PcOk(s, q, s.pc[q]) && s.lock == Held(p)
    requires TrigOk(s, s.pc[p])
    ensures TrigOk(s', s.pc[p])
  {
    OthersQuiet(s, s', q, a, p);
    if a.AClear? || a.AFallOver? { SlotTrig(s, s', q, s.pc[p]); }
    else if a.AWin? { WinTrig(s, s', q, s.pc[p]); }
    else if a.AReport? { ReportTrig(s, s', q, s.pc[p]); }
    else { SameTrigOk(s, s', s.pc[p]); }
  }

  lemma ZeroTrig(s: State, s': State, p: Pid)
    requires Zero(s, s', p) && PcOk(s, p, s.pc[p])
    ensures TrigOk(s', s'.pc[p])
  {
  }

  lemma ReadCountTrig(s: State, s': State, p: Pid)
    requires Placed(s) && Slotted(s) && Counted(s) && ReadCount(s, s', p) && TrigOk(s, s.pc[p])
    ensures TrigOk(s', s'.pc[p])
  {
    OnesAreSpinners(s);
    assert Ones(s') == Ones(s);
  }

  lemma FlipTrig(s: State, s': State, p: Pid)
    requires Placed(s) && Slotted(s) && Flip(s, s', p) && TrigOk(s, s.pc[p])
    ensures TrigOk(s', s'.pc[p])
  {
    var i := s.pc[p].idx;
    OnesFewer(s, s', i);
    assert PcOk(s, s.owner[i], s.pc[s.owner[i]]);
    assert |s'.released| == |s.released| + 1;
    assert Last(s').flipped == Last(s).flipped + 1;
  }

  lemma SkipTrig(s: State, s': State, p: Pid)
    requires Skip(s, s', p) && TrigOk(s, s.pc[p])
    ensures TrigOk(s', s'.pc[p])
  {
    assert Ones(s') == Ones(s);
  }

  /** The scan ends with the round filled or with no spinner left. */
  lemma ScanEnds(s: State, c: Pc)
    requires c.Scanning? && TrigOk(s, c) && !MoreToScan(s, c) && c.flipped <= c.k
    ensures c.flipped == c.k || Ones(s) == {}
  {
    if c.idx >= |s.slots| {
      assert forall i :: i in Ones(s) ==> false;
    }
  }

  lemma RationTrig(s: State, s': State, p: Pid)
    requires Ration(s, s', p) && TrigOk(s, s.pc[p]) && PcOk(s, p, s.pc[p])
    ensures TrigOk(s', s'.pc[p])
  {
    ScanEnds(s, s.pc[p]);
    assert Ones(s') == Ones(s);
  }

  predicate ScanMove(a: Action) {
    a.AZero? || a.AReadCount? || a.AFlip? || a.ASkip? || a.ARation?
  }

  lemma ExitTrig(s: State, s': State, p: Pid)
    requires Exit(s, s', p) && TrigOk(s, s.pc[p])
    ensures TrigOk(s', s'.pc[p])
  {
  }

  /** Any other step of p ends or has nothing to do with triggering. */
  lemma PlainTrig(s: State, s': State, p: Pid, a: Action)
    requires Step(s, s', p, a) && !ScanMove(a) && !a.AExit?
    ensures p in s'.pc && !Serving(s'.pc[p])
  {
  }

  /** p's own step. */
  lemma OwnTrig(s: State, s': State, p: Pid, a: Action)
    requires Placed(s) && Slotted(s) && Counted(s) && Step(s, s', p, a)
    requires p in s.pc && PcOk(s, p, s.pc[p]) && TrigOk(s, s.pc[p])
    ensures p in s'.pc && TrigOk(s', s'.pc[p])
  {
    if a.AExit? {
      ExitTrig(s, s', p);
    } else if !ScanMove(a) {
      PlainTrig(s, s', p, a);
    } else if a.AZero? {
      ZeroTrig(s, s', p);
    } else if a.AReadCount? {
      ReadCountTrig(s, s', p);
    } else if a.AFlip? {
      FlipTrig(s, s', p);
    } else if a.ASkip? {
      SkipTrig(s, s', p);
    } else {
      RationTrig(s, s', p);
    }
  }

  lemma FlagStep(s: State, s': State, p: Pid, a: Action)
    requires FlagOk(s) && Step(s, s', p, a) && p in s.pc && PcOk(s, p, s.pc[p])
    ensures FlagOk(s')
  {
    if s.triggering && s.lock.p != p {
      SamePc(s, s', p, a, s.lock.p);
      OthersQuiet(s, s', p, a, s.lock.p);
    }
  }

  lemma TrigStep(s: State, s': State, p: Pid, a: Action)
    requires Inv(s) && TrigInv(s) && Step(s, s', p, a)
    ensures TrigInv(s')
  {
    Mover(s, s', p, a);
    assert PcOk(s, p, s.pc[p]);
    FlagStep(s, s', p, a);
    OwnTrig(s, s', p, a);
    forall q | q in s'.pc && q != p ensures TrigOk(s', s'.pc[q]) { OtherTrig(s, s', p, a, q); }
  }

  lemma OtherTrig(s: State, s': State, p: Pid, a: Action, q: Pid)
    requires Inv(s) && TrigInv(s) && Step(s, s', p, a) && q in s'.pc && q != p
    ensures TrigOk(s', s'.pc[q])
  {
    Mover(s, s', p, a);
    SamePc(s, s', p, a, q);
    assert PcOk(s, p, s.pc[p]) && PcOk(s, q, s.pc[q]);
    if Serving(s.pc[q]) { OthersTrig(s, s', p, a, q); }
  }

  lemma SamePc(s: State, s': State, p: Pid, a: Action, q: Pid)
    requires Step(s, s', p, a) && q != p
    ensures q in s.pc <==> q in s'.pc
    ensures q in s.pc ==> s'.pc[q] == s.pc[q]
  {
    OnlyOwnPc(s, s', p, a);
  }

  lemma OnlyOwnPc(s: State, s': State, p: Pid, a: Action)
    requires Step(s, s', p, a)
    ensures p in s.pc && p in s'.pc && s'.pc == s.pc[p := s'.pc[p]]
  {
  }

  lemma {:induction false} RunTrigInv(ss: seq<State>, es: seq<(Pid, Action)>, n: nat)
    requires Run(ss, es) && n < |ss|
    ensures TrigInv(ss[n])
    decreases n
  {
    if n > 0 {
      RunTrigInv(ss, es, n - 1);
      RunInv(ss, es, n - 1);
      TrigStep(ss[n - 1], ss[n], es[n - 1].0, es[n - 1].1);
    }
  }

  /** The flag and the number to trigger say what the trigger at work was asked for. */
  lemma FlagMeans(ss: seq<State>, es: seq<(Pid, Action)>, n: nat)
    requires Run(ss, es) && n < |ss|
    ensures ss[n].triggering <==> exists p :: p in ss[n].pc && Serving(ss[n].pc[p])
    ensures forall p :: p in ss[n].pc && ss[n].pc[p].Waking? ==>
              ss[n].rounds != [] && ss[n].numToTrigger == ss[n].pc[p].k == Last(ss[n]).asked
  {
    RunTrigInv(ss, es, n);
  }

  /**
   When the scan is over, the round is filled or nobody is left that spins and was not let out, and
   exactly the rest of the round goes out as tickets.
   */
  lemma ScanLeavesNoSpinner(ss: seq<State>, es: seq<(Pid, Action)>, n: nat)
    requires Run(ss, es) && n < |es| && es[n].1.ARation?
    ensures ss[n].rounds != []
    ensures var r, s' := Last(ss[n]), ss[n + 1];
            && (r.flipped == r.asked || forall i :: 0 <= i < |ss[n].slots| ==> ss[n].slots[i] != 1)
            && s'.allowable == r.asked - r.flipped >= 0 && s'.ticketRound == |s'.rounds| && s'.rounds == ss[n].rounds
  {
    RunInv(ss, es, n);
    RunTrigInv(ss, es, n);
    var s, p := ss[n], es[n].0;
    assert Step(s, ss[n + 1], p, es[n].1);
    assert PcOk(s, p, s.pc[p]);
    ScanEnds(s, s.pc[p]);
    assert forall i :: 0 <= i < |s.slots| && s.slots[i] == 1 ==> i in Ones(s);
  }

  // ---------------------------------------------------------------------------------------
  // A trigger call
  // ---------------------------------------------------------------------------------------

  predicate NewCall(a: Action) {
    a.ABegin? || a.AEnterIdle? || a.AEnterSpin?
  }

  /** Process p starts nothing new in events i + 1 to n - 1. */
  predicate NoCall(es: seq<(Pid, Action)>, p: Pid, i: nat, n: nat) {
    forall k :: i < k < n && k < |es| && es[k].0 == p ==> !NewCall(es[k].1)
  }

  /** How many waits report in events i + 1 to n - 1. */
  function Reports(es: seq<(Pid, Action)>, i: nat, n: nat): nat
    requires n <= |es|
  {
    if n <= i + 1 then 0 else Reports(es, i, n - 1) + if es[n - 1].1.AReport? then 1 else 0
  }

  /** What a call for k is to let out when w wait: everybody if k is INT_MAX. */
  function Target(w: nat, k: int): int {
    if k < INT_MAX || w >= INT_MAX then k else w
  }

  /** Where a trigger for k that found w waiters can be, when that many waits have reported. */
  predicate OnTrigger(s: State, c: Pc, w: nat, k: int, reports: nat) {
    || c == Asked(k, w)
    || ((c.Starting? || c.Scanning? || c.Waking?) && c.k == Target(w, k) <= w && s.numTriggered <= reports)
    || c.Settling? || c.Idle?
  }

  lemma TriggerOwn(s: State, s': State, p: Pid, a: Action, w: nat, k: int, reports: nat)
    requires Step(s, s', p, a) && p in s.pc && PcOk(s, p, s.pc[p]) && !NewCall(a) && INT_MIN <= k <= INT_MAX
    requires OnTrigger(s, s.pc[p], w, k, reports)
    ensures p in s'.pc && OnTrigger(s', s'.pc[p], w, k, reports) && !a.AReport?
  {
  }

  lemma TriggerOther(s: State, s': State, q: Pid, a: Action, p: Pid, w: nat, k: int, reports: nat)
    requires Step(s, s', q, a) && q != p && p in s.pc && q in s.pc && PcOk(s, p, s.pc[p]) && PcOk(s, q, s.pc[q])
    requires OnTrigger(s, s.pc[p], w, k, reports)
    ensures p in s'.pc && OnTrigger(s', s'.pc[p], w, k, reports + if a.AReport? then 1 else 0)
  {
    SamePc(s, s', q, a, p);
  }

  lemma TriggerStep(ss: seq<State>, es: seq<(Pid, Action)>, n: nat, p: Pid, w: nat, k: int, reports: nat)
    requires Run(ss, es) && 0 < n < |ss| && p in ss[n - 1].pc && OnTrigger(ss[n - 1], ss[n - 1].pc[p], w, k, reports)
    requires !(es[n - 1].0 == p && NewCall(es[n - 1].1)) && INT_MIN <= k <= INT_MAX
    ensures p in ss[n].pc && OnTrigger(ss[n], ss[n].pc[p], w, k, reports + if es[n - 1].1.AReport? then 1 else 0)
  {
    RunInv(ss, es, n - 1);
    var s, s', q, a := ss[n - 1], ss[n], es[n - 1].0, es[n - 1].1;
    Mover(s, s', q, a);
    assert PcOk(s, p, s.pc[p]) && PcOk(s, q, s.pc[q]);
    if q == p { TriggerOwn(s, s', p, a, w, k, reports); } else { TriggerOther(s, s', q, a, p, w, k, reports); }
  }

  lemma {:induction false} TriggerSoFar(ss: seq<State>, es: seq<(Pid, Action)>, i: nat, n: nat, p: Pid, k: int)
    requires Run(ss, es) && i < n < |ss| && es[i] == (p, ABegin(k)) && NoCall(es, p, i, n)
    ensures p in ss[n].pc && INT_MIN <= k <= INT_MAX
    ensures OnTrigger(ss[n], ss[n].pc[p], |ss[i].waiters|, k, Reports(es, i, n))
    decreases n
  {
    if n == i + 1 {
      RunInv(ss, es, i);
      assert Step(ss[i], ss[i + 1], p, ABegin(k));
    } else {
      TriggerSoFar(ss, es, i, n - 1, p, k);
      TriggerStep(ss, es, n, p, |ss[i].waiters|, k, Reports(es, i, n - 1));
    }
  }

  /**
   A trigger that is done has seen as many waits report, since it was called, as it was to let out, or
   there is nobody left that waits.
   */
  lemma TriggerDone(ss: seq<State>, es: seq<(Pid, Action)>, i: nat, n: nat, p: Pid, k: int)
    requires Run(ss, es) && i < n < |es| && NoCall(es, p, i, n)
    requires es[i] == (p, ABegin(k)) && es[n] == (p, AExit)
    ensures Target(|ss[i].waiters|, k) <= Reports(es, i, n) || ss[n].waiters == {}
  {
    TriggerSoFar(ss, es, i, n, p, k);
    RunInv(ss, es, n);
    assert Step(ss[n], ss[n + 1], p, AExit);
  }

  /** A call starts a round for its target; it loses the lock instead if the target is negative or too high. */
  lemma RoundAsked(ss: seq<State>, es: seq<(Pid, Action)>, i: nat, n: nat, p: Pid, k: int)
    requires Run(ss, es) && i < n < |es| && NoCall(es, p, i, n)
    requires es[i] == (p, ABegin(k)) && es[n] == (p, AZero)
    ensures var w := |ss[i].waiters|;
            if 0 <= Target(w, k) <= w then
              ss[n + 1].rounds == ss[n].rounds + [Round(Target(w, k), 0, 0)] && ss[n + 1].lock == Held(p)
            else
              ss[n + 1].rounds == ss[n].rounds && ss[n + 1].lock.Leaked?
  {
    TriggerSoFar(ss, es, i, n, p, k);
    RunInv(ss, es, n);
    assert Step(ss[n], ss[n + 1], p, AZero);
    assert PcOk(ss[n], p, ss[n].pc[p]);
  }

  // ---------------------------------------------------------------------------------------
  // Tickets
  // ---------------------------------------------------------------------------------------

  predicate Draws(a: Action) {
    a.AWin? || a.ALose?
  }

  predicate Stores(a: Action) {
    a.ARation? || a.AComplete?
  }

  /** How many tickets are drawn in events i + 1 to n - 1. */
  function Drawings(es: seq<(Pid, Action)>, i: nat, n: nat): nat
    requires n <= |es|
  {
    if n <= i + 1 then 0 else Drawings(es, i, n - 1) + if Draws(es[n - 1].1) then 1 else 0
  }

  lemma DrawStep(s: State, s': State, p: Pid, a: Action)
    requires Step(s, s', p, a)
    ensures !Stores(a) ==> s'.base == s.base && s'.tries == s.tries + if Draws(a) then 1 else 0
    ensures Stores(a) ==> s'.tries == 0
    ensures a.AComplete? ==> s'.base == 0
  {
  }

  predicate NoStore(es: seq<(Pid, Action)>, i: nat, n: nat) {
    forall k :: i < k < n && k < |es| ==> !Stores(es[k].1)
  }

  /** What an action does to the count stored and the draws since. */
  predicate DrawOk(a: Action, base: int, tries: nat, base': int, tries': nat) {
    if Stores(a) then tries' == 0 else base' == base && tries' == tries + if Draws(a) then 1 else 0
  }

  lemma {:induction false} CountDraws(es: seq<(Pid, Action)>, base: seq<int>, tries: seq<nat>, i: nat, n: nat)
    requires i < n < |base| == |tries| == |es| + 1 && Stores(es[i].1) && NoStore(es, i, n)
    requires forall k :: 0 < k < |base| ==> DrawOk(es[k - 1].1, base[k - 1], tries[k - 1], base[k], tries[k])
    ensures base[n] == base[i + 1] && tries[n] == Drawings(es, i, n)
    decreases n
  {
    assert DrawOk(es[n - 1].1, base[n - 1], tries[n - 1], base[n], tries[n]);
    if n > i + 1 { CountDraws(es, base, tries, i, n - 1); }
  }

  lemma DrawnSince(ss: seq<State>, es: seq<(Pid, Action)>, i: nat, n: nat)
    requires Run(ss, es) && i < n < |ss| && Stores(es[i].1) && NoStore(es, i, n)
    ensures ss[n].base == ss[i + 1].base && ss[n].tries == Drawings(es, i, n)
  {
    var base := seq(|ss|, k requires 0 <= k < |ss| => ss[k].base);
    var tries := seq(|ss|, k requires 0 <= k < |ss| => ss[k].tries);
    forall k | 0 < k < |base| ensures DrawOk(es[k - 1].1, base[k - 1], tries[k - 1], base[k], tries[k]) {
      DrawAt(ss, es, k);
    }
    CountDraws(es, base, tries, i, n);
  }

  lemma DrawAt(ss: seq<State>, es: seq<(Pid, Action)>, n: nat)
    requires Run(ss, es) && 0 < n < |ss|
    ensures DrawOk(es[n - 1].1, ss[n - 1].base, ss[n - 1].tries, ss[n].base, ss[n].tries)
  {
    DrawStep(ss[n - 1], ss[n], es[n - 1].0, es[n - 1].1);
  }

  lemma WinIff(s: State, s': State, p: Pid, a: Action)
    requires Step(s, s', p, a) && Draws(a) && Rationed(s) && Few(s)
    ensures a.AWin? <==> s.tries < s.base
  {
  }

  /**
   Until the count goes round, the draws that win after a trigger has put its tickets out are the first
   ones, as many as there are tickets; after a trigger has completed none does.
   */
  lemma FirstDrawsWin(ss: seq<State>, es: seq<(Pid, Action)>, i: nat, n: nat)
    requires Run(ss, es) && i < n < |es| && Stores(es[i].1) && NoStore(es, i, n)
    requires Draws(es[n].1)
    ensures ss[i].rounds != [] || es[i].1.AComplete?
    ensures var tickets := if es[i].1.ARation? then Last(ss[i]).asked - Last(ss[i]).flipped else 0;
            Drawings(es, i, n) <= tickets + 0x8000_0000 ==> (es[n].1.AWin? <==> Drawings(es, i, n) < tickets)
  {
    DrawnSince(ss, es, i, n);
    RunInv(ss, es, n);
    RunInv(ss, es, i + 1);
    assert Step(ss[n], ss[n + 1], es[n].0, es[n].1);
    assert Step(ss[i], ss[i + 1], es[i].0, es[i].1);
    DrawStep(ss[i], ss[i + 1], es[i].0, es[i].1);
    if es[i].1.ARation? { ScanLeavesNoSpinner(ss, es, i); }
    if Few(ss[n]) { WinIff(ss[n], ss[n + 1], es[n].0, es[n].1); }
  }

  // ---------------------------------------------------------------------------------------
  // A trigger that waits is not stuck
  // ---------------------------------------------------------------------------------------

  /** A step on the way out of a wait. */
  predicate Helps(a: Action) {
    a.ANotice? || a.AClear? || a.AUncount? || a.AWin? || a.AFinish? || a.AReport?
  }

  ghost predicate CanHelp(s: State, p: Pid) {
    exists s', a :: Helps(a) && Step(s, s', p, a)
  }

  lemma HelpsOut(s: State, s': State, p: Pid, a: Action)
    requires Helps(a) && Step(s, s', p, a)
    ensures CanHelp(s, p)
  {
  }

  /** Whoever was let out can get on. */
  lemma ReleasedHelps(s: State, p: Pid)
    requires Slotted(s) && p in s.pc && PcOk(s, p, s.pc[p]) && p in s.released
    ensures CanHelp(s, p)
  {
    var c := s.pc[p];
    if c.Spinning? {
      HelpsOut(s, At(s, p, Leaving(c.idx)), p, ANotice);
    } else if c.Leaving? {
      HelpsOut(s, At(s, p, Left).(slots := s.slots[c.idx := 0], owner := s.owner - {c.idx}), p, AClear);
    } else if c.Left? {
      HelpsOut(s, At(s, p, Finishing).(spinCount := Less(s.spinCount), spinners := s.spinners - {p}), p, AUncount);
    } else if c.Finishing? {
      HelpsOut(s, At(s, p, Reporting).(numWaiting := Less(s.numWaiting), waiters := s.waiters - {p}), p, AFinish);
    } else {
      HelpsOut(s, At(s, p, Idle).(numTriggered := s.numTriggered + 1, released := s.released - {p},
                                  returned := s.returned + 1), p, AReport);
    }
  }

  /** With tickets out and nobody left that spins, so can every waiter. */
  lemma WaiterHelps(s: State, p: Pid)
    requires Slotted(s) && p in s.pc && PcOk(s, p, s.pc[p]) && p in s.waiters && s.allowable > 0 && Ones(s) == {}
    ensures CanHelp(s, p)
  {
    var c := s.pc[p];
    if c.Sleeping? {
      HelpsOut(s, At(Drawn(s), p, Finishing)
                  .(released := s.released + {p},
                    rounds := if s.ticketRound == 0 then s.rounds else Granted(s.rounds, s.ticketRound - 1)), p, AWin);
    } else if c.Falling? {
      HelpsOut(s, At(s, p, Sleeping).(spinCount := Less(s.spinCount), spinners := s.spinners - {p}), p, AUncount);
    } else {
      assert c.Spinning? ==> c.idx in s.owner && c.idx !in Ones(s);
      ReleasedHelps(s, p);
    }
  }

  lemma RoundGoesOn(s: State, c: Pc)
    requires TrigOk(s, c) && c.Waking? && Rationed(s) && Few(s) && Tickets(s) && s.numTriggered < c.k
    ensures s.released != {} || (s.allowable > 0 && Ones(s) == {})
  {
    if s.released == {} {
      var r := Last(s);
      assert r.flipped + r.granted + TicketsLeft(s) == r.asked;
    }
  }

  /**
   As long as nobody was let out too many and the count has not gone round, a trigger whose loop is not
   over is held up only by waits that can get on: somebody it let out, or somebody who can win a ticket.
   */
  lemma TriggerNotStuck(ss: seq<State>, es: seq<(Pid, Action)>, n: nat, p: Pid)
    requires Run(ss, es) && n < |ss| && p in ss[n].pc && ss[n].pc[p].Waking? && Few(ss[n])
    requires forall i :: 0 <= i < n ==> !Stray(ss[i], es[i].1)
    ensures (exists s' :: Exit(ss[n], s', p)) || exists q :: CanHelp(ss[n], q)
  {
    RunInv(ss, es, n);
    RunTrigInv(ss, es, n);
    RunFairInv(ss, es, n);
    FairIff(ss, es, n);
    var s, c := ss[n], ss[n].pc[p];
    if s.numTriggered >= c.k || s.numWaiting == 0 {
      assert Exit(s, At(s, p, Settling), p);
    } else {
      RoundGoesOn(s, c);
      if s.released != {} {
        var q :| q in s.released;
        assert PcOk(s, q, s.pc[q]);
        ReleasedHelps(s, q);
      } else {
        assert s.waiters != {};
        var q :| q in s.waiters;
        assert PcOk(s, q, s.pc[q]);
        WaiterHelps(s, q);
      }
    }
  }

  // ---------------------------------------------------------------------------------------
  // The ticket counter that goes round
  // ---------------------------------------------------------------------------------------

  /** One process alone that has drawn t times on a bcast nobody triggers. */
  function Alone(t: nat): State {
    State(Free, [], 0, 1, 0, -(t as int), 0, false, map[1 := Sleeping], map[], {1}, {}, {}, 0, [], 0, 0, t)
  }

  /** It can get as far as INT_MIN. */
  lemma {:induction false} DrawOn(t: nat) returns (ss: seq<State>, es: seq<(Pid, Action)>)
    requires t <= 0x8000_0000
    ensures Run(ss, es) && |ss| == t + 2 && ss[t + 1] == Alone(t)
    ensures forall i :: 0 <= i < |ss| ==> ss[i].rounds == []
  {
    if t == 0 {
      var s := Alone(0).(numWaiting := 0, pc := map[1 := Idle], waiters := {});
      assert {} + {1} == {1};
      assert EnterIdle(s, Alone(0), 1);
      ss, es := [s, Alone(0)], [(1, AEnterIdle)];
    } else {
      ss, es := DrawOn(t - 1);
      assert Lose(Alone(t - 1), Alone(t), 1);
      ss, es := ss + [Alone(t)], es + [(1, ALose)];
    }
  }

  /** Two draws more and the wait is over, although nobody has ever triggered. */
  lemma UntriggeredReturn() returns (ss: seq<State>, es: seq<(Pid, Action)>)
    ensures Run(ss, es)
    ensures forall i :: 0 <= i < |ss| ==> ss[i].rounds == []
    ensures ss[|ss| - 1].released == {1} && ss[|ss| - 1].pc == map[1 := Finishing] && !Fair(ss[|ss| - 1])
  {
    ss, es := DrawOn(0x8000_0000);
    var s := Alone(0x8000_0000);
    var s' := s.(allowable := INT_MAX, tries := s.tries + 1);
    var s'' := At(Drawn(s'), 1, Finishing).(released := s'.released + {1});
    assert Lose(s, s', 1) && Win(s', s'', 1);
    ss, es := ss + [s', s''], es + [(1, ALose), (1, AWin)];
  }

  // ---------------------------------------------------------------------------------------
  // The lock that is not released
  // ---------------------------------------------------------------------------------------

  /** The lock is lost, or its holder has already seen too few waiters and is about to lose it. */
  predicate Doomed(s: State) {
    || s.lock.Leaked?
    || (s.lock.Held? && s.lock.p in s.pc && s.pc[s.lock.p].Asked?
        && Insufficient(s.pc[s.lock.p].waiting, s.pc[s.lock.p].want))
  }

  /** A trigger that finds waiters, but not as many as it asks for. */
  predicate TooMany(s: State, a: Action) {
    a.ABegin? && s.numWaiting > 0 && Insufficient(s.numWaiting, a.k)
  }

  lemma DoomedStep(s: State, s': State, p: Pid, a: Action)
    requires p in s.pc && PcOk(s, p, s.pc[p]) && Step(s, s', p, a)
    ensures Doomed(s) ==> Doomed(s') && |s'.rounds| == |s.rounds| && s'.waiters <= s.waiters
    ensures !Doomed(s) ==> (Doomed(s') <==> TooMany(s, a))
  {
  }

  lemma DoomedAt(ss: seq<State>, es: seq<(Pid, Action)>, n: nat)
    requires Run(ss, es) && 0 < n < |ss|
    ensures Doomed(ss[n - 1]) ==> Doomed(ss[n]) && |ss[n].rounds| == |ss[n - 1].rounds|
                                  && ss[n].waiters <= ss[n - 1].waiters
    ensures !Doomed(ss[n - 1]) ==> (Doomed(ss[n]) <==> TooMany(ss[n - 1], es[n - 1].1))
  {
    RunInv(ss, es, n - 1);
    var s, s', p, a := ss[n - 1], ss[n], es[n - 1].0, es[n - 1].1;
    Mover(s, s', p, a);
    assert PcOk(s, p, s.pc[p]);
    DoomedStep(s, s', p, a);
  }

  /** After a trigger that asked for too many, no wait begins and no round starts ever again. */
  lemma {:induction false} DoomedForever(ss: seq<State>, es: seq<(Pid, Action)>, m: nat, n: nat)
    requires Run(ss, es) && m <= n < |ss| && Doomed(ss[m])
    ensures Doomed(ss[n]) && |ss[n].rounds| == |ss[m].rounds| && ss[n].waiters <= ss[m].waiters
    decreases n
  {
    if m < n {
      DoomedForever(ss, es, m, n - 1);
      DoomedAt(ss, es, n);
    }
  }

  /**
   A run has lost its lock by state n exactly when one of its triggers found waiters, but too few for
   what it asked.
   */
  lemma DoomedIff(ss: seq<State>, es: seq<(Pid, Action)>, n: nat)
    requires Run(ss, es) && n < |ss|
    ensures Doomed(ss[n]) <==> exists i :: 0 <= i < n && TooMany(ss[i], es[i].1)
  {
    var sound := seq(|ss|, i requires 0 <= i < |ss| => !Doomed(ss[i]));
    var broke := seq(|es|, i requires 0 <= i < |es| => TooMany(ss[i], es[i].1));
    forall i | 0 < i < |ss| && sound[i - 1] ensures sound[i] <==> !broke[i - 1] { DoomedAt(ss, es, i); }
    NoMissBefore(sound, broke, n);
    forall i | 0 <= i <= n && Doomed(ss[i]) ensures Doomed(ss[n]) { DoomedForever(ss, es, i, n); }
    assert forall i :: 0 <= i <= n ==> sound[i] == !Doomed(ss[i]);
    assert forall i :: 0 <= i < n ==> broke[i] == TooMany(ss[i], es[i].1);
  }

  /** Triggers that wake one or wake all never do that. */
  lemma LockNeverLeaks(ss: seq<State>, es: seq<(Pid, Action)>, n: nat)
    requires Run(ss, es) && n < |ss|
    requires forall i :: 0 <= i < n && es[i].1.ABegin? ==> es[i].1.k == 1 || es[i].1.k == INT_MAX
    ensures !Doomed(ss[n])
  {
    DoomedIff(ss, es, n);
    forall i | 0 <= i < n ensures !TooMany(ss[i], es[i].1) { OneOrAllSuffices(ss[i], es[i].1); }
  }

  lemma OneOrAllSuffices(s: State, a: Action)
    requires a.ABegin? ==> a.k == 1 || a.k == INT_MAX
    ensures !TooMany(s, a)
  {
  }

  /** It happens: one waiter, and a trigger for two. */
  lemma LockLeaks() returns (ss: seq<State>, es: seq<(Pid, Action)>)
    ensures Run(ss, es) && |ss| == 4 && ss[3].lock.Leaked? && ss[3].waiters == {1}
  {
    var s1 := Alone(0).(pc := map[1 := Sleeping, 2 := Idle]);
    var s0 := s1.(numWaiting := 0, pc := map[1 := Idle, 2 := Idle], waiters := {});
    var s2 := At(s1, 2, Asked(2, 1)).(lock := Held(2));
    var s3 := At(s2, 2, Idle).(lock := Leaked, numTriggered := 0);
    assert {} + {1} == {1};
    assert EnterIdle(s0, s1, 1) && Begin(s1, s2, 2, 2) && Zero(s2, s3, 2);
    ss, es := [s0, s1, s2, s3], [(1, AEnterIdle), (2, ABegin(2)), (2, AZero)];
  }
}
