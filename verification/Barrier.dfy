/**
 A barrier channel and the client that drives it.

 The poll operations on a barrier channel hold both channel locks from start to end, so each
 is one step. A counted waiter then receives a message like any other receiver: it pops one
 under the OT lock and gives the block back later, under the UT lock, in a step of its own.
 The client is Barrier::wait: it waits, the last one in releases the round, everyone receives.
 A waiter may also fail after it was counted; it then aborts and leaves without receiving. A receive
 that fails after its pop loses the block it holds.
 */
module Barrier {
  import opened Counting

  type Pid = nat

  /** The value handed to the waiters of a round that was aborted, reset or cut short. */
  const BROKEN: nat := 0xFFFF_FFFF_FFFF_FFFF

  /** The round is history: the release that put the message in the channel. */
  datatype Msg = Msg(block: nat, value: nat, round: nat)

  /** The round is history: the one the process was counted in. */
  datatype Pc = Out | Counted(round: nat) | Ready(round: nat) | Holding(msg: Msg)

  /** History of a released round: who was counted, was it broken, what was put in the channel, who took what. */
  datatype Round = Round(members: set<Pid>, broken: bool, values: seq<nat>, log: seq<(Pid, nat)>)

  datatype State = State(
    cap: nat,
    ut: seq<nat>,
    ot: seq<Msg>,
    count: nat,
    broken: bool,
    resetInProgress: bool,
    pc: map<Pid, Pc>,
    // history
    gathered: set<Pid>,      // counted in the round that is filling up
    pending: set<Pid>,       // counted in the last released round, value not yet taken
    holders: set<Pid>,       // have taken a value and not yet given the block back
    abandoned: nat,          // counted waiters that left without their value
    lost: nat,               // blocks lost by receives that failed after their pop
    rounds: seq<Round>)

  // ---------------------------------------------------------------------------------------
  // Steps
  // ---------------------------------------------------------------------------------------

  /** The k-th message of a release: the waiter's index, or BROKEN for everyone. */
  function ValueOf(s: State, k: nat): nat {
    if s.broken || s.count < s.cap then BROKEN else k
  }

  function Values(s: State): seq<nat> {
    seq(s.count, k requires 0 <= k < s.count => ValueOf(s, k))
  }

  /** The first n messages of a release. */
  function Messages(s: State, n: nat): seq<Msg>
    requires n <= |s.ut|
  {
    seq(n, k requires 0 <= k < n => Msg(s.ut[k], ValueOf(s, k), |s.rounds|))
  }

  /**
   _release_barrier_waiters: one message per counted waiter, each in a free block, and the round is
   over. Were there too few free blocks, it would stop half way with an error and keep the count.
   */
  function Released(s: State): State {
    if s.count == 0 then s
    else if s.count > |s.ut| then s.(ut := [], ot := s.ot + Messages(s, |s.ut|))
    else s.(ut := s.ut[s.count..],
            ot := s.ot + Messages(s, s.count),
            count := 0,
            gathered := {},
            pending := s.pending + s.gathered,
            rounds := s.rounds + [Round(s.gathered, s.broken, Values(s), [])])
  }

  function Broken(s: State): State {
    Released(s.(broken := true))
  }

  function Aborted(s: State): State {
    if s.broken then s else Broken(s)
  }

  /** POLLRESET: the flag stays up if the release fails. */
  function Cleared(s: State): State {
    var t := Released(s.(resetInProgress := true));
    if s.count > |s.ut| then t else t.(broken := false, count := 0, resetInProgress := false)
  }

  /** POLLBARRIER_WAIT gets past its waiting loop: every block is home and the round is not full. */
  predicate Wait(s: State, s': State, p: Pid) {
    && p in s.pc && s.pc[p].Out?
    && !s.resetInProgress && |s.ut| == s.cap && s.count != s.cap && !s.broken
    && s' == s.(count := s.count + 1, gathered := s.gathered + {p},
                pc := s.pc[p := if s.count + 1 == s.cap then Ready(|s.rounds|) else Counted(|s.rounds|)])
  }

  /** POLLBARRIER_RELEASE by the waiter that was told it completes the round. */
  predicate Release(s: State, s': State, p: Pid) {
    && p in s.pc && s.pc[p].Ready?
    && var t := if s.broken then s else Released(s);
    && s' == t.(pc := t.pc[p := Counted(s.pc[p].round)])
  }

  /** POLLBARRIER_ABORT by anyone. */
  predicate Abort(s: State, s': State, p: Pid) {
    p in s.pc && s' == Aborted(s)
  }

  /** POLLBARRIER_WAIT times out before it is counted; it breaks the barrier without looking at the flag. */
  predicate TimedOut(s: State, s': State, p: Pid) {
    p in s.pc && s.pc[p].Out? && s' == Broken(s)
  }

  /** POLLRESET by anyone. */
  predicate Reset(s: State, s': State, p: Pid) {
    p in s.pc && !s.resetInProgress && s' == Cleared(s)
  }

  /** A counted waiter fails: it aborts and throws, and its value stays in the channel. */
  predicate Leave(s: State, s': State, p: Pid) {
    && p in s.pc && (s.pc[p].Counted? || s.pc[p].Ready?)
    && var t := Aborted(s);
    && s' == t.(pc := t.pc[p := Out], pending := t.pending - {p}, abandoned := t.abandoned + 1)
  }

  function Logged(rounds: seq<Round>, p: Pid, v: nat): seq<Round>
    requires rounds != []
  {
    var last := rounds[|rounds| - 1];
    rounds[|rounds| - 1 := last.(log := last.log + [(p, v)])]
  }

  predicate Receive(s: State, s': State, p: Pid) {
    && p in s.pc && s.pc[p].Counted? && s.ot != [] && s.rounds != []
    && s' == s.(ot := s.ot[1..], pc := s.pc[p := Holding(s.ot[0])], pending := s.pending - {p},
                holders := s.holders + {p}, rounds := Logged(s.rounds, p, s.ot[0].value))
  }

  predicate GiveBack(s: State, s': State, p: Pid) {
    && p in s.pc && s.pc[p].Holding?
    && s' == s.(ut := s.ut + [s.pc[p].msg.block], pc := s.pc[p := Out], holders := s.holders - {p})
  }

  /** A receive fails after its pop: the waiter throws, and the block is in no table any more. */
  predicate Lose(s: State, s': State, p: Pid) {
    && p in s.pc && s.pc[p].Holding?
    && s' == s.(pc := s.pc[p := Out], holders := s.holders - {p}, lost := s.lost + 1)
  }

  predicate Step(s: State, s': State, p: Pid) {
    || Wait(s, s', p) || Release(s, s', p) || Abort(s, s', p) || TimedOut(s, s', p) || Reset(s, s', p)
    || Leave(s, s', p) || Receive(s, s', p) || GiveBack(s, s', p) || Lose(s, s', p)
  }

  ghost predicate Init(s: State) {
    && 0 < s.cap < BROKEN && |s.ut| == s.cap && s.ot == [] && s.count == 0 && !s.broken && !s.resetInProgress
    && (forall p :: p in s.pc ==> s.pc[p].Out?)
    && s.gathered == s.pending == s.holders == {} && s.abandoned == s.lost == 0 && s.rounds == []
  }

  /** Steps one after the other, from anywhere. */
  ghost predicate Path(ss: seq<State>, ps: seq<Pid>) {
    && |ss| == |ps| + 1
    && forall i :: 0 <= i < |ps| ==> Step(ss[i], ss[i + 1], ps[i])
  }

  ghost predicate Run(ss: seq<State>, ps: seq<Pid>) {
    Path(ss, ps) && Init(ss[0])
  }

  // ---------------------------------------------------------------------------------------
  // Invariants
  // ---------------------------------------------------------------------------------------

  /** Counting: blocks are conserved, and while a round fills up every block is home. */
  ghost predicate Balanced(s: State) {
    && 0 < s.cap < BROKEN
    && |s.ut| + |s.ot| + |s.holders| + s.lost == s.cap
    && s.count == |s.gathered| <= s.cap
    && (s.count > 0 ==> |s.ut| == s.cap)
    && |s.ot| == |s.pending| + s.abandoned
    && (s.broken ==> s.count == 0)
    && !s.resetInProgress
  }

  /** Blocks that will never come home: those whose message nobody will receive, and the lost ones. */
  function Gone(s: State): nat {
    s.abandoned + s.lost
  }

  ghost predicate PcOk(s: State, p: Pid, c: Pc) {
    && (c.Counted? || c.Ready? <==> p in s.gathered || p in s.pending)
    && !(p in s.gathered && p in s.pending)
    && (c.Holding? <==> p in s.holders)
    && (p in s.gathered ==> c.round == |s.rounds|)
    && (p in s.pending ==> c.round == |s.rounds| - 1)
  }

  ghost predicate Placed(s: State) {
    && s.gathered + s.pending + s.holders <= s.pc.Keys
    && forall p :: p in s.pc ==> PcOk(s, p, s.pc[p])
  }

  /** A full, unbroken round hands out 0..cap-1; any other hands BROKEN to everyone. */
  ghost predicate FairValues(cap: nat, r: Round) {
    && |r.values| == |r.members| <= cap
    && forall k :: 0 <= k < |r.values| ==> r.values[k] == if r.broken || |r.members| < cap then BROKEN else k
  }

  /** The values went out in order, one to a member each. */
  ghost predicate FairLog(r: Round) {
    && |r.log| <= |r.values|
    && (forall k :: 0 <= k < |r.log| ==> r.log[k].1 == r.values[k] && r.log[k].0 in r.members)
    && (forall j, k :: 0 <= j < k < |r.log| ==> r.log[j].0 != r.log[k].0)
  }

  /** Only the last round can be incomplete; the channel holds the rest of its values, for its own members. */
  ghost predicate Orderly(s: State) {
    && (forall i :: 0 <= i < |s.rounds| ==> FairValues(s.cap, s.rounds[i]) && FairLog(s.rounds[i]))
    && (forall i :: 0 <= i < |s.rounds| - 1 ==> |s.rounds[i].log| == |s.rounds[i].values|)
    && (s.rounds == [] ==> s.ot == [])
    && (s.rounds != [] ==>
          var last := s.rounds[|s.rounds| - 1];
          && |s.ot| == |last.values| - |last.log|
          && (forall k :: 0 <= k < |s.ot| ==>
                s.ot[k].value == last.values[|last.log| + k] && s.ot[k].round == |s.rounds| - 1)
          && s.pending <= last.members
          && forall k :: 0 <= k < |last.log| ==> last.log[k].0 !in s.pending)
  }

  ghost predicate Inv(s: State) {
    Balanced(s) && Placed(s) && Orderly(s)
  }

  /** The sets of waiters in the two rounds never overlap in time: while one fills up, the other is fully served. */
  lemma OneRoundAtATime(s: State)
    requires Balanced(s)
    ensures s.gathered == {} || (s.pending == {} && s.ot == [] && s.holders == {} && Gone(s) == 0)
    ensures s.count <= |s.ut|
  {
  }

  // ---------------------------------------------------------------------------------------
  // Every step keeps the invariants
  // ---------------------------------------------------------------------------------------

  /** What a release does when there are blocks enough. */
  lemma ReleasedBalanced(s: State, b: bool)
    requires Balanced(s)
    ensures Balanced(Released(s.(broken := b))) && Released(s.(broken := b)).count == 0
  {
    assert s.count > 0 ==> s.pending + s.gathered == s.gathered;
  }

  lemma ReleasedPlaced(s: State, b: bool)
    requires Balanced(s) && Placed(s)
    ensures Placed(Released(s.(broken := b)))
  {
    var t := Released(s.(broken := b));
    forall p | p in t.pc ensures PcOk(t, p, t.pc[p]) {
      assert PcOk(s, p, s.pc[p]);
    }
  }

  lemma ReleasedOrderly(s: State, b: bool)
    requires Balanced(s) && Orderly(s)
    ensures Orderly(Released(s.(broken := b)))
  {
    var u := s.(broken := b);
    var t := Released(u);
    if s.count > 0 {
      assert s.pending + s.gathered == s.gathered;
      var begun := Round(s.gathered, b, Values(u), []);
      assert FairValues(s.cap, begun) && FairLog(begun);
      forall i | 0 <= i < |t.rounds| - 1
        ensures FairValues(t.cap, t.rounds[i]) && FairLog(t.rounds[i]) && |t.rounds[i].log| == |t.rounds[i].values|
      {
        assert t.rounds[i] == s.rounds[i] && FairValues(s.cap, s.rounds[i]) && FairLog(s.rounds[i]);
      }
    }
  }

  lemma ReleasedInv(s: State, b: bool)
    requires Inv(s)
    ensures Inv(Released(s.(broken := b))) && Released(s.(broken := b)).count == 0
  {
    ReleasedBalanced(s, b);
    ReleasedPlaced(s, b);
    ReleasedOrderly(s, b);
  }

  lemma AbortedInv(s: State)
    requires Inv(s)
    ensures Inv(Aborted(s)) && Aborted(s).count == 0
  {
    ReleasedInv(s, true);
  }

  lemma WaitInv(s: State, s': State, p: Pid)
    requires Inv(s) && Wait(s, s', p)
    ensures Inv(s')
  {
    assert PcOk(s, p, s.pc[p]);
    forall q | q in s'.pc ensures PcOk(s', q, s'.pc[q]) { assert PcOk(s, q, s.pc[q]); }
  }

  /** A counted process may go from Ready to Counted without anyone noticing. */
  lemma PcChangeInv(s: State, p: Pid, c: Pc)
    requires Inv(s) && p in s.pc && s.pc[p].Ready? && c == Counted(s.pc[p].round)
    ensures Inv(s.(pc := s.pc[p := c]))
  {
    PcChangePlaced(s, p, c);
    var s' := s.(pc := s.pc[p := c]);
    assert Balanced(s');
    assert Orderly(s');
  }

  lemma PcChangePlaced(s: State, p: Pid, c: Pc)
    requires Placed(s) && p in s.pc && s.pc[p].Ready? && c == Counted(s.pc[p].round)
    ensures Placed(s.(pc := s.pc[p := c]))
  {
    var s' := s.(pc := s.pc[p := c]);
    forall q | q in s'.pc ensures PcOk(s', q, s'.pc[q]) { assert PcOk(s, q, s.pc[q]); }
  }

  lemma ReleaseInv(s: State, s': State, p: Pid)
    requires Inv(s) && Release(s, s', p)
    ensures Inv(s')
  {
    if s.broken {
      PcChangeInv(s, p, Counted(s.pc[p].round));
    } else {
      ReleasedInv(s, false);
      assert s.(broken := false) == s;
      PcChangeInv(Released(s), p, Counted(s.pc[p].round));
    }
  }

  /** The reset flag is down again, and it did not matter while it was up. */
  lemma ClearedIsReleased(s: State)
    requires Balanced(s)
    ensures Cleared(s) == Released(s).(broken := false)
  {
    var u := s.(resetInProgress := true);
    assert Values(u) == Values(s) && (s.count <= |s.ut| ==> Messages(u, s.count) == Messages(s, s.count));
  }

  lemma ResetInv(s: State, s': State, p: Pid)
    requires Inv(s) && Reset(s, s', p)
    ensures Inv(s')
  {
    ReleasedInv(s, s.broken);
    assert s.(broken := s.broken) == s;
    ClearedIsReleased(s);
    var t := Released(s);
    forall q | q in s'.pc ensures PcOk(s', q, s'.pc[q]) { assert PcOk(t, q, t.pc[q]); }
  }

  /** A waiter whose round is released leaves it. */
  lemma DropInv(t: State, s': State, p: Pid)
    requires Inv(t) && t.count == 0 && p in t.pc && (t.pc[p].Counted? || t.pc[p].Ready?)
    requires s' == t.(pc := t.pc[p := Out], pending := t.pending - {p}, abandoned := t.abandoned + 1)
    ensures Inv(s')
  {
    assert PcOk(t, p, t.pc[p]);
    assert p in t.pending;
    forall q | q in s'.pc ensures PcOk(s', q, s'.pc[q]) { assert PcOk(t, q, t.pc[q]); }
  }

  lemma LeaveInv(s: State, s': State, p: Pid)
    requires Inv(s) && Leave(s, s', p)
    ensures Inv(s')
  {
    AbortedInv(s);
    DropInv(Aborted(s), s', p);
  }

  /** Whoever receives was counted in the last released round. */
  lemma ReceiverIsPending(s: State, p: Pid)
    requires Balanced(s) && Placed(s) && p in s.pc && s.pc[p].Counted? && s.ot != []
    ensures p in s.pending && p !in s.holders
  {
    assert PcOk(s, p, s.pc[p]);
  }

  lemma ReceiveBalanced(s: State, s': State, p: Pid)
    requires Balanced(s) && Placed(s) && Receive(s, s', p)
    ensures Balanced(s')
  {
    ReceiverIsPending(s, p);
  }

  lemma ReceivePlaced(s: State, s': State, p: Pid)
    requires Balanced(s) && Placed(s) && Receive(s, s', p)
    ensures Placed(s')
  {
    ReceiverIsPending(s, p);
    forall q | q in s'.pc ensures PcOk(s', q, s'.pc[q]) { assert PcOk(s, q, s.pc[q]); }
  }

  lemma LogFair(r: Round, p: Pid)
    requires FairLog(r) && |r.log| < |r.values| && p in r.members
    requires forall k :: 0 <= k < |r.log| ==> r.log[k].0 != p
    ensures FairLog(r.(log := r.log + [(p, r.values[|r.log|])]))
  {
  }

  lemma ReceiveOrderly(s: State, s': State, p: Pid)
    requires Orderly(s) && Receive(s, s', p) && p in s.pending
    ensures Orderly(s')
  {
    var n := |s.rounds| - 1;
    var last := s.rounds[n];
    assert FairValues(s.cap, last) && FairLog(last);
    LogFair(last, p);
    var last' := last.(log := last.log + [(p, last.values[|last.log|])]);
    assert s.ot[0].value == last.values[|last.log|];
    assert s'.rounds == s.rounds[n := last'];
    assert FairValues(s.cap, last');
    forall i | 0 <= i < |s'.rounds| ensures FairValues(s'.cap, s'.rounds[i]) && FairLog(s'.rounds[i]) {
      if i < n { assert s'.rounds[i] == s.rounds[i]; }
    }
  }

  lemma ReceiveInv(s: State, s': State, p: Pid)
    requires Inv(s) && Receive(s, s', p)
    ensures Inv(s')
  {
    ReceiverIsPending(s, p);
    ReceiveBalanced(s, s', p);
    ReceivePlaced(s, s', p);
    ReceiveOrderly(s, s', p);
  }

  lemma GiveBackPlaced(s: State, s': State, p: Pid)
    requires Placed(s) && (GiveBack(s, s', p) || Lose(s, s', p))
    ensures Placed(s') && p in s.holders
  {
    assert PcOk(s, p, s.pc[p]);
    forall q | q in s'.pc ensures PcOk(s', q, s'.pc[q]) { assert PcOk(s, q, s.pc[q]); }
  }

  /** Whether the block goes home or is lost. */
  lemma GiveBackInv(s: State, s': State, p: Pid)
    requires Inv(s) && (GiveBack(s, s', p) || Lose(s, s', p))
    ensures Inv(s')
  {
    GiveBackPlaced(s, s', p);
    GiveBackBalanced(s, s', p);
    GiveBackOrderly(s, s', p);
  }

  lemma GiveBackBalanced(s: State, s': State, p: Pid)
    requires Balanced(s) && p in s.pc && PcOk(s, p, s.pc[p]) && (GiveBack(s, s', p) || Lose(s, s', p))
    ensures Balanced(s')
  {
    assert |s'.holders| == |s.holders| - 1;
  }

  lemma GiveBackOrderly(s: State, s': State, p: Pid)
    requires Orderly(s) && (GiveBack(s, s', p) || Lose(s, s', p))
    ensures Orderly(s')
  {
  }

  lemma StepInv(s: State, s': State, p: Pid)
    requires Inv(s) && Step(s, s', p)
    ensures Inv(s')
  {
    if Wait(s, s', p) { WaitInv(s, s', p); }
    else if Release(s, s', p) { ReleaseInv(s, s', p); }
    else if Abort(s, s', p) { AbortedInv(s); }
    else if TimedOut(s, s', p) { ReleasedInv(s, true); }
    else if Reset(s, s', p) { ResetInv(s, s', p); }
    else if Leave(s, s', p) { LeaveInv(s, s', p); }
    else if Receive(s, s', p) { ReceiveInv(s, s', p); }
    else { GiveBackInv(s, s', p); }
  }

  lemma RunInv(ss: seq<State>, ps: seq<Pid>, n: nat)
    requires Run(ss, ps) && n < |ss|
    ensures Inv(ss[n])
  {
    InitInv(ss[0]);
    PathInv(ss, ps, n);
  }

  lemma InitInv(s: State)
    requires Init(s)
    ensures Inv(s)
  {
  }

  lemma {:induction false} PathInv(ss: seq<State>, ps: seq<Pid>, n: nat)
    requires Path(ss, ps) && Inv(ss[0]) && n < |ss|
    ensures Inv(ss[n])
    decreases n
  {
    if n > 0 {
      PathInv(ss, ps, n - 1);
      PathStepInv(ss, ps, n);
    }
  }

  lemma PathStep(ss: seq<State>, ps: seq<Pid>, n: nat)
    requires Path(ss, ps) && 0 < n < |ss|
    ensures Step(ss[n - 1], ss[n], ps[n - 1])
  {
    var i := n - 1;
    assert Step(ss[i], ss[i + 1], ps[i]);
  }

  lemma PathStepInv(ss: seq<State>, ps: seq<Pid>, n: nat)
    requires Path(ss, ps) && 0 < n < |ss| && Inv(ss[n - 1])
    ensures Inv(ss[n])
  {
    PathStep(ss, ps, n);
    StepInv(ss[n - 1], ss[n], ps[n - 1]);
  }

  // ---------------------------------------------------------------------------------------
  // What holds of every run
  // ---------------------------------------------------------------------------------------

  /** A release finds a free block for every counted waiter, and nobody ever sees a reset in progress. */
  lemma ReleaseNeverStarves(ss: seq<State>, ps: seq<Pid>, n: nat)
    requires Run(ss, ps) && n < |ss|
    ensures ss[n].count <= ss[n].cap && ss[n].count <= |ss[n].ut|
    ensures ss[n].count > 0 ==> |ss[n].ut| == ss[n].cap && ss[n].ot == [] && ss[n].pending == ss[n].holders == {}
    ensures !ss[n].resetInProgress
  {
    RunInv(ss, ps, n);
    OneRoundAtATime(ss[n]);
  }

  /** A waiter takes a message of the round it was counted in, and no other member took that one. */
  lemma RoundsDoNotMix(ss: seq<State>, ps: seq<Pid>, n: nat)
    requires Run(ss, ps) && n < |ps| && Receive(ss[n], ss[n + 1], ps[n])
    ensures var s := ss[n];
            var i := s.ot[0].round;
            && s.pc[ps[n]].round == i < |s.rounds|
            && ps[n] in s.rounds[i].members
            && (forall k :: 0 <= k < |s.rounds[i].log| ==> s.rounds[i].log[k].0 != ps[n])
            && |s.rounds[i].log| < |s.rounds[i].values|
            && s.ot[0].value == s.rounds[i].values[|s.rounds[i].log|]
  {
    RunInv(ss, ps, n);
    ReceiverIsPending(ss[n], ps[n]);
    assert PcOk(ss[n], ps[n], ss[n].pc[ps[n]]);
  }

  /**
   A round that has been served gave every member exactly one value: the indices 0..cap-1, each
   to one of them, if the round was full and not broken, and BROKEN to all of them otherwise.
   Every round but the last has been served.
   */
  lemma ServedRound(ss: seq<State>, ps: seq<Pid>, n: nat, i: nat)
    requires Run(ss, ps) && n < |ss| && i < |ss[n].rounds|
    ensures var r := ss[n].rounds[i];
            && (i < |ss[n].rounds| - 1 ==> |r.log| == |r.values|)
            && (|r.log| == |r.values| ==> (set k | 0 <= k < |r.log| :: r.log[k].0) == r.members)
            && (!r.broken && |r.members| == ss[n].cap ==> forall k :: 0 <= k < |r.log| ==> r.log[k].1 == k)
            && (r.broken || |r.members| != ss[n].cap ==> forall k :: 0 <= k < |r.log| ==> r.log[k].1 == BROKEN)
            && |r.members| <= ss[n].cap
  {
    RunInv(ss, ps, n);
    var r := ss[n].rounds[i];
    assert FairValues(ss[n].cap, r) && FairLog(r);
    var who := seq(|r.log|, k requires 0 <= k < |r.log| => r.log[k].0);
    DistinctCard(who);
    var served := set k | 0 <= k < |r.log| :: r.log[k].0;
    assert Elements(who) == served by {
      assert forall k :: 0 <= k < |r.log| ==> who[k] == r.log[k].0;
    }
    assert served <= r.members;
    if |r.log| == |r.values| {
      assert |r.members - served| == 0;
    }
  }

  /** The step from s to s' closes the round that was filling up, if any, with indices or with BROKEN. */
  ghost predicate Closes(s: State, s': State, index: bool) {
    && s'.count == 0
    && (s.count == 0 ==> s'.rounds == s.rounds && s'.ot == s.ot)
    && (s.count > 0 ==>
          && |s'.rounds| == |s.rounds| + 1 && s'.rounds[..|s.rounds|] == s.rounds
          && s'.rounds[|s.rounds|].members == s.gathered && |s'.rounds[|s.rounds|].values| == s.count
          && forall k :: 0 <= k < s.count ==> s'.rounds[|s.rounds|].values[k] == if index then k else BROKEN)
  }

  /** An abort, a wait that times out and a counted waiter that fails break the barrier and its round. */
  lemma AbortBreaks(s: State, s': State, p: Pid)
    requires Balanced(s) && (Abort(s, s', p) || TimedOut(s, s', p) || Leave(s, s', p))
    ensures s'.broken && Closes(s, s', false)
  {
  }

  /** A release hands out the indices; a reset does so to a full round, and BROKEN to any other. */
  lemma ReleaseServes(s: State, s': State, p: Pid)
    requires Balanced(s) && (Release(s, s', p) || Reset(s, s', p))
    ensures Closes(s, s', s.count == s.cap)
    ensures Reset(s, s', p) ==> !s'.broken
    ensures Release(s, s', p) ==> s'.broken == s.broken
  {
  }

  /** The steps of a single waiter close nothing and break nothing. */
  lemma WaiterKeeps(s: State, s': State, p: Pid)
    requires Wait(s, s', p) || Receive(s, s', p) || GiveBack(s, s', p) || Lose(s, s', p)
    ensures |s'.rounds| == |s.rounds| && s'.broken == s.broken
    ensures forall i :: 0 <= i < |s.rounds| ==>
              s'.rounds[i].members == s.rounds[i].members && s'.rounds[i].values == s.rounds[i].values
  {
  }

  lemma BrokenStep(s: State, s': State, p: Pid)
    requires Balanced(s) && s.broken && Step(s, s', p) && !Reset(s, s', p)
    ensures s'.broken && |s'.rounds| == |s.rounds| && !Wait(s, s', p)
  {
    if Abort(s, s', p) || TimedOut(s, s', p) || Leave(s, s', p) {
      AbortBreaks(s, s', p);
    } else if Release(s, s', p) {
      ReleaseServes(s, s', p);
    } else {
      WaiterKeeps(s, s', p);
    }
  }

  /** A broken barrier stays broken until it is reset: nobody is counted and no round is released. */
  lemma {:induction false} BrokenUntilReset(ss: seq<State>, ps: seq<Pid>, m: nat, n: nat)
    requires Run(ss, ps) && m <= n < |ss| && ss[m].broken
    requires forall i :: m <= i < n ==> !Reset(ss[i], ss[i + 1], ps[i])
    ensures ss[n].broken && |ss[n].rounds| == |ss[m].rounds| && forall s', p :: !Wait(ss[n], s', p)
    decreases n
  {
    if m < n {
      BrokenUntilReset(ss, ps, m, n - 1);
      PathStep(ss, ps, n);
      RunInv(ss, ps, n - 1);
      var i := n - 1;
      assert !Reset(ss[i], ss[i + 1], ps[i]);
      BrokenStep(ss[n - 1], ss[n], ps[n - 1]);
    }
  }

  /**
   A round is closed with the indices exactly when it is full and is released or reset before
   anybody breaks the barrier; any other is closed with BROKEN for everyone.
   */
  lemma ClosedWith(ss: seq<State>, ps: seq<Pid>, n: nat)
    requires Run(ss, ps) && n < |ps| && |ss[n + 1].rounds| > |ss[n].rounds|
    ensures Closes(ss[n], ss[n + 1], ss[n].count == ss[n].cap && !ss[n + 1].broken) && ss[n].count > 0
    ensures ss[n + 1].broken <==>
            Abort(ss[n], ss[n + 1], ps[n]) || TimedOut(ss[n], ss[n + 1], ps[n]) || Leave(ss[n], ss[n + 1], ps[n])
  {
    var s, s', p := ss[n], ss[n + 1], ps[n];
    RunInv(ss, ps, n);
    PathStep(ss, ps, n + 1);
    if Abort(s, s', p) || TimedOut(s, s', p) || Leave(s, s', p) {
      AbortBreaks(s, s', p);
    } else if Release(s, s', p) || Reset(s, s', p) {
      ReleaseServes(s, s', p);
    } else {
      WaiterKeeps(s, s', p);
    }
  }

  /** An outside process is counted exactly when the barrier is whole, every block is home and the round has room. */
  lemma WaitIff(s: State, p: Pid)
    requires Balanced(s) && p in s.pc && s.pc[p].Out?
    ensures (exists s' :: Wait(s, s', p))
            <==> !s.broken && s.ot == [] && s.holders == {} && s.lost == 0 && s.count < s.cap
    ensures forall s' :: Wait(s, s', p) ==>
              && s'.count == s.count + 1 && p in s'.gathered && p in s'.pc && s'.ut == s.ut && s'.ot == s.ot
              && (s'.pc[p].Ready? <==> s'.count == s.cap) && (s'.pc[p].Counted? <==> s'.count < s.cap)
  {
    if !s.broken && s.ot == [] && s.holders == {} && s.lost == 0 && s.count < s.cap {
      var s' := s.(count := s.count + 1, gathered := s.gathered + {p},
                   pc := s.pc[p := if s.count + 1 == s.cap then Ready(|s.rounds|) else Counted(|s.rounds|)]);
      assert Wait(s, s', p);
    }
  }

  /** Anybody can abort and reset at any time, a caller that waits can time out and a counted one can fail. */
  lemma BreakersAreFree(s: State, p: Pid)
    requires Balanced(s) && p in s.pc
    ensures (exists s' :: Abort(s, s', p)) && exists s' :: Reset(s, s', p)
    ensures s.pc[p].Out? ==> exists s' :: TimedOut(s, s', p)
    ensures s.pc[p].Counted? || s.pc[p].Ready? ==> exists s' :: Leave(s, s', p)
  {
    assert Abort(s, Aborted(s), p) && Reset(s, Cleared(s), p);
    if s.pc[p].Out? { assert TimedOut(s, Broken(s), p); }
    if s.pc[p].Counted? || s.pc[p].Ready? {
      var t := Aborted(s);
      assert Leave(s, t.(pc := t.pc[p := Out], pending := t.pending - {p}, abandoned := t.abandoned + 1), p);
    }
  }

  lemma AbandonedGrows(s: State, s': State, p: Pid)
    requires Step(s, s', p)
    ensures Gone(s) <= Gone(s')
  {
  }

  lemma {:induction false} AbandonedStays(ss: seq<State>, ps: seq<Pid>, m: nat, n: nat)
    requires Path(ss, ps) && m <= n < |ss|
    ensures Gone(ss[m]) <= Gone(ss[n])
    decreases n
  {
    if m < n {
      AbandonedStays(ss, ps, m, n - 1);
      AbandonedStep(ss, ps, n);
    }
  }

  lemma AbandonedStep(ss: seq<State>, ps: seq<Pid>, n: nat)
    requires Path(ss, ps) && 0 < n < |ss|
    ensures Gone(ss[n - 1]) <= Gone(ss[n])
  {
    PathStep(ss, ps, n);
    AbandonedGrows(ss[n - 1], ss[n], ps[n - 1]);
  }

  lemma NoneCounted(s: State, s': State, p: Pid)
    requires Balanced(s) && Gone(s) > 0
    ensures !Wait(s, s', p)
  {
  }

  /** Once a counted waiter has left or a block was lost, nobody is ever counted again, reset or not. */
  lemma AbandonedIsStuck(ss: seq<State>, ps: seq<Pid>, m: nat, n: nat)
    requires Run(ss, ps) && m <= n < |ps| && Gone(ss[m]) > 0
    ensures Gone(ss[n]) > 0 && !Wait(ss[n], ss[n + 1], ps[n])
  {
    AbandonedStays(ss, ps, m, n);
    RunInv(ss, ps, n);
    NoneCounted(ss[n], ss[n + 1], ps[n]);
  }

  /** While a full round waits, the process that was told to release it is still there. */
  ghost predicate Kept(s: State) {
    s.count == s.cap ==> exists p :: p in s.gathered && p in s.pc && s.pc[p].Ready?
  }

  /** Only POLLBARRIER_WAIT leaves a round filling up. */
  lemma OnlyWaitCounts(s: State, s': State, p: Pid)
    requires Balanced(s) && Placed(s) && Step(s, s', p) && !Wait(s, s', p)
    ensures s'.count == 0
  {
    assert PcOk(s, p, s.pc[p]);
    ReleasedBalanced(s, true);
    ReleasedBalanced(s, s.broken);
    assert s.(broken := s.broken) == s;
    ClearedIsReleased(s);
  }

  lemma KeptStep(s: State, s': State, p: Pid)
    requires Balanced(s) && Placed(s) && s'.cap > 0 && Step(s, s', p)
    ensures Kept(s')
  {
    if Wait(s, s', p) {
      assert p in s'.gathered && p in s'.pc;
    } else {
      OnlyWaitCounts(s, s', p);
    }
  }

  lemma {:induction false} RunKept(ss: seq<State>, ps: seq<Pid>, n: nat)
    requires Run(ss, ps) && n < |ss|
    ensures Kept(ss[n])
    decreases n
  {
    if n > 0 {
      RunInv(ss, ps, n - 1);
      RunInv(ss, ps, n);
      RunKept(ss, ps, n - 1);
      KeptStep(ss[n - 1], ss[n], ps[n - 1]);
    }
  }

  /** A process that is on its way through a released or full round and can take its next step now. */
  predicate CanMove(s: State, p: Pid) {
    p in s.pc && (s.pc[p].Ready? || s.pc[p].Holding? || (s.pc[p].Counted? && s.ot != [] && s.rounds != []))
  }

  /**
   As long as no waiter has left and no block was lost, whoever is held up by the waiting loop of
   POLLBARRIER_WAIT of a barrier that is not broken is held up by a process that can move.
   */
  lemma HeldUpBySomeone(ss: seq<State>, ps: seq<Pid>, n: nat, p: Pid)
    requires Run(ss, ps) && n < |ss| && Gone(ss[n]) == 0
    requires p in ss[n].pc && ss[n].pc[p].Out? && !ss[n].broken
    ensures (exists s' :: Wait(ss[n], s', p)) || exists q :: CanMove(ss[n], q)
  {
    RunInv(ss, ps, n);
    RunKept(ss, ps, n);
    HeldUpNow(ss[n], p);
  }

  lemma HeldUpNow(s: State, p: Pid)
    requires Inv(s) && Kept(s) && Gone(s) == 0 && p in s.pc && s.pc[p].Out? && !s.broken
    ensures (exists s' :: Wait(s, s', p)) || exists q :: CanMove(s, q)
  {
    if s.holders != {} {
      var q :| q in s.holders;
      assert PcOk(s, q, s.pc[q]);
      assert CanMove(s, q);
    } else if s.pending != {} {
      var q :| q in s.pending;
      assert PcOk(s, q, s.pc[q]);
      assert CanMove(s, q);
    } else if s.count == s.cap {
      var q :| q in s.gathered && q in s.pc && s.pc[q].Ready?;
      assert CanMove(s, q);
    } else {
      assert Wait(s, s.(count := s.count + 1, gathered := s.gathered + {p},
                        pc := s.pc[p := if s.count + 1 == s.cap then Ready(|s.rounds|) else Counted(|s.rounds|)]), p);
    }
  }

  ghost function ReadyOnes(s: State): set<Pid> {
    set p | p in s.pc && s.pc[p].Ready?
  }

  /** What the counted waiters still have to do: be released, receive, give back. */
  ghost function Moves(s: State): nat {
    3 * |s.gathered| + 2 * |s.pending| + |s.holders| + |ReadyOnes(s)|
  }

  lemma ReadyLess(s: State, s': State, p: Pid)
    requires p in s.pc && p in s'.pc && s'.pc == s.pc[p := s'.pc[p]] && !s'.pc[p].Ready?
    ensures ReadyOnes(s') == ReadyOnes(s) - {p}
  {
  }

  /** A release takes work off everybody that was counted. */
  lemma ReleasedMoves(s: State, b: bool)
    requires Balanced(s)
    ensures Moves(Released(s.(broken := b))) <= Moves(s)
    ensures Released(s.(broken := b)).pc == s.pc
  {
    var t := Released(s.(broken := b));
    assert ReadyOnes(t) == ReadyOnes(s);
    assert s.count > 0 ==> s.pending + s.gathered == s.gathered;
  }

  lemma OwnMoveShrinks(s: State, s': State, p: Pid)
    requires Balanced(s) && Placed(s) && (Release(s, s', p) || Receive(s, s', p) || GiveBack(s, s', p))
    ensures Moves(s') < Moves(s)
  {
    assert PcOk(s, p, s.pc[p]);
    ReadyLess(s, s', p);
    if Release(s, s', p) {
      ReleasedMoves(s, s.broken);
      assert s.(broken := s.broken) == s;
      assert p in ReadyOnes(s);
      assert |ReadyOnes(s) - {p}| == |ReadyOnes(s)| - 1;
      assert ReadyOnes(if s.broken then s else Released(s)) == ReadyOnes(s);
    } else if Receive(s, s', p) {
      ReceiverIsPending(s, p);
      assert p !in ReadyOnes(s);
    } else {
      assert p !in ReadyOnes(s);
    }
  }

  lemma OtherMoveKeeps(s: State, s': State, p: Pid)
    requires Balanced(s) && Placed(s) && (Abort(s, s', p) || TimedOut(s, s', p) || Reset(s, s', p))
    ensures Moves(s') <= Moves(s)
  {
    ReleasedMoves(s, true);
    ReleasedMoves(s, s.broken);
    assert s.(broken := s.broken) == s;
    ClearedIsReleased(s);
    assert ReadyOnes(Cleared(s)) == ReadyOnes(Released(s));
  }

  lemma LoseKeeps(s: State, s': State, p: Pid)
    requires Lose(s, s', p)
    ensures Moves(s') <= Moves(s)
  {
    ReadyLess(s, s', p);
    SubsetSize(s.holders - {p}, s.holders);
    SubsetSize(ReadyOnes(s) - {p}, ReadyOnes(s));
  }

  lemma LeaveKeeps(s: State, s': State, p: Pid)
    requires Balanced(s) && Leave(s, s', p)
    ensures Moves(s') <= Moves(s)
  {
    ReleasedMoves(s, true);
    var t := Aborted(s);
    ReadyLess(t, s', p);
    SubsetSize(t.pending - {p}, t.pending);
    SubsetSize(ReadyOnes(t) - {p}, ReadyOnes(t));
  }

  /**
   A hold-up ends: until somebody new is counted, no step adds to what the counted waiters have to
   do, and each of their own steps takes something off.
   */
  lemma HoldUpShrinks(s: State, s': State, p: Pid)
    requires Inv(s) && Step(s, s', p) && !Wait(s, s', p)
    ensures Moves(s') <= Moves(s)
    ensures Release(s, s', p) || Receive(s, s', p) || GiveBack(s, s', p) ==> Moves(s') < Moves(s)
  {
    if Release(s, s', p) || Receive(s, s', p) || GiveBack(s, s', p) {
      OwnMoveShrinks(s, s', p);
    } else if Leave(s, s', p) {
      LeaveKeeps(s, s', p);
    } else if Lose(s, s', p) {
      LoseKeeps(s, s', p);
    } else {
      OtherMoveKeeps(s, s', p);
    }
  }

  /** How many of the steps from m to n are a counted waiter's own. */
  ghost function OwnMoves(ss: seq<State>, ps: seq<Pid>, m: nat, n: nat): nat
    requires m <= n < |ss| == |ps| + 1
  {
    if m == n then 0
    else
      var s, s', p := ss[n - 1], ss[n], ps[n - 1];
      OwnMoves(ss, ps, m, n - 1) + if Release(s, s', p) || Receive(s, s', p) || GiveBack(s, s', p) then 1 else 0
  }

  /** A stretch of a run in which nobody is counted has at most as many of them as there was to do at its start. */
  lemma {:induction false} HoldUpEnds(ss: seq<State>, ps: seq<Pid>, m: nat, n: nat)
    requires Run(ss, ps) && m <= n < |ss| && forall i :: m <= i < n ==> !Wait(ss[i], ss[i + 1], ps[i])
    ensures OwnMoves(ss, ps, m, n) + Moves(ss[n]) <= Moves(ss[m])
    decreases n
  {
    if m < n {
      HoldUpEnds(ss, ps, m, n - 1);
      RunInv(ss, ps, n - 1);
      PathStep(ss, ps, n);
      var i := n - 1;
      assert !Wait(ss[i], ss[i + 1], ps[i]);
      HoldUpShrinks(ss[n - 1], ss[n], ps[n - 1]);
    }
  }

  // ---------------------------------------------------------------------------------------
  // When a barrier can be used again
  // ---------------------------------------------------------------------------------------

  /** A path from s to a state in which p is counted. */
  ghost predicate Revives(s: State, ss: seq<State>, ps: seq<Pid>, s': State, p: Pid) {
    Path(ss, ps) && ss[0] == s && Wait(ss[|ps|], s', p)
  }

  lemma CountedMeansNoneLeft(s: State, s': State, p: Pid)
    requires Balanced(s) && Wait(s, s', p)
    ensures Gone(s) == 0
  {
  }

  lemma RevivesMeansNoneLeft(s: State, ss: seq<State>, ps: seq<Pid>, s': State, p: Pid)
    requires Inv(s) && Revives(s, ss, ps, s', p)
    ensures Gone(s) == 0
  {
    PathInv(ss, ps, |ps|);
    AbandonedStays(ss, ps, 0, |ps|);
    CountedMeansNoneLeft(ss[|ps|], s', p);
  }

  /** The step a process that can move takes. */
  lemma MoveOf(s: State, p: Pid) returns (s': State)
    requires CanMove(s, p)
    ensures (Release(s, s', p) || Receive(s, s', p) || GiveBack(s, s', p)) && Gone(s') == Gone(s)
  {
    if s.pc[p].Ready? {
      var t := if s.broken then s else Released(s);
      s' := t.(pc := t.pc[p := Counted(s.pc[p].round)]);
    } else if s.pc[p].Holding? {
      s' := s.(ut := s.ut + [s.pc[p].msg.block], pc := s.pc[p := Out], holders := s.holders - {p});
    } else {
      s' := s.(ot := s.ot[1..], pc := s.pc[p := Holding(s.ot[0])], pending := s.pending - {p},
               holders := s.holders + {p}, rounds := Logged(s.rounds, p, s.ot[0].value));
    }
  }

  /** One step nearer: somebody moves; or the barrier is reset; or the round that cannot fill up is aborted. */
  lemma Nearer(s: State, p: Pid) returns (s': State, q: Pid)
    requires Inv(s) && Kept(s) && Gone(s) == 0 && p in s.pc && forall s', q :: !Wait(s, s', q)
    ensures Step(s, s', q) && Gone(s') == 0 && p in s'.pc
    ensures Moves(s') < Moves(s) || (Moves(s') == Moves(s) && s.broken && !s'.broken)
  {
    if x :| CanMove(s, x) {
      q := x;
      s' := MoveOf(s, q);
      OwnMoveShrinks(s, s', q);
    } else if s.broken {
      q, s' := p, Cleared(s);
      ClearedIsReleased(s);
      assert Reset(s, s', q) && s' == s.(broken := false);
      assert ReadyOnes(s') == ReadyOnes(s);
    } else {
      q, s' := p, Aborted(s);
      if x :| x in s.pc && s.pc[x].Out? { HeldUpNow(s, x); }
      Filling(s, p);
      BreakingMoves(s);
      assert Abort(s, s', q);
    }
  }

  /** With nobody able to move and nobody outside, whoever is there is counted in a round that fills up. */
  lemma Filling(s: State, p: Pid)
    requires Inv(s) && p in s.pc && (forall x :: !CanMove(s, x)) && forall x :: x in s.pc ==> !s.pc[x].Out?
    ensures s.count > 0
  {
    assert PcOk(s, p, s.pc[p]) && !CanMove(s, p);
    assert s.pending != {} ==> |s.ot| > 0;
  }

  lemma BreakingMoves(s: State)
    requires Balanced(s) && s.count > 0
    ensures Moves(Aborted(s)) < Moves(s) && Aborted(s).pc == s.pc && Gone(Aborted(s)) == Gone(s)
  {
    var t := Aborted(s);
    assert ReadyOnes(t) == ReadyOnes(s);
    assert s.pending + s.gathered == s.gathered;
  }

  lemma {:induction false} NoneLeftRevives(s: State, p: Pid) returns (ss: seq<State>, ps: seq<Pid>, s': State, q: Pid)
    requires Inv(s) && Kept(s) && Gone(s) == 0 && p in s.pc
    ensures Revives(s, ss, ps, s', q)
    decreases Moves(s), s.broken
  {
    if t, x :| Wait(s, t, x) {
      ss, ps, s', q := [s], [], t, x;
    } else {
      var t, x := Nearer(s, p);
      StepKeeps(s, t, x);
      ss, ps, s', q := NoneLeftRevives(t, p);
      RevivesNext(s, x, t, ss, ps, s', q);
      ss, ps := [s] + ss, [x] + ps;
    }
  }

  lemma StepKeeps(s: State, s': State, p: Pid)
    requires Inv(s) && Step(s, s', p)
    ensures Inv(s') && Kept(s')
  {
    StepInv(s, s', p);
    KeptStep(s, s', p);
  }

  lemma PathNext(s: State, x: Pid, ss: seq<State>, ps: seq<Pid>, i: nat)
    requires Path(ss, ps) && Step(s, ss[0], x) && i <= |ps|
    ensures Step(([s] + ss)[i], ([s] + ss)[i + 1], ([x] + ps)[i])
  {
    if i > 0 {
      PathStep(ss, ps, i);
      assert ([s] + ss)[i] == ss[i - 1] && ([s] + ss)[i + 1] == ss[i] && ([x] + ps)[i] == ps[i - 1];
    } else {
      assert ([s] + ss)[0] == s && ([s] + ss)[1] == ss[0] && ([x] + ps)[0] == x;
    }
  }

  lemma RevivesNext(s: State, x: Pid, t: State, ss: seq<State>, ps: seq<Pid>, s': State, q: Pid)
    requires Step(s, t, x) && Revives(t, ss, ps, s', q)
    ensures Revives(s, [s] + ss, [x] + ps, s', q)
  {
    var ss', ps' := [s] + ss, [x] + ps;
    forall i | 0 <= i < |ps'| ensures Step(ss'[i], ss'[i + 1], ps'[i]) { PathNext(s, x, ss, ps, i); }
    assert ss'[|ps'|] == ss[|ps|];
  }

  /**
   In every run, a barrier that anybody uses can be got to count again exactly when no counted waiter
   has left it and no block was lost.
   */
  lemma UsableIff(ss: seq<State>, ps: seq<Pid>, n: nat)
    requires Run(ss, ps) && n < |ss| && ss[n].pc != map[]
    ensures (exists ts, qs, s', p :: Revives(ss[n], ts, qs, s', p)) <==> Gone(ss[n]) == 0
  {
    RunInv(ss, ps, n);
    RunKept(ss, ps, n);
    if Gone(ss[n]) == 0 {
      assert ss[n].pc.Keys != {};
      var p :| p in ss[n].pc.Keys;
      var ts, qs, s', q := NoneLeftRevives(ss[n], p);
    } else if ts, qs, s', p :| Revives(ss[n], ts, qs, s', p) {
      RevivesMeansNoneLeft(ss[n], ts, qs, s', p);
    }
  }

  /** The stuck barrier can happen: one party, whose action throws, and a reset that does not help. */
  lemma LeavingWedges() returns (ss: seq<State>, ps: seq<Pid>)
    ensures Run(ss, ps) && |ss| == 4
    ensures !ss[3].broken && ss[3].pc == map[7 := Out] && ss[3].count == 0
    ensures forall s' :: !Wait(ss[3], s', 7)
  {
    var s0 := State(1, [0], [], 0, false, false, map[7 := Out], {}, {}, {}, 0, 0, []);
    var s1 := s0.(count := 1, gathered := {7}, pc := map[7 := Ready(0)]);
    var round := Round({7}, true, [BROKEN], []);
    var s2 := s0.(broken := true, ut := [], ot := [Msg(0, BROKEN, 0)], abandoned := 1, rounds := [round]);
    var s3 := s2.(broken := false);
    assert s0.gathered + {7} == {7} && Wait(s0, s1, 7);
    var u := s1.(broken := true);
    assert Values(u) == [BROKEN] && Messages(u, 1) == [Msg(0, BROKEN, 0)];
    assert s1.pending + s1.gathered - {7} == {};
    assert Leave(s1, s2, 7);
    assert Reset(s2, s3, 7);
    ss, ps := [s0, s1, s2, s3], [7, 7, 7];
  }

  // ---------------------------------------------------------------------------------------
  // The release loop
  // ---------------------------------------------------------------------------------------

  /** The part of the channel header and tables that a release works on. */
  class Header {
    const cap: nat
    var ut: seq<nat>
    var ot: seq<Msg>
    var count: nat
    var broken: bool
    var availableBlocks: nat
    var availableMsgs: nat

    /** The header is that of the model state s. */
    ghost predicate Shows(s: State)
      reads this
    {
      && cap == s.cap && ut == s.ut && ot == s.ot && count == s.count && broken == s.broken
      && availableBlocks == |ut| && availableMsgs == |ot|
    }

    constructor (s: State)
      ensures Shows(s)
    {
      cap, ut, ot, count, broken := s.cap, s.ut, s.ot, s.count, s.broken;
      availableBlocks, availableMsgs := |s.ut|, |s.ot|;
    }

    /** Fails, half done, exactly when a counted waiter finds the usage table empty. */
    method ReleaseWaiters(ghost s: State, round: nat) returns (ok: bool, waiters: nat)
      requires Shows(s) && round == |s.rounds|
      modifies this
      ensures Shows(Released(s)) && waiters == s.count
      ensures ok <==> s.count <= |s.ut|
    {
      waiters := count;
      if broken && waiters == 0 {
        return true, waiters;
      }
      var k := 0;
      while k < waiters
        invariant k <= waiters == count && k <= |s.ut|
        invariant ut == s.ut[k..] && ot == s.ot + Messages(s, k)
        invariant count == s.count && broken == s.broken
        invariant availableBlocks == |ut| && availableMsgs == |ot|
      {
        if ut == [] {
          return false, waiters;
        }
        var block := ut[0];
        ut := ut[1..];
        availableBlocks := availableBlocks - 1;
        var value := if broken || waiters < cap then BROKEN else k;
        ot := ot + [Msg(block, value, round)];
        availableMsgs := availableMsgs + 1;
        assert Messages(s, k + 1) == Messages(s, k) + [Msg(block, value, round)];
        k := k + 1;
      }
      count := 0;
      return true, waiters;
    }
  }
}
