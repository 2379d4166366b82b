/**
 A channel as a step machine.

 A channel owns `cap` message blocks. A block is in the usage table (UT, free), in the
 ordering table (OT, queued) or in the hands of one process. Two locks guard the tables,
 and each table has a counter that is also read outside its lock. Any number of processes
 send, receive, peek and pop; a step is cut wherever another process can look at the state:
 at every lock acquire and release, between a table change and its counter, and around the
 copies into and out of a block, which happen under no lock at all.

 The priority heaps are first-in first-out sequences (PriorityHeap shows that they are) and
 a bcast is a set of parked processes from which a trigger wakes one.
 */
module Channels {
  import opened Counting

  type Pid = nat

  /** What a sender hands over: the bytes, and the words that travel in the OT item. */
  datatype Message = Message(payload: seq<nat>, serialized: bool, clientid: nat, hints: nat, sendhid: nat)

  /** An OT item. The payload is not in it: it stays in the block. */
  datatype Item = Item(block: nat, nbytes: nat, serialized: bool, clientid: nat, hints: nat, sendhid: nat)

  /** Where a block is. Lost is nowhere: a call returned with an error and neither queued the block nor gave it back. */
  datatype Place = InUT | InOT | Held(holder: Pid) | Lost

  /** Program points under the UT lock: a send before and after its pop, a sender's check before it parks,
      and the two ways a block comes back, from ch_send_fail (F) and from a receive (B). */
  datatype UtPoint = SIn | SPop | SCheck | FIn | FCount | BIn | BCount | BTrig

  /** Program points under the OT lock. */
  datatype OtPoint = SOt | SOtCount | SOtTrig | RIn | RPop | RCheck | PIn

  datatype UtLock = UtFree | Ut(p: Pid, at: UtPoint)
  datatype OtLock = OtFree | Ot(p: Pid, at: OtPoint)

  /** Program points outside the locks; InUt and InOt stand for the points above. */
  datatype Label =
    | Idle | InUt | InOt
    | SWant | SLook | STrig | SFill | SPut | SFull | SParked | FWant
    | RWant | RLook | RTrig | RCopy | REmpty | RParked | BWant | PWant

  /** A process: its program point, the message it sends and whether it is in the block yet,
      the block in its hands (or -1), and the item it popped with its position in the queue's history (or -1). */
  datatype Proc = Proc(at: Label, msg: Message, filled: bool, blk: int, idx: int, item: Item, discard: bool)

  datatype State = State(
    cap: nat,
    size: nat,                      // bytes per message block
    ut: seq<nat>,
    ot: seq<Item>,
    blocks: seq<seq<nat>>,          // block memory
    availBlocks: int,
    availMsgs: int,
    utLock: UtLock,
    otLock: OtLock,
    procs: map<Pid, Proc>,
    sendParked: set<Pid>,
    sendWoken: set<Pid>,            // woken from the send bcast, not yet through the retry
    recvParked: set<Pid>,
    recvWoken: set<Pid>,
    // history: read by the theorems, by no step's guard
    place: seq<Place>,
    sent: seq<Message>,             // messages inserted into the OT, in order
    taken: nat,                     // how many of them have been popped
    delivered: map<int, Message>,   // what the receiver of the k-th message copied out
    peeked: seq<(nat, Message)>,
    sendClean: bool,                // no send has left through ch_send_fail
    lost: nat)                      // blocks that calls have lost

  // ---------------------------------------------------------------------------------------
  // Steps
  // ---------------------------------------------------------------------------------------

  predicate WellFormed(s: State) {
    && |s.blocks| == s.cap
    && |s.place| == s.cap
    && (forall b :: 0 <= b < s.cap ==> |s.blocks[b]| == s.size)
  }

  predicate Readable(blocks: seq<seq<nat>>, it: Item) {
    it.block < |blocks| && it.nbytes <= |blocks[it.block]|
  }

  /** What a receiver sees of an item: exactly nbytes of its block, and the words of the item. */
  function Decode(blocks: seq<seq<nat>>, it: Item): Message
    requires Readable(blocks, it)
  {
    Message(blocks[it.block][..it.nbytes], it.serialized, it.clientid, it.hints, it.sendhid)
  }

  function ItemFor(m: Message, b: nat): Item {
    Item(b, |m.payload|, m.serialized, m.clientid, m.hints, m.sendhid)
  }

  /** Copy into a block: bytes past the payload keep what an earlier message left there. */
  function Overwrite(was: seq<nat>, payload: seq<nat>): seq<nat>
    requires |payload| <= |was|
  {
    payload + was[|payload|..]
  }

  function To(s: State, p: Pid, l: Label): map<Pid, Proc>
    requires p in s.procs
  {
    s.procs[p := s.procs[p].(at := l)]
  }

  /** A call starts: a send with its message, a receive (or pop), or a peek. */
  predicate Begin(s: State, s': State, p: Pid, l: Label, m: Message)
    requires p in s.procs
  {
    && s.procs[p].at.Idle? && (l.SWant? || l.RWant? || l.PWant?) && |m.payload| <= s.size
    && s' == s.(procs := s.procs[p := s.procs[p].(at := l, msg := m, filled := false)])
  }

  predicate TakeUt(s: State, s': State, p: Pid)
    requires p in s.procs
  {
    && s.utLock.UtFree?
    && var l := s.procs[p].at;
    && (l.SWant? || l.SFull? || l.FWant? || l.BWant?)
    && s' == s.(utLock := Ut(p, if l.SWant? then SIn else if l.SFull? then SCheck else if l.FWant? then FIn else BIn),
                procs := To(s, p, InUt))
  }

  predicate TakeOt(s: State, s': State, p: Pid)
    requires p in s.procs
  {
    && s.otLock.OtFree?
    && var l := s.procs[p].at;
    && (l.SPut? || l.RWant? || l.REmpty? || l.PWant?)
    && s' == s.(otLock := Ot(p, if l.SPut? then SOt else if l.RWant? then RIn else if l.REmpty? then RCheck else PIn),
                procs := To(s, p, InOt))
  }

  predicate SendFull(s: State, s': State, p: Pid)
    requires p in s.procs
  {
    && s.utLock == Ut(p, SIn) && s.ut == []
    && s' == s.(availBlocks := 0, utLock := UtFree, sendWoken := s.sendWoken - {p}, procs := To(s, p, SFull))
  }

  predicate SendPop(s: State, s': State, p: Pid)
    requires p in s.procs
  {
    && s.utLock == Ut(p, SIn) && s.ut != [] && s.ut[0] < |s.place|
    && s' == s.(utLock := Ut(p, SPop), ut := s.ut[1..], place := s.place[s.ut[0] := Held(p)],
                sendWoken := s.sendWoken - {p}, procs := s.procs[p := s.procs[p].(blk := s.ut[0])])
  }

  predicate SendCount(s: State, s': State, p: Pid)
    requires p in s.procs
  {
    && s.utLock == Ut(p, SPop)
    && s' == s.(availBlocks := s.availBlocks - 1, utLock := UtFree, procs := To(s, p, SLook))
  }

  /** After a pop, with the lock already released, the counter decides whether to trigger another waiter. */
  predicate Look(s: State, s': State, p: Pid)
    requires p in s.procs
  {
    var l := s.procs[p].at;
    && (l.SLook? || l.RLook?)
    && s' == s.(procs := To(s, p, if l.SLook? then (if s.availBlocks > 0 then STrig else SFill)
                                  else (if s.availMsgs > 0 then RTrig else RCopy)))
  }

  /** trigger_one wakes some parked process; with nobody parked it does nothing. */
  function WakeSender(s: State, q: Pid): State {
    if q !in s.sendParked || q !in s.procs then s
    else s.(procs := To(s, q, SWant), sendParked := s.sendParked - {q}, sendWoken := s.sendWoken + {q})
  }

  function WakeReceiver(s: State, q: Pid): State {
    if q !in s.recvParked || q !in s.procs then s
    else s.(procs := To(s, q, RWant), recvParked := s.recvParked - {q}, recvWoken := s.recvWoken + {q})
  }

  /** A sender triggers another sender: after its own pop, outside the lock. */
  predicate PopTrigger(s: State, s': State, p: Pid, q: Pid)
    requires p in s.procs
  {
    && s.procs[p].at.STrig? && (s.sendParked == {} || q in s.sendParked)
    && s' == WakeSender(s, q).(procs := To(WakeSender(s, q), p, SFill))
  }

  /** The process that gave a block back triggers a sender, under the UT lock. */
  predicate BackTrigger(s: State, s': State, p: Pid, q: Pid)
    requires p in s.procs
  {
    && s.utLock == Ut(p, BTrig) && (s.sendParked == {} || q in s.sendParked)
    && s' == WakeSender(s, q).(utLock := UtFree, procs := To(WakeSender(s, q), p, Idle))
  }

  predicate TakeTrigger(s: State, s': State, p: Pid, q: Pid)
    requires p in s.procs
  {
    && s.procs[p].at.RTrig? && (s.recvParked == {} || q in s.recvParked)
    && s' == WakeReceiver(s, q).(procs := To(WakeReceiver(s, q), p, RCopy))
  }

  predicate SendTrigger(s: State, s': State, p: Pid, q: Pid)
    requires p in s.procs
  {
    && s.otLock == Ot(p, SOtTrig) && (s.recvParked == {} || q in s.recvParked)
    && s' == WakeReceiver(s, q).(otLock := OtFree, procs := To(WakeReceiver(s, q), p, Idle))
  }

  predicate SendFill(s: State, s': State, p: Pid)
    requires p in s.procs
  {
    var pr := s.procs[p];
    && pr.at.SFill? && 0 <= pr.blk < |s.blocks| && |pr.msg.payload| <= |s.blocks[pr.blk]|
    && s' == s.(blocks := s.blocks[pr.blk := Overwrite(s.blocks[pr.blk], pr.msg.payload)],
                procs := s.procs[p := pr.(at := SPut, filled := true)])
  }

  /** The copy, or an allocation for it, failed: leave through ch_send_fail. */
  predicate SendFail(s: State, s': State, p: Pid)
    requires p in s.procs
  {
    s.procs[p].at.SFill? && s' == s.(sendClean := false, procs := To(s, p, FWant))
  }

  predicate SendInsert(s: State, s': State, p: Pid)
    requires p in s.procs
  {
    var pr := s.procs[p];
    && s.otLock == Ot(p, SOt) && |s.ot| != s.cap && 0 <= pr.blk < |s.place|
    && s' == s.(otLock := Ot(p, SOtCount), ot := s.ot + [ItemFor(pr.msg, pr.blk)], sent := s.sent + [pr.msg],
                place := s.place[pr.blk := InOT], procs := s.procs[p := pr.(blk := -1, filled := false)])
  }

  /** The branch the source calls impossible: the OT heap is full. */
  predicate SendHeapFull(s: State, s': State, p: Pid)
    requires p in s.procs
  {
    && s.otLock == Ot(p, SOt) && |s.ot| == s.cap
    && s' == s.(otLock := OtFree, sendClean := false, procs := To(s, p, FWant))
  }

  predicate SendOtCount(s: State, s': State, p: Pid)
    requires p in s.procs
  {
    s.otLock == Ot(p, SOtCount) && s' == s.(availMsgs := s.availMsgs + 1, otLock := Ot(p, SOtTrig))
  }

  /** A call runs out of time, before it parks or while it is parked. */
  predicate GiveUp(s: State, s': State, p: Pid)
    requires p in s.procs
  {
    && var l := s.procs[p].at;
    && (l.SFull? || l.REmpty? || l.SParked? || l.RParked?)
    && s' == s.(sendParked := s.sendParked - {p}, recvParked := s.recvParked - {p}, procs := To(s, p, Idle))
  }

  predicate SendPark(s: State, s': State, p: Pid)
    requires p in s.procs
  {
    && s.utLock == Ut(p, SCheck) && s.availBlocks == 0
    && s' == s.(sendParked := s.sendParked + {p}, utLock := UtFree, procs := To(s, p, SParked))
  }

  predicate SendRetry(s: State, s': State, p: Pid)
    requires p in s.procs
  {
    s.utLock == Ut(p, SCheck) && s.availBlocks != 0 && s' == s.(utLock := UtFree, procs := To(s, p, SWant))
  }

  predicate RecvPark(s: State, s': State, p: Pid)
    requires p in s.procs
  {
    && s.otLock == Ot(p, RCheck) && s.availMsgs == 0
    && s' == s.(recvParked := s.recvParked + {p}, otLock := OtFree, procs := To(s, p, RParked))
  }

  predicate RecvRetry(s: State, s': State, p: Pid)
    requires p in s.procs
  {
    s.otLock == Ot(p, RCheck) && s.availMsgs != 0 && s' == s.(otLock := OtFree, procs := To(s, p, RWant))
  }

  /** A block goes back into the UT, after a receive or from ch_send_fail. */
  predicate GiveBack(s: State, s': State, p: Pid)
    requires p in s.procs
  {
    var pr := s.procs[p];
    && (s.utLock == Ut(p, BIn) || s.utLock == Ut(p, FIn)) && 0 <= pr.blk < |s.place|
    && s' == s.(utLock := Ut(p, if s.utLock.at.BIn? then BCount else FCount), ut := s.ut + [pr.blk],
                place := s.place[pr.blk := InUT], procs := s.procs[p := pr.(blk := -1, filled := false)])
  }

  /** Count it; a receive goes on to trigger a sender, ch_send_fail does not. */
  predicate GiveCount(s: State, s': State, p: Pid)
    requires p in s.procs
  {
    && (s.utLock == Ut(p, BCount) || s.utLock == Ut(p, FCount))
    && s' == if s.utLock.at.BCount? then s.(availBlocks := s.availBlocks + 1, utLock := Ut(p, BTrig))
             else s.(availBlocks := s.availBlocks + 1, utLock := UtFree, procs := To(s, p, Idle))
  }

  predicate RecvEmpty(s: State, s': State, p: Pid)
    requires p in s.procs
  {
    && s.otLock == Ot(p, RIn) && s.ot == []
    && s' == s.(availMsgs := 0, otLock := OtFree, recvWoken := s.recvWoken - {p}, procs := To(s, p, REmpty))
  }

  /** An error while the OT lock is held, such as a landing pad that is too small: the message stays queued. */
  predicate RecvReject(s: State, s': State, p: Pid)
    requires p in s.procs
  {
    && s.otLock == Ot(p, RIn) && s.ot != []
    && s' == s.(otLock := OtFree, recvWoken := s.recvWoken - {p}, procs := To(s, p, Idle))
  }

  /** Pop the next message; it is discarded by a pop call or when the landing allocation failed. */
  predicate RecvPop(s: State, s': State, p: Pid, discard: bool)
    requires p in s.procs
  {
    && s.otLock == Ot(p, RIn) && s.ot != [] && s.ot[0].block < |s.place|
    && s' == s.(otLock := Ot(p, RPop), ot := s.ot[1..], taken := s.taken + 1,
                place := s.place[s.ot[0].block := Held(p)], recvWoken := s.recvWoken - {p},
                procs := s.procs[p := s.procs[p].(blk := s.ot[0].block, idx := s.taken, item := s.ot[0],
                                                  discard := discard)])
  }

  predicate RecvCount(s: State, s': State, p: Pid)
    requires p in s.procs
  {
    s.otLock == Ot(p, RPop) && s' == s.(availMsgs := s.availMsgs - 1, otLock := OtFree, procs := To(s, p, RLook))
  }

  predicate RecvCopy(s: State, s': State, p: Pid)
    requires p in s.procs
  {
    var pr := s.procs[p];
    && pr.at.RCopy? && Readable(s.blocks, pr.item)
    && s' == s.(delivered := if pr.discard then s.delivered else s.delivered[pr.idx := Decode(s.blocks, pr.item)],
                procs := s.procs[p := pr.(at := BWant, idx := -1)])
  }

  /** Return with an error and drop the block. */
  function Dropped(s: State, p: Pid): State
    requires p in s.procs && 0 <= s.procs[p].blk < |s.place|
  {
    s.(place := s.place[s.procs[p].blk := Lost], lost := s.lost + 1,
       procs := s.procs[p := s.procs[p].(at := Idle, blk := -1, idx := -1, filled := false)])
  }

  /**
   A send fails after its block is filled, other than through ch_send_fail: on freeing the sender's
   memory or reading its attributes.
   */
  predicate SendLose(s: State, s': State, p: Pid)
    requires p in s.procs
  {
    s.procs[p].at.SPut? && 0 <= s.procs[p].blk < |s.place| && s' == Dropped(s, p)
  }

  /**
   A receive or pop fails after it has popped its item: on attaching to the payload, copying, resizing
   or freeing it.
   */
  predicate RecvLose(s: State, s': State, p: Pid)
    requires p in s.procs
  {
    (s.procs[p].at.RCopy? || s.procs[p].at.BWant?) && 0 <= s.procs[p].blk < |s.place| && s' == Dropped(s, p)
  }

  predicate PeekRead(s: State, s': State, p: Pid)
    requires p in s.procs
  {
    && s.otLock == Ot(p, PIn) && (s.ot != [] ==> Readable(s.blocks, s.ot[0]))
    && s' == if s.ot == [] then s.(availMsgs := 0, otLock := OtFree, procs := To(s, p, Idle))
             else s.(otLock := OtFree, procs := To(s, p, Idle),
                     peeked := s.peeked + [(s.taken, Decode(s.blocks, s.ot[0]))])
  }

  datatype Action =
    | ABegin(l: Label, m: Message) | ATakeUt | ATakeOt | ASendFull | ASendPop | ASendCount | ALook
    | APopTrigger(q: Pid) | ABackTrigger(q: Pid) | ATakeTrigger(q: Pid) | ASendTrigger(q: Pid)
    | ASendFill | ASendFail | ASendInsert | ASendHeapFull | ASendOtCount
    | AGiveUp | ASendPark | ASendRetry | ARecvPark | ARecvRetry | AGiveBack | AGiveCount | ARecvEmpty | ARecvReject
    | ARecvPop(discard: bool)
    | ARecvCount | ARecvCopy | APeekRead | ASendLose | ARecvLose

  predicate Step(s: State, s': State, p: Pid, a: Action) {
    p in s.procs &&
    match a
    case ABegin(l, m) => Begin(s, s', p, l, m)
    case ATakeUt => TakeUt(s, s', p)
    case ATakeOt => TakeOt(s, s', p)
    case ASendFull => SendFull(s, s', p)
    case ASendPop => SendPop(s, s', p)
    case ASendCount => SendCount(s, s', p)
    case ALook => Look(s, s', p)
    case APopTrigger(q) => PopTrigger(s, s', p, q)
    case ABackTrigger(q) => BackTrigger(s, s', p, q)
    case ATakeTrigger(q) => TakeTrigger(s, s', p, q)
    case ASendTrigger(q) => SendTrigger(s, s', p, q)
    case ASendFill => SendFill(s, s', p)
    case ASendFail => SendFail(s, s', p)
    case ASendInsert => SendInsert(s, s', p)
    case ASendHeapFull => SendHeapFull(s, s', p)
    case ASendOtCount => SendOtCount(s, s', p)
    case AGiveUp => GiveUp(s, s', p)
    case ASendPark => SendPark(s, s', p)
    case ASendRetry => SendRetry(s, s', p)
    case ARecvPark => RecvPark(s, s', p)
    case ARecvRetry => RecvRetry(s, s', p)
    case AGiveBack => GiveBack(s, s', p)
    case AGiveCount => GiveCount(s, s', p)
    case ARecvEmpty => RecvEmpty(s, s', p)
    case ARecvReject => RecvReject(s, s', p)
    case ARecvPop(discard) => RecvPop(s, s', p, discard)
    case ARecvCount => RecvCount(s, s', p)
    case ARecvCopy => RecvCopy(s, s', p)
    case APeekRead => PeekRead(s, s', p)
    case ASendLose => SendLose(s, s', p)
    case ARecvLose => RecvLose(s, s', p)
  }

  /** A new channel: every block in the UT, in order, and every process idle. */
  ghost predicate Init(s: State) {
    && WellFormed(s)
    && s.ut == seq(s.cap, i => i)
    && s.ot == [] && s.availBlocks == s.cap && s.availMsgs == 0
    && s.utLock.UtFree? && s.otLock.OtFree?
    && (forall p :: p in s.procs ==>
          s.procs[p].at.Idle? && s.procs[p].blk == -1 && s.procs[p].idx == -1 && !s.procs[p].filled
          && s.procs[p].msg.payload == [])
    && s.sendParked == s.sendWoken == s.recvParked == s.recvWoken == {}
    && (forall b :: 0 <= b < s.cap ==> s.place[b].InUT?)
    && s.sent == [] && s.taken == 0 && s.delivered == map[] && s.peeked == [] && s.sendClean && s.lost == 0
  }

  datatype Event = Event(p: Pid, a: Action)

  /** One run: any interleaving of the steps of any processes. */
  ghost predicate Run(ss: seq<State>, es: seq<Event>) {
    && |ss| == |es| + 1
    && Init(ss[0])
    && forall i :: 0 <= i < |es| ==> Step(ss[i], ss[i + 1], es[i].p, es[i].a)
  }

  // ---------------------------------------------------------------------------------------
  // Invariants
  // ---------------------------------------------------------------------------------------

  /**
   Every block is in exactly one place: `place` is a function, and both tables, all hands and the losses
   agree with it.
   */
  ghost predicate Placed(s: State) {
    WellFormed(s) && UtPlaced(s) && OtPlaced(s) && HandsPlaced(s) && s.lost == |LostBlocks(s)|
  }

  ghost function LostBlocks(s: State): set<int>
    requires WellFormed(s)
  {
    set b | 0 <= b < s.cap && s.place[b] == Lost
  }

  ghost predicate UtPlaced(s: State)
    requires WellFormed(s)
  {
    && (forall i :: 0 <= i < |s.ut| ==> s.ut[i] < s.cap && s.place[s.ut[i]] == InUT)
    && (forall i, j :: 0 <= i < j < |s.ut| ==> s.ut[i] != s.ut[j])
    && (forall b :: 0 <= b < s.cap && s.place[b] == InUT ==> b in s.ut)
  }

  ghost predicate OtPlaced(s: State)
    requires WellFormed(s)
  {
    && (forall i :: 0 <= i < |s.ot| ==> s.ot[i].block < s.cap && s.place[s.ot[i].block] == InOT)
    && (forall i, j :: 0 <= i < j < |s.ot| ==> s.ot[i].block != s.ot[j].block)
    && (forall b :: 0 <= b < s.cap && s.place[b] == InOT ==> exists i :: 0 <= i < |s.ot| && s.ot[i].block == b)
  }

  ghost predicate HandsPlaced(s: State)
    requires WellFormed(s)
  {
    && (forall p :: p in s.procs && s.procs[p].blk >= 0 ==>
          s.procs[p].blk < s.cap && s.place[s.procs[p].blk] == Held(p))
    && (forall b :: 0 <= b < s.cap && s.place[b].Held? ==>
                      s.place[b].holder in s.procs && s.procs[s.place[b].holder].blk == b)
  }

  /** Program point, hands and bcast membership of one process agree. */
  ghost predicate ProcOk(s: State, p: Pid, pr: Proc) {
    var l := pr.at;
    && (l.SLook? || l.STrig? || l.SFill? || l.SPut? || l.FWant? || l.RLook? || l.RTrig? || l.RCopy? || l.BWant?
        ==> pr.blk >= 0)
    && (l.Idle? || l.SWant? || l.SFull? || l.SParked? || l.RWant? || l.REmpty? || l.RParked? || l.PWant?
        ==> pr.blk == -1)
    && (l.RLook? || l.RTrig? || l.RCopy? ==> pr.idx >= 0)
    && (pr.idx >= 0 ==> l.RLook? || l.RTrig? || l.RCopy? || l.InOt?)
    && (l.SPut? ==> pr.filled)
    && (p in s.sendParked <==> l.SParked?)
    && (p in s.recvParked <==> l.RParked?)
    && (p in s.sendWoken ==> l.SWant? || (l.InUt? && s.utLock == Ut(p, SIn)))
    && (p in s.recvWoken ==> l.RWant? || (l.InOt? && s.otLock == Ot(p, RIn)))
    && (l.InUt? ==> s.utLock.Ut? && s.utLock.p == p)
    && (l.InOt? ==> s.otLock.Ot? && s.otLock.p == p)
    && (s.sendClean ==> !l.FWant?)
  }

  /** A lock holder is a process inside the critical section, with the hands its program point calls for. */
  ghost predicate OwnersOk(s: State) {
    && (s.utLock.Ut? ==>
          && s.utLock.p in s.procs && s.procs[s.utLock.p].at.InUt? && s.procs[s.utLock.p].idx < 0
          && (s.procs[s.utLock.p].blk >= 0 <==> s.utLock.at.SPop? || s.utLock.at.FIn? || s.utLock.at.BIn?)
          && s.procs[s.utLock.p].blk >= -1
          && (s.sendClean ==> !s.utLock.at.FIn? && !s.utLock.at.FCount?))
    && (s.otLock.Ot? ==>
          && s.otLock.p in s.procs && s.procs[s.otLock.p].at.InOt?
          && (s.procs[s.otLock.p].blk >= 0 <==> s.otLock.at.SOt? || s.otLock.at.RPop?)
          && s.procs[s.otLock.p].blk >= -1
          && (s.procs[s.otLock.p].idx >= 0 <==> s.otLock.at.RPop?)
          && (s.otLock.at.SOt? ==> s.procs[s.otLock.p].filled))
  }

  ghost predicate Control(s: State) {
    && OwnersOk(s)
    && (forall p :: p in s.procs ==> ProcOk(s, p, s.procs[p]))
    && s.sendParked <= s.procs.Keys && s.recvParked <= s.procs.Keys
    && s.sendWoken <= s.procs.Keys && s.recvWoken <= s.procs.Keys
  }

  /** A counter differs from its table only while its lock holder is between the two updates. */
  ghost predicate Counted(s: State) {
    && s.availBlocks == |s.ut| + (if s.utLock.UtFree? then 0 else if s.utLock.at.SPop? then 1
                                  else if s.utLock.at.FCount? || s.utLock.at.BCount? then -1 else 0)
    && s.availMsgs == |s.ot| + (if s.otLock.OtFree? then 0 else if s.otLock.at.RPop? then 1
                                else if s.otLock.at.SOtCount? then -1 else 0)
  }

  ghost predicate ItemCarries(s: State, it: Item, k: int) {
    0 <= k < |s.sent| && Readable(s.blocks, it) && Decode(s.blocks, it) == s.sent[k]
  }

  /** The process's message is in its block. */
  ghost predicate Filled(s: State, pr: Proc) {
    && 0 <= pr.blk < |s.blocks| && |pr.msg.payload| <= |s.blocks[pr.blk]|
    && s.blocks[pr.blk][..|pr.msg.payload|] == pr.msg.payload
  }

  /** A sender's block holds its message; a receiver's item still decodes to what was sent. */
  ghost predicate Honest(s: State, pr: Proc) {
    && |pr.msg.payload| <= s.size
    && (pr.filled ==> Filled(s, pr))
    && (pr.idx >= 0 ==> ItemCarries(s, pr.item, pr.idx) && pr.item.block == pr.blk && pr.idx < s.taken
                        && pr.idx !in s.delivered)
  }

  /** What is queued is what was sent and not yet taken, and what was delivered or peeked is what was sent. */
  ghost predicate Queued(s: State) {
    && s.taken + |s.ot| == |s.sent|
    && (forall i :: 0 <= i < |s.ot| ==> ItemCarries(s, s.ot[i], s.taken + i))
    && (forall k :: k in s.delivered ==> 0 <= k < s.taken && k < |s.sent| && s.delivered[k] == s.sent[k])
    && (forall i :: 0 <= i < |s.peeked| ==> s.peeked[i].0 < |s.sent| && s.peeked[i].1 == s.sent[s.peeked[i].0])
  }

  ghost predicate Faithful(s: State) {
    && Queued(s)
    && (forall p :: p in s.procs ==> Honest(s, s.procs[p]))
    && (forall p, q :: p in s.procs && q in s.procs && p != q && s.procs[p].idx >= 0 ==>
          s.procs[p].idx != s.procs[q].idx)
  }

  ghost predicate Inv(s: State) {
    Placed(s) && Control(s) && Counted(s) && Faithful(s)
  }

  // ---------------------------------------------------------------------------------------
  // Every step keeps every invariant
  // ---------------------------------------------------------------------------------------

  /** Only process p moved. */
  ghost predicate Only(s: State, s': State, p: Pid) {
    && p in s.procs && s'.procs.Keys == s.procs.Keys
    && forall q :: q in s.procs && q != p ==> s'.procs[q] == s.procs[q]
  }

  /** The locks and the bcasts change at most in what concerns p. */
  ghost predicate OwnBusiness(s: State, s': State, p: Pid) {
    && (s'.utLock == s.utLock || ((s.utLock.Ut? ==> s.utLock.p == p) && (s'.utLock.Ut? ==> s'.utLock.p == p)))
    && (s'.otLock == s.otLock || ((s.otLock.Ot? ==> s.otLock.p == p) && (s'.otLock.Ot? ==> s'.otLock.p == p)))
    && (s'.sendClean ==> s.sendClean)
    && s'.sendParked <= s'.procs.Keys && s'.recvParked <= s'.procs.Keys
    && s'.sendWoken <= s'.procs.Keys && s'.recvWoken <= s'.procs.Keys
    && forall q :: q != p ==>
         && (q in s'.sendParked <==> q in s.sendParked) && (q in s'.recvParked <==> q in s.recvParked)
         && (q in s'.sendWoken <==> q in s.sendWoken) && (q in s'.recvWoken <==> q in s.recvWoken)
  }

  lemma ControlMove(s: State, s': State, p: Pid)
    requires Control(s) && Only(s, s', p) && OwnBusiness(s, s', p) && OwnersOk(s') && ProcOk(s', p, s'.procs[p])
    ensures Control(s')
  {
    forall q | q in s'.procs ensures ProcOk(s', q, s'.procs[q]) {
      assert ProcOk(s, q, s.procs[q]);
    }
  }

  /** Everything but the contents of the blocks. */
  ghost predicate Steady(s: State) {
    Control(s) && Counted(s)
  }

  /** No block, message or item changed hands. */
  ghost predicate SameHands(s: State, s': State) {
    && s'.cap == s.cap && s'.size == s.size && s'.ut == s.ut && s'.ot == s.ot && s'.blocks == s.blocks
    && s'.place == s.place && s'.lost == s.lost
    && s'.sent == s.sent && s'.taken == s.taken && s'.delivered == s.delivered && s'.peeked == s.peeked
    && s'.procs.Keys == s.procs.Keys
    && forall q :: q in s.procs ==> SameLoad(s.procs[q], s'.procs[q], s.size)
  }

  ghost predicate SameLoad(pr: Proc, pr': Proc, size: nat) {
    && pr'.blk == pr.blk && pr'.idx == pr.idx && pr'.item == pr.item
    && (pr'.msg == pr.msg || |pr'.msg.payload| <= size)
    && (pr'.filled ==> pr.filled && pr'.msg == pr.msg)
  }

  lemma BeginSteady(s: State, s': State, p: Pid, l: Label, m: Message)
    requires p in s.procs && Steady(s) && Begin(s, s', p, l, m)
    ensures Steady(s') && SameHands(s, s')
  {
    assert ProcOk(s, p, s.procs[p]);
    ControlMove(s, s', p);
  }

  lemma TakeUtSteady(s: State, s': State, p: Pid)
    requires p in s.procs && Steady(s) && TakeUt(s, s', p)
    ensures Steady(s') && SameHands(s, s')
  {
    assert ProcOk(s, p, s.procs[p]);
    ControlMove(s, s', p);
  }

  lemma TakeOtSteady(s: State, s': State, p: Pid)
    requires p in s.procs && Steady(s) && TakeOt(s, s', p)
    ensures Steady(s') && SameHands(s, s')
  {
    assert ProcOk(s, p, s.procs[p]);
    ControlMove(s, s', p);
  }

  lemma SendFullSteady(s: State, s': State, p: Pid)
    requires p in s.procs && Steady(s) && SendFull(s, s', p)
    ensures Steady(s') && SameHands(s, s')
  {
    assert ProcOk(s, p, s.procs[p]);
    ControlMove(s, s', p);
  }

  lemma SendCountSteady(s: State, s': State, p: Pid)
    requires p in s.procs && Steady(s) && SendCount(s, s', p)
    ensures Steady(s') && SameHands(s, s')
  {
    assert ProcOk(s, p, s.procs[p]);
    ControlMove(s, s', p);
  }

  lemma LookSteady(s: State, s': State, p: Pid)
    requires p in s.procs && Steady(s) && Look(s, s', p)
    ensures Steady(s') && SameHands(s, s')
  {
    assert ProcOk(s, p, s.procs[p]);
    ControlMove(s, s', p);
  }

  lemma SendFailSteady(s: State, s': State, p: Pid)
    requires p in s.procs && Steady(s) && SendFail(s, s', p)
    ensures Steady(s') && SameHands(s, s')
  {
    assert ProcOk(s, p, s.procs[p]);
    ControlMove(s, s', p);
  }

  lemma SendOtCountSteady(s: State, s': State, p: Pid)
    requires p in s.procs && Steady(s) && SendOtCount(s, s', p)
    ensures Steady(s') && SameHands(s, s')
  {
    assert ProcOk(s, p, s.procs[p]);
    ControlMove(s, s', p);
  }

  lemma GiveUpSteady(s: State, s': State, p: Pid)
    requires p in s.procs && Steady(s) && GiveUp(s, s', p)
    ensures Steady(s') && SameHands(s, s')
  {
    assert ProcOk(s, p, s.procs[p]);
    ControlMove(s, s', p);
  }

  lemma SendParkSteady(s: State, s': State, p: Pid)
    requires p in s.procs && Steady(s) && SendPark(s, s', p)
    ensures Steady(s') && SameHands(s, s')
  {
    assert ProcOk(s, p, s.procs[p]);
    ControlMove(s, s', p);
  }

  lemma SendRetrySteady(s: State, s': State, p: Pid)
    requires p in s.procs && Steady(s) && SendRetry(s, s', p)
    ensures Steady(s') && SameHands(s, s')
  {
    assert ProcOk(s, p, s.procs[p]);
    ControlMove(s, s', p);
  }

  lemma RecvParkSteady(s: State, s': State, p: Pid)
    requires p in s.procs && Steady(s) && RecvPark(s, s', p)
    ensures Steady(s') && SameHands(s, s')
  {
    assert ProcOk(s, p, s.procs[p]);
    ControlMove(s, s', p);
  }

  lemma RecvRetrySteady(s: State, s': State, p: Pid)
    requires p in s.procs && Steady(s) && RecvRetry(s, s', p)
    ensures Steady(s') && SameHands(s, s')
  {
    assert ProcOk(s, p, s.procs[p]);
    ControlMove(s, s', p);
  }

  lemma GiveCountSteady(s: State, s': State, p: Pid)
    requires p in s.procs && Steady(s) && GiveCount(s, s', p)
    ensures Steady(s') && SameHands(s, s')
  {
    assert ProcOk(s, p, s.procs[p]);
    ControlMove(s, s', p);
  }

  lemma RecvEmptySteady(s: State, s': State, p: Pid)
    requires p in s.procs && Steady(s) && RecvEmpty(s, s', p)
    ensures Steady(s') && SameHands(s, s')
  {
    assert ProcOk(s, p, s.procs[p]);
    ControlMove(s, s', p);
  }

  lemma RecvRejectSteady(s: State, s': State, p: Pid)
    requires p in s.procs && Steady(s) && RecvReject(s, s', p)
    ensures Steady(s') && SameHands(s, s')
  {
    assert ProcOk(s, p, s.procs[p]);
    ControlMove(s, s', p);
  }

  lemma RecvCountSteady(s: State, s': State, p: Pid)
    requires p in s.procs && Steady(s) && RecvCount(s, s', p)
    ensures Steady(s') && SameHands(s, s')
  {
    assert ProcOk(s, p, s.procs[p]);
    ControlMove(s, s', p);
  }

  lemma SendFillSteady(s: State, s': State, p: Pid)
    requires p in s.procs && Steady(s) && SendFill(s, s', p)
    ensures Steady(s')
  {
    assert ProcOk(s, p, s.procs[p]);
    ControlMove(s, s', p);
  }

  lemma SendPopSteady(s: State, s': State, p: Pid)
    requires p in s.procs && Steady(s) && SendPop(s, s', p)
    ensures Steady(s')
  {
    assert ProcOk(s, p, s.procs[p]);
    ControlMove(s, s', p);
  }

  lemma SendInsertSteady(s: State, s': State, p: Pid)
    requires p in s.procs && Steady(s) && SendInsert(s, s', p)
    ensures Steady(s')
  {
    assert ProcOk(s, p, s.procs[p]);
    ControlMove(s, s', p);
  }

  lemma GiveBackSteady(s: State, s': State, p: Pid)
    requires p in s.procs && Steady(s) && GiveBack(s, s', p)
    ensures Steady(s')
  {
    assert ProcOk(s, p, s.procs[p]);
    ControlMove(s, s', p);
  }

  lemma RecvPopSteady(s: State, s': State, p: Pid, discard: bool)
    requires p in s.procs && Steady(s) && RecvPop(s, s', p, discard)
    ensures Steady(s')
  {
    assert ProcOk(s, p, s.procs[p]);
    ControlMove(s, s', p);
  }

  lemma RecvCopySteady(s: State, s': State, p: Pid)
    requires p in s.procs && Steady(s) && RecvCopy(s, s', p)
    ensures Steady(s')
  {
    assert ProcOk(s, p, s.procs[p]);
    ControlMove(s, s', p);
  }

  lemma PeekReadSteady(s: State, s': State, p: Pid)
    requires p in s.procs && Steady(s) && PeekRead(s, s', p)
    ensures Steady(s')
  {
    assert ProcOk(s, p, s.procs[p]);
    ControlMove(s, s', p);
  }

  lemma WakeSenderControl(s: State, q: Pid)
    requires Control(s)
    ensures Control(WakeSender(s, q)) && SameHands(s, WakeSender(s, q))
  {
    if q in s.sendParked {
      assert ProcOk(s, q, s.procs[q]);
      ControlMove(s, WakeSender(s, q), q);
    }
  }

  lemma WakeReceiverControl(s: State, q: Pid)
    requires Control(s)
    ensures Control(WakeReceiver(s, q)) && SameHands(s, WakeReceiver(s, q))
  {
    if q in s.recvParked {
      assert ProcOk(s, q, s.procs[q]);
      ControlMove(s, WakeReceiver(s, q), q);
    }
  }

  /** A process moves on after its trigger. */
  lemma ResumeControl(s: State, s': State, p: Pid)
    requires p in s.procs && Control(s)
    requires || (s.procs[p].at.STrig? && s' == s.(procs := To(s, p, SFill)))
             || (s.procs[p].at.RTrig? && s' == s.(procs := To(s, p, RCopy)))
    ensures Control(s') && SameHands(s, s')
  {
    assert ProcOk(s, p, s.procs[p]);
    ControlMove(s, s', p);
  }

  /** A process moves on after its trigger and gives up the lock. */
  lemma ReleaseControl(s: State, s': State, p: Pid)
    requires p in s.procs && Control(s)
    requires || (s.utLock == Ut(p, BTrig) && s' == s.(utLock := UtFree, procs := To(s, p, Idle)))
             || (s.otLock == Ot(p, SOtTrig) && s' == s.(otLock := OtFree, procs := To(s, p, Idle)))
    ensures Control(s') && SameHands(s, s')
  {
    assert ProcOk(s, p, s.procs[p]);
    ControlMove(s, s', p);
  }

  lemma SameHandsTrans(a: State, b: State, c: State)
    requires SameHands(a, b) && SameHands(b, c)
    ensures SameHands(a, c)
  {
    forall q | q in a.procs ensures SameLoad(a.procs[q], c.procs[q], a.size) {
      assert SameLoad(a.procs[q], b.procs[q], a.size) && SameLoad(b.procs[q], c.procs[q], b.size);
    }
  }

  lemma PopTriggerSteady(s: State, s': State, p: Pid, q: Pid)
    requires p in s.procs && Steady(s) && PopTrigger(s, s', p, q)
    ensures Steady(s') && SameHands(s, s')
  {
    WakeSenderControl(s, q);
    assert ProcOk(s, p, s.procs[p]);
    ResumeControl(WakeSender(s, q), s', p);
    SameHandsTrans(s, WakeSender(s, q), s');
  }

  lemma BackTriggerSteady(s: State, s': State, p: Pid, q: Pid)
    requires p in s.procs && Steady(s) && BackTrigger(s, s', p, q)
    ensures Steady(s') && SameHands(s, s')
  {
    WakeSenderControl(s, q);
    assert ProcOk(s, p, s.procs[p]);
    ReleaseControl(WakeSender(s, q), s', p);
    SameHandsTrans(s, WakeSender(s, q), s');
  }

  lemma TakeTriggerSteady(s: State, s': State, p: Pid, q: Pid)
    requires p in s.procs && Steady(s) && TakeTrigger(s, s', p, q)
    ensures Steady(s') && SameHands(s, s')
  {
    WakeReceiverControl(s, q);
    assert ProcOk(s, p, s.procs[p]);
    ResumeControl(WakeReceiver(s, q), s', p);
    SameHandsTrans(s, WakeReceiver(s, q), s');
  }

  lemma SendTriggerSteady(s: State, s': State, p: Pid, q: Pid)
    requires p in s.procs && Steady(s) && SendTrigger(s, s', p, q)
    ensures Steady(s') && SameHands(s, s')
  {
    WakeReceiverControl(s, q);
    assert ProcOk(s, p, s.procs[p]);
    ReleaseControl(WakeReceiver(s, q), s', p);
    SameHandsTrans(s, WakeReceiver(s, q), s');
  }

  // -- blocks -------------------------------------------------------------------------------

  lemma PlacedSame(s: State, s': State)
    requires Placed(s) && WellFormed(s')
    requires s'.cap == s.cap && s'.ut == s.ut && s'.ot == s.ot && s'.place == s.place && s'.lost == s.lost
    requires s'.procs.Keys == s.procs.Keys
    requires forall q :: q in s.procs ==> s'.procs[q].blk == s.procs[q].blk
    ensures Placed(s')
  {
  }

  lemma SendPopPlaced(s: State, s': State, p: Pid)
    requires p in s.procs && Placed(s) && OwnersOk(s) && SendPop(s, s', p)
    ensures Placed(s')
  {
    assert LostBlocks(s') == LostBlocks(s);
    assert s.ut[0] == s.ut[..1][0];
    forall b | 0 <= b < s.cap && s'.place[b] == InUT ensures b in s'.ut {
      assert b in s.ut;
    }
  }

  lemma GiveBackPlaced(s: State, s': State, p: Pid)
    requires p in s.procs && Placed(s) && GiveBack(s, s', p)
    ensures Placed(s')
  {
    assert LostBlocks(s') == LostBlocks(s);
    forall b | 0 <= b < s.cap && s'.place[b] == InUT ensures b in s'.ut {
      assert b == s.procs[p].blk || b in s.ut;
    }
  }

  lemma SendInsertOt(s: State, s': State, p: Pid)
    requires p in s.procs && WellFormed(s) && OtPlaced(s) && SendInsert(s, s', p)
    requires s.procs[p].blk < s.cap && s.place[s.procs[p].blk] == Held(p)
    ensures WellFormed(s') && OtPlaced(s')
  {
    forall b | 0 <= b < s.cap && s'.place[b] == InOT ensures exists i :: 0 <= i < |s'.ot| && s'.ot[i].block == b {
      if b == s.procs[p].blk {
        assert s'.ot[|s.ot|].block == b;
      } else {
        var i :| 0 <= i < |s.ot| && s.ot[i].block == b;
        assert s'.ot[i].block == b;
      }
    }
  }

  lemma SendInsertPlaced(s: State, s': State, p: Pid)
    requires p in s.procs && Placed(s) && SendInsert(s, s', p)
    ensures Placed(s')
  {
    SendInsertOt(s, s', p);
    assert LostBlocks(s') == LostBlocks(s);
    assert HandsPlaced(s');
  }

  lemma RecvPopOt(s: State, s': State, p: Pid, discard: bool)
    requires p in s.procs && WellFormed(s) && OtPlaced(s) && RecvPop(s, s', p, discard)
    ensures WellFormed(s') && OtPlaced(s')
  {
    forall b | 0 <= b < s.cap && s'.place[b] == InOT ensures exists i :: 0 <= i < |s'.ot| && s'.ot[i].block == b {
      var i :| 0 <= i < |s.ot| && s.ot[i].block == b;
      assert s'.ot[i - 1].block == b;
    }
  }

  lemma RecvPopPlaced(s: State, s': State, p: Pid, discard: bool)
    requires p in s.procs && Placed(s) && OwnersOk(s) && RecvPop(s, s', p, discard)
    ensures Placed(s')
  {
    RecvPopOt(s, s', p, discard);
    assert LostBlocks(s') == LostBlocks(s);
    assert HandsPlaced(s');
  }

  lemma SendFillPlaced(s: State, s': State, p: Pid)
    requires p in s.procs && Placed(s) && SendFill(s, s', p)
    ensures Placed(s')
  {
    PlacedSame(s, s');
  }

  lemma RecvCopyPlaced(s: State, s': State, p: Pid)
    requires p in s.procs && Placed(s) && RecvCopy(s, s', p)
    ensures Placed(s')
  {
    PlacedSame(s, s');
  }

  lemma PeekReadPlaced(s: State, s': State, p: Pid)
    requires p in s.procs && Placed(s) && PeekRead(s, s', p)
    ensures Placed(s')
  {
    PlacedSame(s, s');
  }

  /** A block that is dropped leaves the hands that held it and turns up nowhere else. */
  lemma LosePlaced(s: State, s': State, p: Pid)
    requires p in s.procs && Placed(s) && (SendLose(s, s', p) || RecvLose(s, s', p))
    ensures Placed(s')
  {
    var b := s.procs[p].blk;
    assert LostBlocks(s') == LostBlocks(s) + {b};
    assert UtPlaced(s');
    assert OtPlaced(s');
  }

  lemma LoseSteady(s: State, s': State, p: Pid)
    requires p in s.procs && Steady(s) && (SendLose(s, s', p) || RecvLose(s, s', p))
    ensures Steady(s')
  {
    assert ProcOk(s, p, s.procs[p]);
    ControlMove(s, s', p);
  }

  lemma LoseFaithful(s: State, s': State, p: Pid)
    requires p in s.procs && Faithful(s) && (SendLose(s, s', p) || RecvLose(s, s', p))
    ensures Faithful(s')
  {
    forall q | q in s'.procs ensures Honest(s', s'.procs[q]) {
      assert Honest(s, s.procs[q]);
    }
    forall i | 0 <= i < |s'.ot| ensures ItemCarries(s', s'.ot[i], s'.taken + i) {
      assert ItemCarries(s, s.ot[i], s.taken + i);
    }
  }

  // -- messages -----------------------------------------------------------------------------

  lemma FaithfulSame(s: State, s': State)
    requires Faithful(s) && SameHands(s, s')
    ensures Faithful(s')
  {
    forall q | q in s'.procs ensures Honest(s', s'.procs[q]) {
      assert Honest(s, s.procs[q]) && SameLoad(s.procs[q], s'.procs[q], s.size);
    }
    forall i | 0 <= i < |s'.ot| ensures ItemCarries(s', s'.ot[i], s'.taken + i) {
      assert ItemCarries(s, s.ot[i], s.taken + i);
    }
    assert forall q :: q in s.procs ==> SameLoad(s.procs[q], s'.procs[q], s.size);
  }

  /** Items survive as long as their block is not written and the history only grows. */
  lemma CarriesOn(s: State, s': State, it: Item, k: int)
    requires ItemCarries(s, it, k) && s.sent <= s'.sent
    requires |s'.blocks| == |s.blocks| && s'.blocks[it.block] == s.blocks[it.block]
    ensures ItemCarries(s', it, k)
  {
  }

  lemma SendPopFaithful(s: State, s': State, p: Pid)
    requires p in s.procs && Faithful(s) && OwnersOk(s) && SendPop(s, s', p)
    ensures Faithful(s')
  {
    forall q | q in s'.procs ensures Honest(s', s'.procs[q]) {
      assert Honest(s, s.procs[q]);
    }
    forall i | 0 <= i < |s'.ot| ensures ItemCarries(s', s'.ot[i], s'.taken + i) {
      assert ItemCarries(s, s.ot[i], s.taken + i);
    }
  }

  lemma GiveBackFaithful(s: State, s': State, p: Pid)
    requires p in s.procs && Faithful(s) && OwnersOk(s) && GiveBack(s, s', p)
    ensures Faithful(s')
  {
    forall q | q in s'.procs ensures Honest(s', s'.procs[q]) {
      assert Honest(s, s.procs[q]);
    }
    forall i | 0 <= i < |s'.ot| ensures ItemCarries(s', s'.ot[i], s'.taken + i) {
      assert ItemCarries(s, s.ot[i], s.taken + i);
    }
  }

  /** The block being filled is in one process's hands, so nobody else's message is in it. */
  lemma SendFillFaithful(s: State, s': State, p: Pid)
    requires p in s.procs && Placed(s) && Faithful(s) && ProcOk(s, p, s.procs[p]) && SendFill(s, s', p)
    ensures Faithful(s')
  {
    forall q | q in s'.procs ensures Honest(s', s'.procs[q]) {
      assert Honest(s, s.procs[q]);
      if q != p && s.procs[q].idx >= 0 {
        CarriesOn(s, s', s.procs[q].item, s.procs[q].idx);
      }
    }
    forall i | 0 <= i < |s'.ot| ensures ItemCarries(s', s'.ot[i], s'.taken + i) {
      assert ItemCarries(s, s.ot[i], s.taken + i);
      CarriesOn(s, s', s.ot[i], s.taken + i);
    }
  }

  lemma SendInsertFaithful(s: State, s': State, p: Pid)
    requires p in s.procs && Faithful(s) && OwnersOk(s) && SendInsert(s, s', p)
    ensures Faithful(s')
  {
    forall q | q in s'.procs ensures Honest(s', s'.procs[q]) {
      assert Honest(s, s.procs[q]);
      if s.procs[q].idx >= 0 {
        CarriesOn(s, s', s.procs[q].item, s.procs[q].idx);
      }
    }
    forall i | 0 <= i < |s'.ot| ensures ItemCarries(s', s'.ot[i], s'.taken + i) {
      if i < |s.ot| {
        assert ItemCarries(s, s.ot[i], s.taken + i);
        CarriesOn(s, s', s.ot[i], s.taken + i);
      } else {
        assert Honest(s, s.procs[p]);
      }
    }
  }

  lemma RecvPopFaithful(s: State, s': State, p: Pid, discard: bool)
    requires p in s.procs && Placed(s) && Faithful(s) && OwnersOk(s) && RecvPop(s, s', p, discard)
    ensures Faithful(s')
  {
    assert ItemCarries(s, s.ot[0], s.taken + 0);
    forall q | q in s'.procs ensures Honest(s', s'.procs[q]) {
      assert Honest(s, s.procs[q]);
    }
    forall i | 0 <= i < |s'.ot| ensures ItemCarries(s', s'.ot[i], s'.taken + i) {
      assert ItemCarries(s, s.ot[i + 1], s.taken + (i + 1));
    }
  }

  lemma RecvCopyFaithful(s: State, s': State, p: Pid)
    requires p in s.procs && Faithful(s) && ProcOk(s, p, s.procs[p]) && RecvCopy(s, s', p)
    ensures Faithful(s')
  {
    assert Honest(s, s.procs[p]);
    forall q | q in s'.procs ensures Honest(s', s'.procs[q]) {
      assert Honest(s, s.procs[q]);
    }
    forall i | 0 <= i < |s'.ot| ensures ItemCarries(s', s'.ot[i], s'.taken + i) {
      assert ItemCarries(s, s.ot[i], s.taken + i);
    }
  }

  lemma PeekReadFaithful(s: State, s': State, p: Pid)
    requires p in s.procs && Faithful(s) && PeekRead(s, s', p)
    ensures Faithful(s')
  {
    if s.ot == [] {
      FaithfulSame(s, s');
    } else {
      assert ItemCarries(s, s.ot[0], s.taken + 0);
      forall q | q in s'.procs ensures Honest(s', s'.procs[q]) {
        assert Honest(s, s.procs[q]);
      }
      forall i | 0 <= i < |s'.ot| ensures ItemCarries(s', s'.ot[i], s'.taken + i) {
        assert ItemCarries(s, s.ot[i], s.taken + i);
      }
    }
  }

  // ---------------------------------------------------------------------------------------
  // Block conservation
  // ---------------------------------------------------------------------------------------

  ghost function Holders(s: State): set<Pid> {
    set p | p in s.procs && s.procs[p].blk >= 0
  }

  ghost function BlocksOf(s: State, ps: set<Pid>): set<int>
    requires ps <= s.procs.Keys
  {
    set p | p in ps :: s.procs[p].blk
  }

  /** No two processes hold the same block. */
  lemma HoldersCard(s: State)
    requires WellFormed(s) && HandsPlaced(s)
    ensures |BlocksOf(s, Holders(s))| == |Holders(s)|
  {
    var blockOf := map p | p in Holders(s) :: s.procs[p].blk;
    assert blockOf.Keys == Holders(s);
    assert blockOf.Values == BlocksOf(s, Holders(s));
    InjectiveCard(blockOf);
  }

  ghost function OtBlocks(s: State): seq<nat> {
    seq(|s.ot|, i requires 0 <= i < |s.ot| => s.ot[i].block)
  }

  /** Every block is free, queued, in someone's hands or lost, and never two of these. */
  lemma EachBlockOnce(s: State, b: nat)
    requires Placed(s) && b < s.cap
    ensures b in s.ut <==> s.place[b] == InUT
    ensures b in OtBlocks(s) <==> s.place[b] == InOT
    ensures b in BlocksOf(s, Holders(s)) <==> s.place[b].Held?
    ensures b in LostBlocks(s) <==> s.place[b] == Lost
  {
    if s.place[b] == InOT {
      var i :| 0 <= i < |s.ot| && s.ot[i].block == b;
      assert OtBlocks(s)[i] == b;
    } else if s.place[b].Held? {
      assert s.place[b].holder in Holders(s);
    }
  }

  /** What is free, queued, in hands and lost adds up to the capacity. */
  lemma BlocksConserved(s: State)
    requires Placed(s)
    ensures |s.ut| + |s.ot| + |Holders(s)| + s.lost == s.cap
  {
    HoldersCard(s);
    var held, gone := BlocksOf(s, Holders(s)), LostBlocks(s);
    forall x: nat | x < s.cap
      ensures x in s.ut <==> s.place[x] == InUT
      ensures x in OtBlocks(s) <==> s.place[x] == InOT
      ensures x in held <==> s.place[x].Held?
      ensures x in gone <==> s.place[x] == Lost
    {
      EachBlockOnce(s, x);
    }
    assert held !! gone;
    assert |held + gone| == |held| + |gone|;
    SharesCard(s.ut, OtBlocks(s), held + gone, s.cap);
  }

  /** A process about to insert holds a block, so the OT cannot hold all of them: the heap-full branch is dead. */
  lemma OtNeverFull(s: State, p: Pid)
    requires Placed(s) && OwnersOk(s) && s.otLock == Ot(p, SOt)
    ensures |s.ot| < s.cap
  {
    BlocksConserved(s);
    assert p in Holders(s);
  }

  // ---------------------------------------------------------------------------------------
  // All runs
  // ---------------------------------------------------------------------------------------

  lemma InitInv(s: State)
    requires Init(s)
    ensures Inv(s)
  {
    forall b | 0 <= b < s.cap ensures b in s.ut {
      assert s.ut[b] == b;
    }
  }

  lemma QuietInv(s: State, s': State)
    requires Placed(s) && Faithful(s) && Steady(s') && SameHands(s, s')
    ensures Inv(s')
  {
    assert forall q :: q in s.procs ==> SameLoad(s.procs[q], s'.procs[q], s.size);
    PlacedSame(s, s');
    FaithfulSame(s, s');
  }

  predicate Loses(a: Action) {
    a.ASendLose? || a.ARecvLose?
  }

  predicate MovesData(a: Action) {
    a.ASendPop? || a.AGiveBack? || a.ASendFill? || a.ASendInsert? || a.ARecvPop? || a.ARecvCopy? || a.APeekRead?
    || Loses(a)
  }

  lemma SendPopInv(s: State, s': State, p: Pid)
    requires Inv(s) && p in s.procs && SendPop(s, s', p)
    ensures Inv(s')
  {
    SendPopSteady(s, s', p);
    SendPopPlaced(s, s', p);
    SendPopFaithful(s, s', p);
  }

  lemma GiveBackInv(s: State, s': State, p: Pid)
    requires Inv(s) && p in s.procs && GiveBack(s, s', p)
    ensures Inv(s')
  {
    GiveBackSteady(s, s', p);
    GiveBackPlaced(s, s', p);
    GiveBackFaithful(s, s', p);
  }

  lemma SendFillInv(s: State, s': State, p: Pid)
    requires Inv(s) && p in s.procs && SendFill(s, s', p)
    ensures Inv(s')
  {
    SendFillSteady(s, s', p);
    SendFillPlaced(s, s', p);
    SendFillFaithful(s, s', p);
  }

  lemma SendInsertInv(s: State, s': State, p: Pid)
    requires Inv(s) && p in s.procs && SendInsert(s, s', p)
    ensures Inv(s')
  {
    SendInsertSteady(s, s', p);
    SendInsertPlaced(s, s', p);
    SendInsertFaithful(s, s', p);
  }

  lemma RecvPopInv(s: State, s': State, p: Pid, discard: bool)
    requires Inv(s) && p in s.procs && RecvPop(s, s', p, discard)
    ensures Inv(s')
  {
    RecvPopSteady(s, s', p, discard);
    RecvPopPlaced(s, s', p, discard);
    RecvPopFaithful(s, s', p, discard);
  }

  lemma RecvCopyInv(s: State, s': State, p: Pid)
    requires Inv(s) && p in s.procs && RecvCopy(s, s', p)
    ensures Inv(s')
  {
    RecvCopySteady(s, s', p);
    RecvCopyPlaced(s, s', p);
    RecvCopyFaithful(s, s', p);
  }

  lemma PeekReadInv(s: State, s': State, p: Pid)
    requires Inv(s) && p in s.procs && PeekRead(s, s', p)
    ensures Inv(s')
  {
    PeekReadSteady(s, s', p);
    PeekReadPlaced(s, s', p);
    PeekReadFaithful(s, s', p);
  }

  lemma LoseInv(s: State, s': State, p: Pid)
    requires Inv(s) && p in s.procs && (SendLose(s, s', p) || RecvLose(s, s', p))
    ensures Inv(s')
  {
    LoseSteady(s, s', p);
    LosePlaced(s, s', p);
    LoseFaithful(s, s', p);
  }

  lemma DataStepInv(s: State, s': State, p: Pid, a: Action)
    requires Inv(s) && Step(s, s', p, a) && MovesData(a)
    ensures Inv(s')
  {
    if Loses(a) { LoseStepInv(s, s', p, a); }
    else if a.ASendInsert? || a.ARecvPop? || a.ARecvCopy? || a.APeekRead? { OtStepInv(s, s', p, a); }
    else { UtStepInv(s, s', p, a); }
  }

  lemma LoseStepInv(s: State, s': State, p: Pid, a: Action)
    requires Inv(s) && Step(s, s', p, a) && Loses(a)
    ensures Inv(s')
  {
    LoseInv(s, s', p);
  }

  lemma UtStepInv(s: State, s': State, p: Pid, a: Action)
    requires Inv(s) && Step(s, s', p, a) && (a.ASendPop? || a.AGiveBack? || a.ASendFill?)
    ensures Inv(s')
  {
    if a.ASendPop? { SendPopInv(s, s', p); }
    else if a.AGiveBack? { GiveBackInv(s, s', p); }
    else { SendFillInv(s, s', p); }
  }

  lemma OtStepInv(s: State, s': State, p: Pid, a: Action)
    requires Inv(s) && Step(s, s', p, a) && (a.ASendInsert? || a.ARecvPop? || a.ARecvCopy? || a.APeekRead?)
    ensures Inv(s')
  {
    if a.ASendInsert? { SendInsertInv(s, s', p); }
    else if a.ARecvPop? { RecvPopInv(s, s', p, a.discard); }
    else { ReadStepInv(s, s', p, a); }
  }

  lemma ReadStepInv(s: State, s': State, p: Pid, a: Action)
    requires Inv(s) && Step(s, s', p, a) && (a.ARecvCopy? || a.APeekRead?)
    ensures Inv(s')
  {
    if a.ARecvCopy? { RecvCopyInv(s, s', p); } else { PeekReadInv(s, s', p); }
  }

  lemma QuietStep(s: State, s': State, p: Pid, a: Action)
    requires Steady(s) && Step(s, s', p, a) && !MovesData(a) && !a.ASendHeapFull?
    ensures Steady(s') && SameHands(s, s')
  {
    match a
    case ABegin(l, m) => BeginSteady(s, s', p, l, m);
    case ATakeUt => TakeUtSteady(s, s', p);
    case ATakeOt => TakeOtSteady(s, s', p);
    case ASendFull => SendFullSteady(s, s', p);
    case ASendCount => SendCountSteady(s, s', p);
    case ALook => LookSteady(s, s', p);
    case APopTrigger(q) => PopTriggerSteady(s, s', p, q);
    case ABackTrigger(q) => BackTriggerSteady(s, s', p, q);
    case ATakeTrigger(q) => TakeTriggerSteady(s, s', p, q);
    case ASendTrigger(q) => SendTriggerSteady(s, s', p, q);
    case ASendFail => SendFailSteady(s, s', p);
    case ASendOtCount => SendOtCountSteady(s, s', p);
    case AGiveUp => GiveUpSteady(s, s', p);
    case ASendPark => SendParkSteady(s, s', p);
    case ASendRetry => SendRetrySteady(s, s', p);
    case ARecvPark => RecvParkSteady(s, s', p);
    case ARecvRetry => RecvRetrySteady(s, s', p);
    case AGiveCount => GiveCountSteady(s, s', p);
    case ARecvEmpty => RecvEmptySteady(s, s', p);
    case ARecvReject => RecvRejectSteady(s, s', p);
    case ARecvCount => RecvCountSteady(s, s', p);
  }

  lemma StepInv(s: State, s': State, p: Pid, a: Action)
    requires Inv(s) && Step(s, s', p, a)
    ensures Inv(s') && !a.ASendHeapFull?
  {
    if a.ASendHeapFull? {
      OtNeverFull(s, p);
    } else if MovesData(a) {
      DataStepInv(s, s', p, a);
    } else {
      QuietStep(s, s', p, a);
      QuietInv(s, s');
    }
  }

  /** Every state of every run satisfies the invariant. */
  lemma {:induction false} RunInv(ss: seq<State>, es: seq<Event>, n: nat)
    requires Run(ss, es) && n < |ss|
    ensures Inv(ss[n])
    decreases n
  {
    if n == 0 {
      RunInit(ss, es);
    } else {
      RunInv(ss, es, n - 1);
      RunStepInv(ss, es, n);
    }
  }

  lemma RunInit(ss: seq<State>, es: seq<Event>)
    requires Run(ss, es)
    ensures Inv(ss[0])
  {
    InitInv(ss[0]);
  }

  lemma RunStepInv(ss: seq<State>, es: seq<Event>, n: nat)
    requires Run(ss, es) && 0 < n < |ss| && Inv(ss[n - 1])
    ensures Inv(ss[n])
  {
    RunStep(ss, es, n - 1);
    StepInv(ss[n - 1], ss[n], es[n - 1].p, es[n - 1].a);
  }

  lemma RunStep(ss: seq<State>, es: seq<Event>, n: nat)
    requires Run(ss, es) && n < |es|
    ensures Step(ss[n], ss[n + 1], es[n].p, es[n].a)
  {
  }

  // ---------------------------------------------------------------------------------------
  // Theorems
  // ---------------------------------------------------------------------------------------

  /** The queue a channel stands for: its OT items, each decoded from its block. */
  ghost function Queue(s: State): seq<Message>
    requires Queued(s)
  {
    seq(|s.ot|, i requires 0 <= i < |s.ot| && ItemCarries(s, s.ot[i], s.taken + i) => Decode(s.blocks, s.ot[i]))
  }

  lemma QueueIsUntaken(s: State)
    requires Queued(s)
    ensures Queue(s) == s.sent[s.taken..]
  {
    forall i | 0 <= i < |s.ot| ensures Queue(s)[i] == s.sent[s.taken + i] {
      assert ItemCarries(s, s.ot[i], s.taken + i);
    }
  }

  predicate UtSide(a: Action) {
    || a.ATakeUt? || a.ASendFull? || a.ASendPop? || a.ASendCount? || a.APopTrigger? || a.ABackTrigger? || a.AGiveUp?
    || a.ASendPark? || a.ASendRetry? || a.AGiveBack? || a.AGiveCount?
  }

  predicate OtSide(a: Action) {
    || a.ATakeOt? || a.ASendInsert? || a.ASendHeapFull? || a.ASendOtCount? || a.ATakeTrigger? || a.ASendTrigger?
    || a.AGiveUp?
    || a.ARecvPark? || a.ARecvRetry? || a.ARecvEmpty? || a.ARecvReject? || a.ARecvPop? || a.ARecvCount? || a.APeekRead?
  }

  predicate Wakes(a: Action) {
    a.APopTrigger? || a.ABackTrigger? || a.ATakeTrigger? || a.ASendTrigger?
  }

  /** What a step adds to the history. */
  ghost predicate Recorded(s: State, s': State, p: Pid, a: Action) {
    && p in s.procs && s'.procs.Keys == s.procs.Keys && s'.cap == s.cap
    && (s'.sendClean <==> s.sendClean && !a.ASendFail? && !a.ASendHeapFull?)
    && s'.lost == (if Loses(a) then s.lost + 1 else s.lost)
    && s'.taken == (if a.ARecvPop? then s.taken + 1 else s.taken)
    && s'.sent == (if a.ASendInsert? then s.sent + [s.procs[p].msg] else s.sent)
    && (a.ARecvPop? ==> s.ot != [] && p in s'.procs && s'.procs[p].item == s.ot[0])
  }

  lemma HistoryOt(s: State, s': State, p: Pid, a: Action)
    requires Step(s, s', p, a) && OtSide(a) && !Wakes(a)
    ensures Recorded(s, s', p, a)
  {
  }

  lemma HistoryUt(s: State, s': State, p: Pid, a: Action)
    requires Step(s, s', p, a) && UtSide(a) && !Wakes(a)
    ensures Recorded(s, s', p, a)
  {
  }

  lemma HistoryWake(s: State, s': State, p: Pid, a: Action)
    requires Step(s, s', p, a) && Wakes(a)
    ensures Recorded(s, s', p, a)
  {
  }

  lemma HistoryFree(s: State, s': State, p: Pid, a: Action)
    requires Step(s, s', p, a) && !OtSide(a) && !UtSide(a)
    ensures Recorded(s, s', p, a)
  {
  }

  lemma HistoryStep(s: State, s': State, p: Pid, a: Action)
    requires Step(s, s', p, a)
    ensures Recorded(s, s', p, a)
  {
    if Wakes(a) { HistoryWake(s, s', p, a); }
    else if OtSide(a) { HistoryOt(s, s', p, a); }
    else if UtSide(a) { HistoryUt(s, s', p, a); }
    else { HistoryFree(s, s', p, a); }
  }

  lemma QueueAfter(s: State, s': State, p: Pid, a: Action)
    requires Queued(s) && Queued(s') && p in s.procs
    requires s'.taken == if a.ARecvPop? then s.taken + 1 else s.taken
    requires s'.sent == if a.ASendInsert? then s.sent + [s.procs[p].msg] else s.sent
    requires a.ARecvPop? ==> s.ot != [] && p in s'.procs && s'.procs[p].item == s.ot[0]
    ensures a.ASendInsert? ==> Queue(s') == Queue(s) + [s.procs[p].msg]
    ensures a.ARecvPop? ==> Readable(s.blocks, s'.procs[p].item)
                            && Queue(s) == [Decode(s.blocks, s'.procs[p].item)] + Queue(s')
    ensures !a.ASendInsert? && !a.ARecvPop? ==> Queue(s') == Queue(s)
  {
    QueueIsUntaken(s);
    QueueIsUntaken(s');
    if a.ARecvPop? {
      assert ItemCarries(s, s.ot[0], s.taken + 0);
    }
  }

  lemma QueueStep(s: State, s': State, p: Pid, a: Action)
    requires Queued(s) && Queued(s') && Step(s, s', p, a)
    ensures a.ASendInsert? ==> Queue(s') == Queue(s) + [s.procs[p].msg]
    ensures a.ARecvPop? ==> p in s'.procs && Readable(s.blocks, s'.procs[p].item)
                            && Queue(s) == [Decode(s.blocks, s'.procs[p].item)] + Queue(s')
    ensures !a.ASendInsert? && !a.ARecvPop? ==> Queue(s') == Queue(s)
  {
    HistoryStep(s, s', p, a);
    QueueAfter(s, s', p, a);
  }

  /** A channel refines a bounded FIFO queue: the OT insert enqueues the sender's message, the OT pop dequeues the
      oldest one into the receiver's hands, and no other step of any process changes the queue. */
  lemma StepRefinesQueue(s: State, s': State, p: Pid, a: Action)
    requires Inv(s) && Step(s, s', p, a)
    ensures Inv(s') && |Queue(s')| <= s'.cap
    ensures a.ASendInsert? ==> Queue(s') == Queue(s) + [s.procs[p].msg]
    ensures a.ARecvPop? ==> p in s'.procs && Readable(s.blocks, s'.procs[p].item)
                            && Queue(s) == [Decode(s.blocks, s'.procs[p].item)] + Queue(s')
    ensures !a.ASendInsert? && !a.ARecvPop? ==> Queue(s') == Queue(s)
  {
    StepInv(s, s', p, a);
    BlocksConserved(s');
    QueueStep(s, s', p, a);
  }

  /** In every run: messages are taken in the order they were inserted, what is left is queued,
      and a receiver (or a peek) gets exactly the bytes and words its sender handed over. */
  lemma FifoDelivery(ss: seq<State>, es: seq<Event>, n: nat)
    requires Run(ss, es) && n < |ss|
    ensures var s := ss[n];
            && Queued(s) && s.taken <= |s.sent| && Queue(s) == s.sent[s.taken..] && |Queue(s)| <= s.cap
            && (forall k :: k in s.delivered ==> 0 <= k < s.taken && s.delivered[k] == s.sent[k])
            && (forall i :: 0 <= i < |s.peeked| ==> s.peeked[i].0 < |s.sent| && s.peeked[i].1 == s.sent[s.peeked[i].0])
  {
    RunInv(ss, es, n);
    QueueIsUntaken(ss[n]);
    BlocksConserved(ss[n]);
  }

  /** In every run, a message is copied out at most once, and by the process that popped it. */
  lemma DeliveredOnce(ss: seq<State>, es: seq<Event>, n: nat)
    requires Run(ss, es) && n < |es| && es[n].a.ARecvCopy?
    ensures es[n].p in ss[n].procs && ss[n].procs[es[n].p].idx !in ss[n].delivered
  {
    RunInv(ss, es, n);
    assert Step(ss[n], ss[n + 1], es[n].p, es[n].a);
    assert ProcOk(ss[n], es[n].p, ss[n].procs[es[n].p]) && Honest(ss[n], ss[n].procs[es[n].p]);
  }

  lemma OtFullIff(s: State)
    requires Placed(s) && OwnersOk(s)
    ensures |s.ot| == s.cap <==> forall b :: 0 <= b < s.cap ==> b in OtBlocks(s)
  {
    FullIff(OtBlocks(s), s.cap);
  }

  /** In every run: blocks are conserved, and with the locks free the counters are exact,
      so the checks for an empty and for a full channel mean what they say. */
  lemma CountersMeanWhatTheySay(ss: seq<State>, es: seq<Event>, n: nat)
    requires Run(ss, es) && n < |ss|
    ensures var s := ss[n];
            && |s.ut| + |s.ot| + |Holders(s)| + s.lost == s.cap
            && (s.utLock.UtFree? ==> s.availBlocks == |s.ut|
                                     && (s.availBlocks == s.cap <==> s.ot == [] && Holders(s) == {} && s.lost == 0))
            && (s.otLock.OtFree? ==> s.availMsgs == |s.ot|
                                     && (s.availMsgs == s.cap <==> forall b :: 0 <= b < s.cap ==> b in OtBlocks(s)))
  {
    RunInv(ss, es, n);
    var s := ss[n];
    BlocksConserved(s);
    OtFullIff(s);
  }

  // ---------------------------------------------------------------------------------------
  // Calls
  // ---------------------------------------------------------------------------------------

  /** What a process carries: nothing but its own begin changes its message, and nothing but its own pop its item. */
  ghost predicate Carries(s: State, s': State, q: Pid, a: Action, p: Pid) {
    && p in s.procs && p in s'.procs
    && (!(q == p && a.ABegin?) ==> s'.procs[p].msg == s.procs[p].msg)
    && (!(q == p && a.ARecvPop?) ==>
          s'.procs[p].idx == -1 || (s'.procs[p].idx == s.procs[p].idx && s'.procs[p].discard == s.procs[p].discard))
  }

  lemma CarriesOt(s: State, s': State, q: Pid, a: Action, p: Pid)
    requires Step(s, s', q, a) && OtSide(a) && !Wakes(a) && p in s.procs
    ensures Carries(s, s', q, a, p)
  {
  }

  lemma CarriesUt(s: State, s': State, q: Pid, a: Action, p: Pid)
    requires Step(s, s', q, a) && UtSide(a) && !Wakes(a) && p in s.procs
    ensures Carries(s, s', q, a, p)
  {
  }

  lemma CarriesWake(s: State, s': State, q: Pid, a: Action, p: Pid)
    requires Step(s, s', q, a) && Wakes(a) && p in s.procs
    ensures Carries(s, s', q, a, p)
  {
  }

  lemma CarriesFree(s: State, s': State, q: Pid, a: Action, p: Pid)
    requires Step(s, s', q, a) && !OtSide(a) && !UtSide(a) && p in s.procs
    ensures Carries(s, s', q, a, p)
  {
  }

  lemma CarriesStep(ss: seq<State>, es: seq<Event>, n: nat, p: Pid)
    requires Run(ss, es) && 0 < n < |ss| && p in ss[n - 1].procs
    ensures Carries(ss[n - 1], ss[n], es[n - 1].p, es[n - 1].a, p)
  {
    RunStep(ss, es, n - 1);
    var a := es[n - 1].a;
    if Wakes(a) { CarriesWake(ss[n - 1], ss[n], es[n - 1].p, a, p); }
    else if OtSide(a) { CarriesOt(ss[n - 1], ss[n], es[n - 1].p, a, p); }
    else if UtSide(a) { CarriesUt(ss[n - 1], ss[n], es[n - 1].p, a, p); }
    else { CarriesFree(ss[n - 1], ss[n], es[n - 1].p, a, p); }
  }

  /** Process p begins no call in events i + 1 to n - 1. */
  predicate NoBegin(es: seq<Event>, p: Pid, i: nat, n: nat) {
    forall k :: i < k < n && k < |es| && es[k].p == p ==> !es[k].a.ABegin?
  }

  predicate NoPop(es: seq<Event>, p: Pid, i: nat, n: nat) {
    forall k :: i < k < n && k < |es| && es[k].p == p ==> !es[k].a.ARecvPop?
  }

  lemma {:induction false} MessageKept(ss: seq<State>, es: seq<Event>, i: nat, n: nat, p: Pid, l: Label, m: Message)
    requires Run(ss, es) && i < n < |ss| && es[i] == Event(p, ABegin(l, m)) && NoBegin(es, p, i, n)
    ensures p in ss[n].procs && ss[n].procs[p].msg == m
    decreases n
  {
    if n == i + 1 {
      RunStep(ss, es, i);
    } else {
      MessageKept(ss, es, i, n - 1, p, l, m);
      CarriesStep(ss, es, n, p);
    }
  }

  /** What a send puts in the queue is the message the call was given. */
  lemma SentIsGiven(ss: seq<State>, es: seq<Event>, i: nat, n: nat, p: Pid, m: Message)
    requires Run(ss, es) && i < n < |es| && NoBegin(es, p, i, n)
    requires es[i] == Event(p, ABegin(SWant, m)) && es[n] == Event(p, ASendInsert)
    ensures ss[n + 1].sent == ss[n].sent + [m]
    ensures Queued(ss[n]) && Queued(ss[n + 1]) && Queue(ss[n + 1]) == Queue(ss[n]) + [m]
  {
    MessageKept(ss, es, i, n, p, SWant, m);
    RunInv(ss, es, n);
    RunStep(ss, es, n);
    StepRefinesQueue(ss[n], ss[n + 1], p, ASendInsert);
    HistoryStep(ss[n], ss[n + 1], p, ASendInsert);
  }

  lemma {:induction false} ItemKept(ss: seq<State>, es: seq<Event>, i: nat, n: nat, p: Pid, d: bool)
    requires Run(ss, es) && i < n < |ss| && es[i] == Event(p, ARecvPop(d)) && NoPop(es, p, i, n)
    ensures p in ss[n].procs
    ensures ss[n].procs[p].idx == -1 || (ss[n].procs[p].idx == ss[i].taken && ss[n].procs[p].discard == d)
    decreases n
  {
    if n == i + 1 {
      RunStep(ss, es, i);
    } else {
      ItemKept(ss, es, i, n - 1, p, d);
      CarriesStep(ss, es, n, p);
    }
  }

  lemma CopyStep(s: State, s': State, p: Pid)
    requires Inv(s) && p in s.procs && RecvCopy(s, s', p)
    ensures 0 <= s.procs[p].idx < |s.sent|
    ensures s.procs[p].idx in s'.delivered <==> !s.procs[p].discard
    ensures !s.procs[p].discard ==> s'.delivered == s.delivered[s.procs[p].idx := s.sent[s.procs[p].idx]]
    ensures s.procs[p].discard ==> s'.delivered == s.delivered
  {
    assert ProcOk(s, p, s.procs[p]) && Honest(s, s.procs[p]);
  }

  /** A receive hands out the message it popped, as it was sent; a message that is to be discarded is not handed out. */
  lemma DeliveredIsPopped(ss: seq<State>, es: seq<Event>, i: nat, n: nat, p: Pid, d: bool)
    requires Run(ss, es) && i < n < |es| && NoPop(es, p, i, n)
    requires es[i] == Event(p, ARecvPop(d)) && es[n] == Event(p, ARecvCopy)
    ensures ss[i].taken < |ss[n].sent| && (ss[i].taken in ss[n + 1].delivered <==> !d)
    ensures !d ==> ss[n + 1].delivered == ss[n].delivered[ss[i].taken := ss[n].sent[ss[i].taken]]
    ensures d ==> ss[n + 1].delivered == ss[n].delivered
  {
    ItemKept(ss, es, i, n, p, d);
    RunInv(ss, es, n);
    RunStep(ss, es, n);
    CopyStep(ss[n], ss[n + 1], p);
  }

  lemma {:induction false} SentGrows(ss: seq<State>, es: seq<Event>, m: nat, n: nat)
    requires Run(ss, es) && m <= n < |ss|
    ensures ss[m].sent <= ss[n].sent
    decreases n
  {
    if m < n {
      SentGrows(ss, es, m, n - 1);
      RunStep(ss, es, n - 1);
      HistoryStep(ss[n - 1], ss[n], es[n - 1].p, es[n - 1].a);
    }
  }

  /**
   From end to end: the receive that takes the place in the queue into which a send has put its message
   hands out what the call of that send was given.
   */
  lemma EndToEnd(ss: seq<State>, es: seq<Event>, i: nat, n: nat, p: Pid, m: Message, j: nat, k: nat, q: Pid)
    requires Run(ss, es) && i < n < |es| && NoBegin(es, p, i, n)
    requires es[i] == Event(p, ABegin(SWant, m)) && es[n] == Event(p, ASendInsert)
    requires j < k < |es| && NoPop(es, q, j, k)
    requires es[j] == Event(q, ARecvPop(false)) && es[k] == Event(q, ARecvCopy) && ss[j].taken == |ss[n].sent|
    ensures ss[j].taken in ss[k + 1].delivered && ss[k + 1].delivered[ss[j].taken] == m
  {
    SentIsGiven(ss, es, i, n, p, m);
    DeliveredIsPopped(ss, es, j, k, q, false);
    if k <= n { SentGrows(ss, es, k, n); } else { SentGrows(ss, es, n + 1, k); }
  }

  /** A peek gets the oldest message, or finds the queue empty, and takes nothing. */
  lemma PeekIsFront(ss: seq<State>, es: seq<Event>, n: nat)
    requires Run(ss, es) && n < |es| && es[n].a.APeekRead?
    ensures Queued(ss[n]) && Queued(ss[n + 1]) && Queue(ss[n + 1]) == Queue(ss[n])
    ensures ss[n + 1].peeked == if Queue(ss[n]) == [] then ss[n].peeked
                                else ss[n].peeked + [(ss[n].taken, Queue(ss[n])[0])]
  {
    RunInv(ss, es, n);
    RunStep(ss, es, n);
    StepRefinesQueue(ss[n], ss[n + 1], es[n].p, APeekRead);
  }

  // ---------------------------------------------------------------------------------------
  // How calls end
  // ---------------------------------------------------------------------------------------

  /** Where a process is, under a lock or outside. */
  datatype Spot = At(l: Label) | UnderUt(u: UtPoint) | UnderOt(o: OtPoint)

  function SpotOf(s: State, p: Pid): Spot
    requires p in s.procs
  {
    if s.procs[p].at.InUt? && s.utLock.Ut? then UnderUt(s.utLock.at)
    else if s.procs[p].at.InOt? && s.otLock.Ot? then UnderOt(s.otLock.at)
    else At(s.procs[p].at)
  }

  predicate SendSpot(x: Spot) {
    match x
    case At(l) => l.SWant? || l.SLook? || l.STrig? || l.SFill? || l.SPut? || l.SFull? || l.SParked? || l.FWant?
    case UnderUt(u) => u.SIn? || u.SPop? || u.SCheck? || u.FIn? || u.FCount?
    case UnderOt(o) => o.SOt? || o.SOtCount? || o.SOtTrig?
  }

  predicate RecvSpot(x: Spot) {
    match x
    case At(l) => l.RWant? || l.RLook? || l.RTrig? || l.RCopy? || l.REmpty? || l.RParked? || l.BWant?
    case UnderUt(u) => u.BIn? || u.BCount? || u.BTrig?
    case UnderOt(o) => o.RIn? || o.RPop? || o.RCheck?
  }

  predicate PeekSpot(x: Spot) {
    x == At(PWant) || x == UnderOt(PIn)
  }

  /** The send has queued its message. */
  predicate IsPut(x: Spot) {
    x == UnderOt(SOtCount) || x == UnderOt(SOtTrig)
  }

  /** The receive has its message out of its block. */
  predicate IsCopied(x: Spot) {
    x.UnderUt? || x == At(BWant)
  }

  /** The receive has popped a message. */
  predicate IsPopped(x: Spot) {
    IsCopied(x) || x == UnderOt(RPop) || x == At(RLook) || x == At(RTrig) || x == At(RCopy)
  }

  /** Somebody else's step: all it can do to p is wake it. */
  ghost predicate Bystands(s: State, s': State, p: Pid) {
    && p in s.procs && p in s'.procs
    && (|| SpotOf(s', p) == SpotOf(s, p)
        || (SpotOf(s, p) == At(SParked) && SpotOf(s', p) == At(SWant))
        || (SpotOf(s, p) == At(RParked) && SpotOf(s', p) == At(RWant)))
  }

  lemma BystandsOt(s: State, s': State, q: Pid, a: Action, p: Pid)
    requires Step(s, s', q, a) && OtSide(a) && !Wakes(a) && p in s.procs && p != q && ProcOk(s, p, s.procs[p])
    ensures Bystands(s, s', p)
  {
  }

  lemma BystandsUt(s: State, s': State, q: Pid, a: Action, p: Pid)
    requires Step(s, s', q, a) && UtSide(a) && !Wakes(a) && p in s.procs && p != q && ProcOk(s, p, s.procs[p])
    ensures Bystands(s, s', p)
  {
  }

  lemma BystandsWake(s: State, s': State, q: Pid, a: Action, p: Pid)
    requires Step(s, s', q, a) && Wakes(a) && p in s.procs && p != q && ProcOk(s, p, s.procs[p])
    ensures Bystands(s, s', p)
  {
  }

  lemma BystandsFree(s: State, s': State, q: Pid, a: Action, p: Pid)
    requires Step(s, s', q, a) && !OtSide(a) && !UtSide(a) && p in s.procs && p != q && ProcOk(s, p, s.procs[p])
    ensures Bystands(s, s', p)
  {
  }

  lemma Bystander(s: State, s': State, q: Pid, a: Action, p: Pid)
    requires Step(s, s', q, a) && p in s.procs && p != q && ProcOk(s, p, s.procs[p])
    ensures Bystands(s, s', p)
  {
    if Wakes(a) { BystandsWake(s, s', q, a, p); }
    else if OtSide(a) { BystandsOt(s, s', q, a, p); }
    else if UtSide(a) { BystandsUt(s, s', q, a, p); }
    else { BystandsFree(s, s', q, a, p); }
  }

  /** The flow of control: action a takes a process from x to y. */
  predicate Flow(x: Spot, a: Action, y: Spot) {
    match a
    case ABegin(l, m) => x == At(Idle) && (l.SWant? || l.RWant? || l.PWant?) && y == At(l)
    case ATakeUt =>
      || (x == At(SWant) && y == UnderUt(SIn)) || (x == At(SFull) && y == UnderUt(SCheck))
      || (x == At(FWant) && y == UnderUt(FIn)) || (x == At(BWant) && y == UnderUt(BIn))
    case ATakeOt =>
      || (x == At(SPut) && y == UnderOt(SOt)) || (x == At(RWant) && y == UnderOt(RIn))
      || (x == At(REmpty) && y == UnderOt(RCheck)) || (x == At(PWant) && y == UnderOt(PIn))
    case ASendFull => x == UnderUt(SIn) && y == At(SFull)
    case ASendPop => x == UnderUt(SIn) && y == UnderUt(SPop)
    case ASendCount => x == UnderUt(SPop) && y == At(SLook)
    case ALook =>
      || (x == At(SLook) && (y == At(STrig) || y == At(SFill)))
      || (x == At(RLook) && (y == At(RTrig) || y == At(RCopy)))
    case APopTrigger(_) => x == At(STrig) && y == At(SFill)
    case ABackTrigger(_) => x == UnderUt(BTrig) && y == At(Idle)
    case ATakeTrigger(_) => x == At(RTrig) && y == At(RCopy)
    case ASendTrigger(_) => x == UnderOt(SOtTrig) && y == At(Idle)
    case ASendFill => x == At(SFill) && y == At(SPut)
    case ASendFail => x == At(SFill) && y == At(FWant)
    case ASendInsert => x == UnderOt(SOt) && y == UnderOt(SOtCount)
    case ASendHeapFull => x == UnderOt(SOt) && y == At(FWant)
    case ASendOtCount => x == UnderOt(SOtCount) && y == UnderOt(SOtTrig)
    case AGiveUp => (x == At(SFull) || x == At(REmpty) || x == At(SParked) || x == At(RParked)) && y == At(Idle)
    case ASendPark => x == UnderUt(SCheck) && y == At(SParked)
    case ASendRetry => x == UnderUt(SCheck) && y == At(SWant)
    case ARecvPark => x == UnderOt(RCheck) && y == At(RParked)
    case ARecvRetry => x == UnderOt(RCheck) && y == At(RWant)
    case AGiveBack => (x == UnderUt(BIn) && y == UnderUt(BCount)) || (x == UnderUt(FIn) && y == UnderUt(FCount))
    case AGiveCount => (x == UnderUt(BCount) && y == UnderUt(BTrig)) || (x == UnderUt(FCount) && y == At(Idle))
    case ARecvEmpty => x == UnderOt(RIn) && y == At(REmpty)
    case ARecvReject => x == UnderOt(RIn) && y == At(Idle)
    case ARecvPop(_) => x == UnderOt(RIn) && y == UnderOt(RPop)
    case ARecvCount => x == UnderOt(RPop) && y == At(RLook)
    case ARecvCopy => x == At(RCopy) && y == At(BWant)
    case APeekRead => x == UnderOt(PIn) && y == At(Idle)
    case ASendLose => x == At(SPut) && y == At(Idle)
    case ARecvLose => (x == At(RCopy) || x == At(BWant)) && y == At(Idle)
  }

  ghost predicate Flows(s: State, s': State, p: Pid, a: Action) {
    p in s.procs && p in s'.procs && Flow(SpotOf(s, p), a, SpotOf(s', p))
  }

  lemma FlowsSend(s: State, s': State, p: Pid, a: Action)
    requires OwnersOk(s) && Step(s, s', p, a) && OtSide(a) && !Wakes(a) && Sends(a)
    ensures Flows(s, s', p, a)
  {
  }

  lemma FlowsRecv(s: State, s': State, p: Pid, a: Action)
    requires OwnersOk(s) && Step(s, s', p, a) && OtSide(a) && !Wakes(a) && !Sends(a)
    ensures Flows(s, s', p, a)
  {
  }

  predicate Sends(a: Action) {
    a.ATakeOt? || a.AGiveUp? || a.ASendInsert? || a.ASendHeapFull? || a.ASendOtCount?
  }

  lemma FlowsUt(s: State, s': State, p: Pid, a: Action)
    requires OwnersOk(s) && Step(s, s', p, a) && UtSide(a) && !Wakes(a)
    ensures Flows(s, s', p, a)
  {
  }

  lemma FlowsWake(s: State, s': State, p: Pid, a: Action)
    requires OwnersOk(s) && Step(s, s', p, a) && Wakes(a) && ProcOk(s, p, s.procs[p])
    ensures Flows(s, s', p, a)
  {
  }

  lemma FlowsFree(s: State, s': State, p: Pid, a: Action)
    requires OwnersOk(s) && Step(s, s', p, a) && !OtSide(a) && !UtSide(a)
    ensures Flows(s, s', p, a)
  {
  }

  lemma FlowStep(s: State, s': State, p: Pid, a: Action)
    requires Control(s) && Step(s, s', p, a)
    ensures Flows(s, s', p, a)
  {
    assert ProcOk(s, p, s.procs[p]);
    if Wakes(a) { FlowsWake(s, s', p, a); }
    else if OtSide(a) && Sends(a) { FlowsSend(s, s', p, a); }
    else if OtSide(a) { FlowsRecv(s, s', p, a); }
    else if UtSide(a) { FlowsUt(s, s', p, a); }
    else { FlowsFree(s, s', p, a); }
  }

  /** A step of a send, or of somebody else meanwhile: on with the call, which queues at most once, or back. */
  predicate SendHop(x: Spot, mine: bool, a: Action, y: Spot) {
    if y == At(Idle) then
      && mine && (a.ASendTrigger? || a.AGiveUp? || a.AGiveCount? || a.ASendLose?) && (a.ASendTrigger? <==> IsPut(x))
    else
      && SendSpot(y) && (IsPut(y) <==> IsPut(x) || (mine && a.ASendInsert?)) && !(IsPut(x) && mine && a.ASendInsert?)
  }

  lemma SendFlow(x: Spot, a: Action, y: Spot)
    requires SendSpot(x) && Flow(x, a, y)
    ensures SendHop(x, true, a, y)
  {
  }

  /** The same for a receive, which pops and copies at most once each and in this order. */
  predicate RecvHop(x: Spot, mine: bool, a: Action, y: Spot) {
    if y == At(Idle) then
      && mine && (a.ABackTrigger? || a.AGiveUp? || a.ARecvReject? || a.ARecvLose?)
      && (a.ABackTrigger? || a.ARecvLose? <==> IsPopped(x)) && (a.ABackTrigger? ==> IsCopied(x))
    else
      && RecvSpot(y)
      && (IsPopped(y) <==> IsPopped(x) || (mine && a.ARecvPop?)) && !(IsPopped(x) && mine && a.ARecvPop?)
      && (IsCopied(y) <==> IsCopied(x) || (mine && a.ARecvCopy?)) && !(IsCopied(x) && mine && a.ARecvCopy?)
  }

  lemma RecvFlow(x: Spot, a: Action, y: Spot)
    requires RecvSpot(x) && Flow(x, a, y)
    ensures RecvHop(x, true, a, y)
  {
  }

  lemma PeekFlow(x: Spot, a: Action, y: Spot)
    requires PeekSpot(x) && Flow(x, a, y)
    ensures if y == At(Idle) then a.APeekRead? else PeekSpot(y)
  {
  }

  lemma IdleFlow(x: Spot, a: Action, y: Spot)
    requires x == At(Idle) && Flow(x, a, y)
    ensures a.ABegin? && y == At(a.l)
  {
  }

  /** The actions whose times count. */
  datatype Kind = Inserting | Popping | Copying

  predicate Is(k: Kind, a: Action) {
    match k
    case Inserting => a.ASendInsert?
    case Popping => a.ARecvPop?
    case Copying => a.ARecvCopy?
  }

  /** How often p did that in events i + 1 to n - 1. */
  function Times(es: seq<Event>, p: Pid, k: Kind, i: nat, n: nat): nat
    requires n <= |es|
  {
    if n <= i + 1 then 0
    else Times(es, p, k, i, n - 1) + if es[n - 1].p == p && Is(k, es[n - 1].a) then 1 else 0
  }

  /** Where a process stands in the states of a run. */
  ghost function Trace(ss: seq<State>, p: Pid): seq<Spot>
    requires forall n :: 0 <= n < |ss| ==> p in ss[n].procs
  {
    seq(|ss|, n requires 0 <= n < |ss| => SpotOf(ss[n], p))
  }

  /** What Begin, SendHop and RecvHop say of every step of a trace. */
  ghost predicate Traced(xs: seq<Spot>, es: seq<Event>, p: Pid) {
    && |xs| == |es| + 1
    && forall n :: 0 < n < |xs| ==> Hop(xs[n - 1], es[n - 1].p == p, es[n - 1].a, xs[n])
  }

  predicate Hop(x: Spot, mine: bool, a: Action, y: Spot) {
    && (x == At(Idle) ==> if mine then a.ABegin? && y == At(a.l) else y == x)
    && (SendSpot(x) ==> SendHop(x, mine, a, y))
    && (RecvSpot(x) ==> RecvHop(x, mine, a, y))
    && (PeekSpot(x) ==> if y == At(Idle) then mine && a.APeekRead? else PeekSpot(y))
    && (Rank(x) > 0 ==> if mine then Rank(y) < Rank(x) && (Rank(y) == 0 ==> y == At(Idle)) else y == x)
  }

  /** How many steps a call with a block in hand, or just rid of it, has at most to go. */
  function Rank(x: Spot): nat {
    match x
    case At(l) => if l.SLook? || l.RLook? then 9 else if l.STrig? || l.RTrig? then 8 else if l.SFill? || l.RCopy? then 7
                  else if l.SPut? then 6 else if l.FWant? || l.BWant? then 4 else 0
    case UnderUt(u) => if u.SPop? then 10 else if u.FIn? || u.BIn? then 3 else if u.FCount? || u.BCount? then 2
                       else if u.BTrig? then 1 else 0
    case UnderOt(o) => if o.RPop? then 10 else if o.SOt? then 5 else if o.SOtCount? then 2
                       else if o.SOtTrig? then 1 else 0
  }

  lemma RankFlow(x: Spot, a: Action, y: Spot)
    requires Rank(x) > 0 && Flow(x, a, y)
    ensures Rank(y) < Rank(x) && (Rank(y) == 0 ==> y == At(Idle))
  {
  }

  lemma FlowHop(x: Spot, a: Action, y: Spot)
    requires Flow(x, a, y)
    ensures Hop(x, true, a, y)
  {
    if x == At(Idle) { IdleFlow(x, a, y); }
    if SendSpot(x) { SendFlow(x, a, y); }
    if RecvSpot(x) { RecvFlow(x, a, y); }
    if PeekSpot(x) { PeekFlow(x, a, y); }
    if Rank(x) > 0 { RankFlow(x, a, y); }
  }

  /** Being woken is a hop too. */
  lemma DriftHop(x: Spot, a: Action, y: Spot)
    requires y == x || (x == At(SParked) && y == At(SWant)) || (x == At(RParked) && y == At(RWant))
    ensures Hop(x, false, a, y)
  {
  }

  lemma OwnHop(s: State, s': State, p: Pid, a: Action)
    requires Control(s) && Step(s, s', p, a)
    ensures p in s'.procs && Hop(SpotOf(s, p), true, a, SpotOf(s', p))
  {
    FlowStep(s, s', p, a);
    FlowHop(SpotOf(s, p), a, SpotOf(s', p));
  }

  lemma OtherHop(s: State, s': State, q: Pid, a: Action, p: Pid)
    requires Control(s) && Step(s, s', q, a) && p in s.procs && p != q
    ensures p in s'.procs && Hop(SpotOf(s, p), false, a, SpotOf(s', p))
  {
    assert ProcOk(s, p, s.procs[p]);
    Bystander(s, s', q, a, p);
    DriftHop(SpotOf(s, p), a, SpotOf(s', p));
  }

  lemma HopAt(ss: seq<State>, es: seq<Event>, n: nat, p: Pid)
    requires Run(ss, es) && 0 < n < |ss| && p in ss[n - 1].procs
    ensures p in ss[n].procs && Hop(SpotOf(ss[n - 1], p), es[n - 1].p == p, es[n - 1].a, SpotOf(ss[n], p))
  {
    RunInv(ss, es, n - 1);
    RunStep(ss, es, n - 1);
    if es[n - 1].p == p { OwnHop(ss[n - 1], ss[n], p, es[n - 1].a); }
    else { OtherHop(ss[n - 1], ss[n], es[n - 1].p, es[n - 1].a, p); }
  }

  /** No process comes or goes. */
  lemma {:induction false} Present(ss: seq<State>, es: seq<Event>, n: nat)
    requires Run(ss, es) && n < |ss|
    ensures ss[n].procs.Keys == ss[0].procs.Keys
    decreases n
  {
    if n > 0 {
      Present(ss, es, n - 1);
      RunStep(ss, es, n - 1);
      HistoryStep(ss[n - 1], ss[n], es[n - 1].p, es[n - 1].a);
    }
  }

  lemma TraceOf(ss: seq<State>, es: seq<Event>, p: Pid) returns (xs: seq<Spot>)
    requires Run(ss, es) && p in ss[0].procs
    ensures |xs| == |ss| && forall n :: 0 <= n < |ss| ==> p in ss[n].procs && xs[n] == SpotOf(ss[n], p)
  {
    forall n | 0 <= n < |ss| ensures p in ss[n].procs { Present(ss, es, n); }
    xs := Trace(ss, p);
  }

  lemma TraceHops(ss: seq<State>, es: seq<Event>, p: Pid, xs: seq<Spot>)
    requires Run(ss, es)
    requires |xs| == |ss| && forall n :: 0 <= n < |ss| ==> p in ss[n].procs && xs[n] == SpotOf(ss[n], p)
    ensures Traced(xs, es, p)
  {
    forall n | 0 < n < |xs| ensures Hop(xs[n - 1], es[n - 1].p == p, es[n - 1].a, xs[n]) { HopAt(ss, es, n, p); }
  }

  /** A send that was begun by event i has queued its message as often as it stands. */
  lemma {:induction false} SendSoFar(xs: seq<Spot>, es: seq<Event>, i: nat, n: nat, p: Pid)
    requires Traced(xs, es, p) && i < n < |xs| && es[i].p == p && NoBegin(es, p, i, n) && xs[i + 1] == At(SWant)
    ensures xs[n] == At(Idle) || SendSpot(xs[n])
    ensures xs[n] != At(Idle) ==> Times(es, p, Inserting, i, n) == if IsPut(xs[n]) then 1 else 0
    decreases n
  {
    if n > i + 1 {
      SendSoFar(xs, es, i, n - 1, p);
      assert Hop(xs[n - 1], es[n - 1].p == p, es[n - 1].a, xs[n]);
    }
  }

  lemma {:induction false} RecvSoFar(xs: seq<Spot>, es: seq<Event>, i: nat, n: nat, p: Pid)
    requires Traced(xs, es, p) && i < n < |xs| && es[i].p == p && NoBegin(es, p, i, n) && xs[i + 1] == At(RWant)
    ensures xs[n] == At(Idle) || RecvSpot(xs[n])
    ensures xs[n] != At(Idle) ==>
              && Times(es, p, Popping, i, n) == (if IsPopped(xs[n]) then 1 else 0)
              && Times(es, p, Copying, i, n) == (if IsCopied(xs[n]) then 1 else 0)
    decreases n
  {
    if n > i + 1 {
      RecvSoFar(xs, es, i, n - 1, p);
      assert Hop(xs[n - 1], es[n - 1].p == p, es[n - 1].a, xs[n]);
    }
  }

  lemma {:induction false} PeekSoFar(xs: seq<Spot>, es: seq<Event>, i: nat, n: nat, p: Pid)
    requires Traced(xs, es, p) && i < n < |xs| && es[i].p == p && NoBegin(es, p, i, n) && xs[i + 1] == At(PWant)
    ensures xs[n] == At(Idle) || PeekSpot(xs[n])
    decreases n
  {
    if n > i + 1 {
      PeekSoFar(xs, es, i, n - 1, p);
      assert Hop(xs[n - 1], es[n - 1].p == p, es[n - 1].a, xs[n]);
    }
  }

  /** Event n ends a call of p. */
  ghost predicate Returns(ss: seq<State>, n: nat, p: Pid) {
    n + 1 < |ss| && p in ss[n].procs && !ss[n].procs[p].at.Idle? && p in ss[n + 1].procs && ss[n + 1].procs[p].at.Idle?
  }

  /** The call that event i begins is the one that event n ends. */
  lemma CallTrace(ss: seq<State>, es: seq<Event>, i: nat, n: nat, p: Pid, l: Label, m: Message) returns (xs: seq<Spot>)
    requires Run(ss, es) && i < n < |es| && es[i] == Event(p, ABegin(l, m)) && Returns(ss, n, p)
    ensures Traced(xs, es, p) && xs[i + 1] == At(l) && xs[n] != At(Idle) && xs[n + 1] == At(Idle)
  {
    RunStep(ss, es, i);
    Present(ss, es, i);
    xs := TraceOf(ss, es, p);
    TraceHops(ss, es, p, xs);
  }

  /**
   How a send ends: it succeeds with the trigger, and has then queued its message exactly once; or it
   runs out of time, leaves through ch_send_fail or loses its block, and has not queued it at all.
   */
  lemma SendReturns(ss: seq<State>, es: seq<Event>, i: nat, n: nat, p: Pid, m: Message)
    requires Run(ss, es) && i < n < |es| && es[i] == Event(p, ABegin(SWant, m)) && NoBegin(es, p, i, n)
    requires Returns(ss, n, p)
    ensures es[n].p == p
    ensures es[n].a.ASendTrigger? || es[n].a.AGiveUp? || es[n].a.AGiveCount? || es[n].a.ASendLose?
    ensures Times(es, p, Inserting, i, n + 1) == if es[n].a.ASendTrigger? then 1 else 0
  {
    var xs := CallTrace(ss, es, i, n, p, SWant, m);
    SendSoFar(xs, es, i, n, p);
    assert Hop(xs[n + 1 - 1], es[n].p == p, es[n].a, xs[n + 1]);
  }

  /**
   How a receive ends: it succeeds with the trigger for its block, and has then popped and copied
   exactly one message; or it loses its block after the pop; or it runs out of time or fails under
   the lock, and has popped nothing.
   */
  lemma RecvReturns(ss: seq<State>, es: seq<Event>, i: nat, n: nat, p: Pid, m: Message)
    requires Run(ss, es) && i < n < |es| && es[i] == Event(p, ABegin(RWant, m)) && NoBegin(es, p, i, n)
    requires Returns(ss, n, p)
    ensures es[n].p == p
    ensures es[n].a.ABackTrigger? || es[n].a.ARecvLose? || es[n].a.AGiveUp? || es[n].a.ARecvReject?
    ensures Times(es, p, Popping, i, n + 1) == if es[n].a.ABackTrigger? || es[n].a.ARecvLose? then 1 else 0
    ensures Times(es, p, Copying, i, n + 1) <= Times(es, p, Popping, i, n + 1)
    ensures es[n].a.ABackTrigger? ==> Times(es, p, Copying, i, n + 1) == 1
  {
    var xs := CallTrace(ss, es, i, n, p, RWant, m);
    RecvSoFar(xs, es, i, n, p);
    assert Hop(xs[n + 1 - 1], es[n].p == p, es[n].a, xs[n + 1]);
  }

  /** A peek ends with its look at the queue. */
  lemma PeekReturns(ss: seq<State>, es: seq<Event>, i: nat, n: nat, p: Pid, m: Message)
    requires Run(ss, es) && i < n < |es| && es[i] == Event(p, ABegin(PWant, m)) && NoBegin(es, p, i, n)
    requires Returns(ss, n, p)
    ensures es[n] == Event(p, APeekRead)
  {
    var xs := CallTrace(ss, es, i, n, p, PWant, m);
    PeekSoFar(xs, es, i, n, p);
    assert Hop(xs[n + 1 - 1], es[n].p == p, es[n].a, xs[n + 1]);
  }

  /** How many of events i + 1 to n - 1 are p's own. */
  function Turns(es: seq<Event>, p: Pid, i: nat, n: nat): nat
    requires n <= |es|
  {
    if n <= i + 1 then 0 else Turns(es, p, i, n - 1) + if es[n - 1].p == p then 1 else 0
  }

  lemma {:induction false} RankFalls(xs: seq<Spot>, es: seq<Event>, i: nat, n: nat, p: Pid)
    requires Traced(xs, es, p) && i < n < |xs| && Rank(xs[i + 1]) > 0
    requires forall k :: i < k <= n ==> xs[k] != At(Idle)
    ensures Rank(xs[n]) > 0 && Turns(es, p, i, n) + Rank(xs[n]) <= Rank(xs[i + 1])
    decreases n
  {
    if n > i + 1 {
      RankFalls(xs, es, i, n - 1, p);
      assert Hop(xs[n - 1], es[n - 1].p == p, es[n - 1].a, xs[n]);
    }
  }

  /** A call that has popped a block or a message returns within ten steps of its own, whatever the others do. */
  lemma PoppedReturnsSoon(ss: seq<State>, es: seq<Event>, i: nat, n: nat, p: Pid)
    requires Run(ss, es) && i < n < |ss| && es[i].p == p && (es[i].a.ASendPop? || es[i].a.ARecvPop?)
    requires forall k :: i < k <= n ==> p in ss[k].procs && !ss[k].procs[p].at.Idle?
    ensures Turns(es, p, i, n) < 10
  {
    RunStep(ss, es, i);
    FlowAt(ss, es, i);
    FromPop(SpotOf(ss[i], p), es[i].a, SpotOf(ss[i + 1], p));
    Present(ss, es, i);
    var xs := TraceOf(ss, es, p);
    TraceHops(ss, es, p, xs);
    RankFalls(xs, es, i, n, p);
  }

  lemma FromPop(x: Spot, a: Action, y: Spot)
    requires Flow(x, a, y) && (a.ASendPop? || a.ARecvPop?)
    ensures Rank(y) == 10
  {
  }

  lemma FromSIn(x: Spot, a: Action, y: Spot)
    requires x == UnderUt(SIn) && Flow(x, a, y)
    ensures a.ASendFull? || a.ASendPop?
  {
  }

  lemma FromRIn(x: Spot, a: Action, y: Spot)
    requires x == UnderOt(RIn) && Flow(x, a, y)
    ensures a.ARecvEmpty? || a.ARecvReject? || a.ARecvPop?
  {
  }

  lemma FlowAt(ss: seq<State>, es: seq<Event>, n: nat)
    requires Run(ss, es) && n < |es|
    ensures es[n].p in ss[n].procs && es[n].p in ss[n + 1].procs
    ensures Flow(SpotOf(ss[n], es[n].p), es[n].a, SpotOf(ss[n + 1], es[n].p))
  {
    RunInv(ss, es, n);
    RunStep(ss, es, n);
    FlowStep(ss[n], ss[n + 1], es[n].p, es[n].a);
  }

  /** A send finds the channel full exactly when every block is queued, in somebody's hands or lost. */
  lemma FullWhen(ss: seq<State>, es: seq<Event>, n: nat)
    requires Run(ss, es) && n < |es| && ss[n].utLock == Ut(es[n].p, SIn)
    ensures es[n].a.ASendFull? || es[n].a.ASendPop?
    ensures es[n].a.ASendFull? <==> |ss[n].ot| + |Holders(ss[n])| + ss[n].lost == ss[n].cap
  {
    RunInv(ss, es, n);
    RunStep(ss, es, n);
    FlowAt(ss, es, n);
    FromSIn(SpotOf(ss[n], es[n].p), es[n].a, SpotOf(ss[n + 1], es[n].p));
    BlocksConserved(ss[n]);
  }

  /** A receive finds the channel empty exactly when the queue is. */
  lemma EmptyWhen(ss: seq<State>, es: seq<Event>, n: nat)
    requires Run(ss, es) && n < |es| && ss[n].otLock == Ot(es[n].p, RIn)
    ensures es[n].a.ARecvEmpty? || es[n].a.ARecvReject? || es[n].a.ARecvPop?
    ensures Queued(ss[n]) && (es[n].a.ARecvEmpty? <==> Queue(ss[n]) == [])
  {
    RunInv(ss, es, n);
    RunStep(ss, es, n);
    FlowAt(ss, es, n);
    FromRIn(SpotOf(ss[n], es[n].p), es[n].a, SpotOf(ss[n + 1], es[n].p));
  }

  // ---------------------------------------------------------------------------------------
  // Triggers
  // ---------------------------------------------------------------------------------------

  /** One of the sleepers moves to the woken; with no sleeper nothing happens. */
  ghost predicate OneWoken(parked: set<Pid>, woken: set<Pid>, parked': set<Pid>, woken': set<Pid>) {
    if parked == {} then parked' == {} && woken' == woken
    else exists q :: q in parked && parked' == parked - {q} && woken' == woken + {q}
  }

  ghost predicate OneSenderWoken(s: State, s': State) {
    OneWoken(s.sendParked, s.sendWoken, s'.sendParked, s'.sendWoken)
  }

  ghost predicate OneReceiverWoken(s: State, s': State) {
    OneWoken(s.recvParked, s.recvWoken, s'.recvParked, s'.recvWoken)
  }

  /** Every trigger wakes exactly one sleeper of its own kind, if there is one. */
  lemma TriggerWakesOne(s: State, s': State, p: Pid, a: Action)
    requires Control(s) && Step(s, s', p, a) && Wakes(a)
    ensures if a.APopTrigger? || a.ABackTrigger? then
              && OneSenderWoken(s, s')
              && s'.recvParked == s.recvParked && s'.recvWoken == s.recvWoken
            else
              && OneReceiverWoken(s, s')
              && s'.sendParked == s.sendParked && s'.sendWoken == s.sendWoken
  {
  }

  /** Event n is the next one of p after event i. */
  predicate NextOwn(es: seq<Event>, p: Pid, i: nat, n: nat) {
    i < n < |es| && es[i].p == es[n].p == p && forall k :: i < k < n ==> es[k].p != p
  }

  lemma {:induction false} StaysPut(ss: seq<State>, es: seq<Event>, i: nat, n: nat, p: Pid, x: Spot)
    requires Run(ss, es) && i < n < |es| && (forall k :: i < k < n ==> es[k].p != p)
    requires p in ss[i + 1].procs && SpotOf(ss[i + 1], p) == x && x != At(SParked) && x != At(RParked)
    ensures p in ss[n].procs && SpotOf(ss[n], p) == x
    decreases n
  {
    if n > i + 1 {
      StaysPut(ss, es, i, n - 1, p, x);
      RunInv(ss, es, n - 1);
      RunStep(ss, es, n - 1);
      assert ProcOk(ss[n - 1], p, ss[n - 1].procs[p]);
      Bystander(ss[n - 1], ss[n], es[n - 1].p, es[n - 1].a, p);
    }
  }

  lemma FromTrig(x: Spot, a: Action, y: Spot)
    requires Flow(x, a, y)
    ensures x == At(STrig) ==> a.APopTrigger?
    ensures x == At(RTrig) ==> a.ATakeTrigger?
  {
  }

  lemma LookStep(s: State, s': State, p: Pid)
    requires p in s.procs && Look(s, s', p)
    ensures p in s'.procs
    ensures SpotOf(s, p) == At(SLook) && s.availBlocks > 0 ==> SpotOf(s', p) == At(STrig)
    ensures SpotOf(s, p) == At(RLook) && s.availMsgs > 0 ==> SpotOf(s', p) == At(RTrig)
  {
  }

  /**
   A sender that finds more blocks when it looks at the counter wakes another sender with its next
   step, and a receiver that finds more messages another receiver: so somebody left asleep by a
   failed call is woken by the next successful one.
   */
  lemma LookWakes(ss: seq<State>, es: seq<Event>, i: nat, n: nat, p: Pid)
    requires Run(ss, es) && NextOwn(es, p, i, n) && es[i].a.ALook? && p in ss[i].procs
    ensures SpotOf(ss[i], p) == At(SLook) && ss[i].availBlocks > 0 ==>
              es[n].a.APopTrigger? && OneSenderWoken(ss[n], ss[n + 1])
    ensures SpotOf(ss[i], p) == At(RLook) && ss[i].availMsgs > 0 ==>
              es[n].a.ATakeTrigger? && OneReceiverWoken(ss[n], ss[n + 1])
  {
    RunStep(ss, es, i);
    LookStep(ss[i], ss[i + 1], p);
    var x := SpotOf(ss[i + 1], p);
    if x == At(STrig) || x == At(RTrig) {
      StaysPut(ss, es, i, n, p, x);
      TriggerAt(ss, es, n);
    }
  }

  lemma TriggerAt(ss: seq<State>, es: seq<Event>, n: nat)
    requires Run(ss, es) && n < |es| && es[n].p in ss[n].procs
    requires SpotOf(ss[n], es[n].p) == At(STrig) || SpotOf(ss[n], es[n].p) == At(RTrig)
    ensures SpotOf(ss[n], es[n].p) == At(STrig) ==>
              es[n].a.APopTrigger? && OneSenderWoken(ss[n], ss[n + 1])
    ensures SpotOf(ss[n], es[n].p) == At(RTrig) ==>
              es[n].a.ATakeTrigger? && OneReceiverWoken(ss[n], ss[n + 1])
  {
    FlowAt(ss, es, n);
    FromTrig(SpotOf(ss[n], es[n].p), es[n].a, SpotOf(ss[n + 1], es[n].p));
    RunInv(ss, es, n);
    RunStep(ss, es, n);
    TriggerWakesOne(ss[n], ss[n + 1], es[n].p, es[n].a);
  }

  // ---------------------------------------------------------------------------------------
  // No lock-up
  // ---------------------------------------------------------------------------------------

  /** No failure, no timeout, no new call. */
  predicate Ordinary(a: Action) {
    && !a.ABegin? && !a.AGiveUp? && !a.ASendFail? && !a.ASendHeapFull? && !a.ARecvReject? && !Loses(a)
  }

  ghost predicate CanGo(s: State, p: Pid) {
    exists s', a :: Ordinary(a) && Step(s, s', p, a)
  }

  lemma Goes(s: State, s': State, p: Pid, a: Action)
    requires Ordinary(a) && Step(s, s', p, a)
    ensures CanGo(s, p)
  {
  }

  lemma PopGoes(s: State, p: Pid)
    requires p in s.procs && s.utLock == Ut(p, SIn) && (s.ut == [] || s.ut[0] < |s.place|)
    ensures CanGo(s, p)
  {
    if s.ut == [] {
      Goes(s, s.(availBlocks := 0, utLock := UtFree, sendWoken := s.sendWoken - {p}, procs := To(s, p, SFull)),
           p, ASendFull);
    } else {
      Goes(s, s.(utLock := Ut(p, SPop), ut := s.ut[1..], place := s.place[s.ut[0] := Held(p)],
                 sendWoken := s.sendWoken - {p}, procs := s.procs[p := s.procs[p].(blk := s.ut[0])]), p, ASendPop);
    }
  }

  lemma CheckGoes(s: State, p: Pid)
    requires p in s.procs && (s.utLock == Ut(p, SCheck) || s.utLock == Ut(p, SPop))
    ensures CanGo(s, p)
  {
    if s.utLock.at.SPop? {
      Goes(s, s.(availBlocks := s.availBlocks - 1, utLock := UtFree, procs := To(s, p, SLook)), p, ASendCount);
    } else if s.availBlocks == 0 {
      Goes(s, s.(sendParked := s.sendParked + {p}, utLock := UtFree, procs := To(s, p, SParked)), p, ASendPark);
    } else {
      Goes(s, s.(utLock := UtFree, procs := To(s, p, SWant)), p, ASendRetry);
    }
  }

  lemma GiveBackGoes(s: State, p: Pid)
    requires p in s.procs && (s.utLock == Ut(p, BIn) || s.utLock == Ut(p, FIn)) && 0 <= s.procs[p].blk < |s.place|
    ensures CanGo(s, p)
  {
    var pr := s.procs[p];
    Goes(s, s.(utLock := Ut(p, if s.utLock.at.BIn? then BCount else FCount), ut := s.ut + [pr.blk],
               place := s.place[pr.blk := InUT], procs := s.procs[p := pr.(blk := -1, filled := false)]),
         p, AGiveBack);
  }

  lemma GiveCountGoes(s: State, p: Pid)
    requires p in s.procs && (s.utLock == Ut(p, BCount) || s.utLock == Ut(p, FCount))
    ensures CanGo(s, p)
  {
    if s.utLock.at.BCount? {
      Goes(s, s.(availBlocks := s.availBlocks + 1, utLock := Ut(p, BTrig)), p, AGiveCount);
    } else {
      Goes(s, s.(availBlocks := s.availBlocks + 1, utLock := UtFree, procs := To(s, p, Idle)), p, AGiveCount);
    }
  }

  /** A trigger always finds what it needs: a sleeper, or that there is none. */
  lemma SenderTriggerGoes(s: State, p: Pid)
    requires p in s.procs && (s.utLock == Ut(p, BTrig) || s.procs[p].at.STrig?)
    ensures CanGo(s, p)
  {
    var q := if s.sendParked == {} then p else var q :| q in s.sendParked; q;
    if s.utLock == Ut(p, BTrig) {
      Goes(s, WakeSender(s, q).(utLock := UtFree, procs := To(WakeSender(s, q), p, Idle)), p, ABackTrigger(q));
    } else {
      Goes(s, WakeSender(s, q).(procs := To(WakeSender(s, q), p, SFill)), p, APopTrigger(q));
    }
  }

  lemma ReceiverTriggerGoes(s: State, p: Pid)
    requires p in s.procs && (s.otLock == Ot(p, SOtTrig) || s.procs[p].at.RTrig?)
    ensures CanGo(s, p)
  {
    var q := if s.recvParked == {} then p else var q :| q in s.recvParked; q;
    if s.otLock == Ot(p, SOtTrig) {
      Goes(s, WakeReceiver(s, q).(otLock := OtFree, procs := To(WakeReceiver(s, q), p, Idle)), p, ASendTrigger(q));
    } else {
      Goes(s, WakeReceiver(s, q).(procs := To(WakeReceiver(s, q), p, RCopy)), p, ATakeTrigger(q));
    }
  }

  /** Whoever holds the UT lock can go on. */
  lemma UtHolderGoes(s: State)
    requires Placed(s) && OwnersOk(s) && s.utLock.Ut?
    ensures CanGo(s, s.utLock.p)
  {
    var p, u := s.utLock.p, s.utLock.at;
    if u.SIn? { PopGoes(s, p); }
    else if u.SPop? || u.SCheck? { CheckGoes(s, p); }
    else if u.FIn? || u.BIn? { GiveBackGoes(s, p); }
    else if u.FCount? || u.BCount? { GiveCountGoes(s, p); }
    else { SenderTriggerGoes(s, p); }
  }

  lemma InsertGoes(s: State, p: Pid)
    requires p in s.procs && s.otLock == Ot(p, SOt) && |s.ot| != s.cap && 0 <= s.procs[p].blk < |s.place|
    ensures CanGo(s, p)
  {
    var pr := s.procs[p];
    Goes(s, s.(otLock := Ot(p, SOtCount), ot := s.ot + [ItemFor(pr.msg, pr.blk)], sent := s.sent + [pr.msg],
               place := s.place[pr.blk := InOT], procs := s.procs[p := pr.(blk := -1, filled := false)]),
         p, ASendInsert);
  }

  lemma TakeGoes(s: State, p: Pid)
    requires p in s.procs && s.otLock == Ot(p, RIn) && (s.ot == [] || s.ot[0].block < |s.place|)
    ensures CanGo(s, p)
  {
    if s.ot == [] {
      Goes(s, s.(availMsgs := 0, otLock := OtFree, recvWoken := s.recvWoken - {p}, procs := To(s, p, REmpty)),
           p, ARecvEmpty);
    } else {
      Goes(s, s.(otLock := Ot(p, RPop), ot := s.ot[1..], taken := s.taken + 1,
                 place := s.place[s.ot[0].block := Held(p)], recvWoken := s.recvWoken - {p},
                 procs := s.procs[p := s.procs[p].(blk := s.ot[0].block, idx := s.taken, item := s.ot[0],
                                                   discard := false)]), p, ARecvPop(false));
    }
  }

  lemma RecheckGoes(s: State, p: Pid)
    requires p in s.procs && (s.otLock == Ot(p, RCheck) || s.otLock == Ot(p, RPop) || s.otLock == Ot(p, SOtCount))
    ensures CanGo(s, p)
  {
    if s.otLock.at.RPop? {
      Goes(s, s.(availMsgs := s.availMsgs - 1, otLock := OtFree, procs := To(s, p, RLook)), p, ARecvCount);
    } else if s.otLock.at.SOtCount? {
      Goes(s, s.(availMsgs := s.availMsgs + 1, otLock := Ot(p, SOtTrig)), p, ASendOtCount);
    } else if s.availMsgs == 0 {
      Goes(s, s.(recvParked := s.recvParked + {p}, otLock := OtFree, procs := To(s, p, RParked)), p, ARecvPark);
    } else {
      Goes(s, s.(otLock := OtFree, procs := To(s, p, RWant)), p, ARecvRetry);
    }
  }

  lemma PeekGoes(s: State, p: Pid)
    requires p in s.procs && s.otLock == Ot(p, PIn) && (s.ot == [] || Readable(s.blocks, s.ot[0]))
    ensures CanGo(s, p)
  {
    if s.ot == [] {
      Goes(s, s.(availMsgs := 0, otLock := OtFree, procs := To(s, p, Idle)), p, APeekRead);
    } else {
      Goes(s, s.(otLock := OtFree, procs := To(s, p, Idle),
                 peeked := s.peeked + [(s.taken, Decode(s.blocks, s.ot[0]))]), p, APeekRead);
    }
  }

  /** Whoever holds the OT lock can go on. */
  lemma OtHolderGoes(s: State)
    requires Inv(s) && s.otLock.Ot?
    ensures CanGo(s, s.otLock.p)
  {
    var p, o := s.otLock.p, s.otLock.at;
    if o.SOt? {
      OtNeverFull(s, p);
      InsertGoes(s, p);
    } else if o.SOtTrig? {
      ReceiverTriggerGoes(s, p);
    } else if o.RIn? {
      TakeGoes(s, p);
    } else if o.PIn? {
      assert s.ot != [] ==> ItemCarries(s, s.ot[0], s.taken + 0);
      PeekGoes(s, p);
    } else {
      RecheckGoes(s, p);
    }
  }

  predicate WantsUt(l: Label) {
    l.SWant? || l.SFull? || l.FWant? || l.BWant?
  }

  predicate WantsOt(l: Label) {
    l.SPut? || l.RWant? || l.REmpty? || l.PWant?
  }

  /** Outside the locks a process in a call waits for nothing but a lock, unless it is parked. */
  lemma OutsiderGoes(s: State, p: Pid)
    requires Placed(s) && p in s.procs && ProcOk(s, p, s.procs[p]) && Honest(s, s.procs[p])
    requires var l := s.procs[p].at; !l.Idle? && !l.SParked? && !l.RParked? && !l.InUt? && !l.InOt?
    ensures CanGo(s, p) || (WantsUt(s.procs[p].at) && s.utLock.Ut?) || (WantsOt(s.procs[p].at) && s.otLock.Ot?)
  {
    var l := s.procs[p].at;
    LockGoes(s, p);
    if l.SLook? || l.RLook? { LookGoes(s, p); }
    else if l.STrig? { SenderTriggerGoes(s, p); }
    else if l.RTrig? { ReceiverTriggerGoes(s, p); }
    else if l.SFill? { FillGoes(s, p); }
    else if l.RCopy? { CopyGoes(s, p); }
  }

  lemma LookGoes(s: State, p: Pid)
    requires p in s.procs && (s.procs[p].at.SLook? || s.procs[p].at.RLook?)
    ensures CanGo(s, p)
  {
    var l := if s.procs[p].at.SLook? then (if s.availBlocks > 0 then STrig else SFill)
             else (if s.availMsgs > 0 then RTrig else RCopy);
    Goes(s, s.(procs := To(s, p, l)), p, ALook);
  }

  lemma FillGoes(s: State, p: Pid)
    requires p in s.procs && s.procs[p].at.SFill?
    requires 0 <= s.procs[p].blk < |s.blocks| && |s.procs[p].msg.payload| <= |s.blocks[s.procs[p].blk]|
    ensures CanGo(s, p)
  {
    var pr := s.procs[p];
    Goes(s, s.(blocks := s.blocks[pr.blk := Overwrite(s.blocks[pr.blk], pr.msg.payload)],
               procs := s.procs[p := pr.(at := SPut, filled := true)]), p, ASendFill);
  }

  lemma CopyGoes(s: State, p: Pid)
    requires p in s.procs && s.procs[p].at.RCopy? && Readable(s.blocks, s.procs[p].item)
    ensures CanGo(s, p)
  {
    var pr := s.procs[p];
    Goes(s, s.(delivered := if pr.discard then s.delivered else s.delivered[pr.idx := Decode(s.blocks, pr.item)],
               procs := s.procs[p := pr.(at := BWant, idx := -1)]), p, ARecvCopy);
  }

  lemma LockGoes(s: State, p: Pid)
    requires p in s.procs
    ensures s.utLock.UtFree? && WantsUt(s.procs[p].at) ==> CanGo(s, p)
    ensures s.otLock.OtFree? && WantsOt(s.procs[p].at) ==> CanGo(s, p)
  {
    var l := s.procs[p].at;
    if s.utLock.UtFree? && WantsUt(l) {
      var u := if l.SWant? then SIn else if l.SFull? then SCheck else if l.FWant? then FIn else BIn;
      Goes(s, s.(utLock := Ut(p, u), procs := To(s, p, InUt)), p, ATakeUt);
    }
    if s.otLock.OtFree? && WantsOt(l) {
      var o := if l.SPut? then SOt else if l.RWant? then RIn else if l.REmpty? then RCheck else PIn;
      Goes(s, s.(otLock := Ot(p, o), procs := To(s, p, InOt)), p, ATakeOt);
    }
  }

  /**
   In every run, whoever is inside a call and not parked can go on without failing, or waits for a
   lock whose holder can.
   */
  lemma NeverLocksUp(ss: seq<State>, es: seq<Event>, n: nat, p: Pid)
    requires Run(ss, es) && n < |ss| && p in ss[n].procs
    requires var l := ss[n].procs[p].at; !l.Idle? && !l.SParked? && !l.RParked?
    ensures var s := ss[n];
            || CanGo(s, p)
            || (WantsUt(s.procs[p].at) && s.utLock.Ut? && CanGo(s, s.utLock.p))
            || (WantsOt(s.procs[p].at) && s.otLock.Ot? && CanGo(s, s.otLock.p))
  {
    RunInv(ss, es, n);
    var s := ss[n];
    assert ProcOk(s, p, s.procs[p]) && Honest(s, s.procs[p]);
    if s.utLock.Ut? { UtHolderGoes(s); }
    if s.otLock.Ot? { OtHolderGoes(s); }
    if !s.procs[p].at.InUt? && !s.procs[p].at.InOt? { OutsiderGoes(s, p); }
  }

  // ---------------------------------------------------------------------------------------
  // A call that runs alone
  // ---------------------------------------------------------------------------------------

  /** A step of p that does not fail. */
  ghost function Own(p: Pid): (State, State) -> bool {
    (s: State, t: State) => exists a :: Ordinary(a) && Step(s, t, p, a)
  }

  /** p gets from s to s' alone, and without failing. */
  ghost predicate Alone(s: State, s': State, p: Pid) {
    exists ts :: Linked(ts, Own(p)) && ts[0] == s && ts[|ts| - 1] == s'
  }

  lemma AloneOne(s: State, t: State, p: Pid, a: Action)
    requires Ordinary(a) && Step(s, t, p, a)
    ensures Alone(s, t, p)
  {
    assert Linked([s, t], Own(p));
  }

  lemma AloneJoin(s: State, t: State, s': State, p: Pid)
    requires Alone(s, t, p) && Alone(t, s', p)
    ensures Alone(s, s', p)
  {
    var ts :| Linked(ts, Own(p)) && ts[0] == s && ts[|ts| - 1] == t;
    var ts' :| Linked(ts', Own(p)) && ts'[0] == t && ts'[|ts'| - 1] == s';
    LinkedJoin(ts, ts', Own(p));
  }

  predicate LocksMine(s: State, p: Pid) {
    (s.utLock.Ut? ==> s.utLock.p == p) && (s.otLock.Ot? ==> s.otLock.p == p)
  }

  lemma MineOt(s: State, s': State, p: Pid, a: Action)
    requires Step(s, s', p, a) && LocksMine(s, p) && OtSide(a) && !Wakes(a)
    ensures LocksMine(s', p) && s'.delivered == s.delivered
  {
  }

  lemma MineUt(s: State, s': State, p: Pid, a: Action)
    requires Step(s, s', p, a) && LocksMine(s, p) && UtSide(a) && !Wakes(a)
    ensures LocksMine(s', p) && s'.delivered == s.delivered
  {
  }

  lemma MineStep(s: State, s': State, p: Pid, a: Action)
    requires Step(s, s', p, a) && LocksMine(s, p)
    ensures LocksMine(s', p) && (a.ARecvCopy? || s'.delivered == s.delivered)
  {
    if !Wakes(a) && OtSide(a) { MineOt(s, s', p, a); }
    else if !Wakes(a) && UtSide(a) { MineUt(s, s', p, a); }
  }

  lemma MineGoes(s: State, p: Pid)
    requires Inv(s) && LocksMine(s, p) && p in s.procs && Rank(SpotOf(s, p)) > 0
    ensures CanGo(s, p)
  {
    assert ProcOk(s, p, s.procs[p]) && Honest(s, s.procs[p]);
    if s.procs[p].at.InUt? { UtHolderGoes(s); }
    else if s.procs[p].at.InOt? { OtHolderGoes(s); }
    else { OutsiderGoes(s, p); }
  }

  /** What an ordinary step of a call with a block in hand does. */
  lemma AloneStep(s: State, p: Pid) returns (t: State, a: Action)
    requires Ours(s, p) && Rank(SpotOf(s, p)) > 0
    ensures Ordinary(a) && Step(s, t, p, a) && Ours(t, p)
    ensures Hop(SpotOf(s, p), true, a, SpotOf(t, p))
  {
    MineGoes(s, p);
    t, a :| Ordinary(a) && Step(s, t, p, a);
    StepInv(s, t, p, a);
    MineStep(s, t, p, a);
    OwnHop(s, t, p, a);
  }

  lemma CarriesOne(s: State, s': State, p: Pid, a: Action)
    requires Step(s, s', p, a)
    ensures Carries(s, s', p, a, p)
  {
    if Wakes(a) { CarriesWake(s, s', p, a, p); }
    else if OtSide(a) { CarriesOt(s, s', p, a, p); }
    else if UtSide(a) { CarriesUt(s, s', p, a, p); }
    else { CarriesFree(s, s', p, a, p); }
  }

  /** On its way without failing, a send is never in ch_send_fail. */
  lemma NoFail(x: Spot, a: Action, y: Spot)
    requires SendSpot(x) && Rank(x) > 0 && !Failing(x) && Ordinary(a) && Flow(x, a, y)
    ensures y == At(Idle) <==> a.ASendTrigger?
    ensures !Failing(y) && !a.ABegin?
  {
  }

  predicate Failing(x: Spot) {
    x == At(FWant) || x == UnderUt(FIn) || x == UnderUt(FCount)
  }

  /** p is alone in s, which is what a run can get to. */
  ghost predicate Ours(s: State, p: Pid) {
    Inv(s) && LocksMine(s, p) && p in s.procs
  }

  /** One step of a send that has its block. */
  lemma SendNext(s: State, p: Pid) returns (t: State)
    requires Ours(s, p) && SendSpot(SpotOf(s, p)) && Rank(SpotOf(s, p)) > 0 && !Failing(SpotOf(s, p))
    ensures Alone(s, t, p) && Ours(t, p) && t.taken == s.taken && t.procs[p].msg == s.procs[p].msg
    ensures if SpotOf(t, p) == At(Idle) then IsPut(SpotOf(s, p)) && t.sent == s.sent
            else && SendSpot(SpotOf(t, p)) && 0 < Rank(SpotOf(t, p)) < Rank(SpotOf(s, p)) && !Failing(SpotOf(t, p))
                 && (IsPut(SpotOf(s, p)) ==> IsPut(SpotOf(t, p)))
                 && t.sent == if IsPut(SpotOf(t, p)) && !IsPut(SpotOf(s, p)) then s.sent + [s.procs[p].msg] else s.sent
  {
    var a;
    t, a := AloneStep(s, p);
    FlowStep(s, t, p, a);
    NoFail(SpotOf(s, p), a, SpotOf(t, p));
    CarriesOne(s, t, p, a);
    HistoryStep(s, t, p, a);
    NoPopInSend(SpotOf(s, p), a, SpotOf(t, p));
    AloneOne(s, t, p, a);
  }

  lemma NoPopInSend(x: Spot, a: Action, y: Spot)
    requires SendSpot(x) && Flow(x, a, y)
    ensures !a.ARecvPop?
  {
  }

  /** A send that has its block goes through, and its message is the last one sent. */
  lemma {:induction false} SendFinishes(s: State, p: Pid, q: seq<Message>) returns (s': State)
    requires Ours(s, p) && SendSpot(SpotOf(s, p)) && Rank(SpotOf(s, p)) > 0 && !Failing(SpotOf(s, p))
    requires s.sent == if IsPut(SpotOf(s, p)) then q + [s.procs[p].msg] else q
    ensures Alone(s, s', p) && Ours(s', p) && s'.procs[p].at.Idle?
    ensures s'.sent == q + [s.procs[p].msg] && s'.taken == s.taken
    decreases Rank(SpotOf(s, p))
  {
    var t := SendNext(s, p);
    if SpotOf(t, p) == At(Idle) {
      s' := t;
    } else {
      s' := SendFinishes(t, p, q);
      AloneJoin(s, t, s', p);
    }
  }

  /** Nothing has been queued, taken or handed out. */
  predicate SameTalk(s: State, t: State) {
    t.sent == s.sent && t.taken == s.taken && t.delivered == s.delivered && t.ut == s.ut && t.ot == s.ot
  }

  /** The first steps of a call: it begins, and takes the lock it wants. */
  lemma Begins(s: State, p: Pid, l: Label, m: Message) returns (t: State)
    requires Ours(s, p) && s.procs[p].at.Idle? && (l.SWant? || l.RWant?) && |m.payload| <= s.size
    ensures Step(s, t, p, ABegin(l, m)) && Ours(t, p) && SameTalk(s, t)
    ensures t.procs[p].at == l && t.procs[p].msg == m
  {
    t := s.(procs := s.procs[p := s.procs[p].(at := l, msg := m, filled := false)]);
    StepInv(s, t, p, ABegin(l, m));
  }

  lemma LocksUt(s: State, p: Pid) returns (t: State)
    requires Ours(s, p) && s.procs[p].at.SWant?
    ensures Alone(s, t, p) && Ours(t, p) && SameTalk(s, t)
    ensures t.utLock == Ut(p, SIn) && t.procs[p].msg == s.procs[p].msg
  {
    IdleFree(s, p);
    t := s.(utLock := Ut(p, SIn), procs := To(s, p, InUt));
    StepInv(s, t, p, ATakeUt);
    AloneOne(s, t, p, ATakeUt);
  }

  lemma LocksOt(s: State, p: Pid) returns (t: State)
    requires Ours(s, p) && s.procs[p].at.RWant?
    ensures Alone(s, t, p) && Ours(t, p) && SameTalk(s, t) && t.otLock == Ot(p, RIn)
  {
    IdleFree(s, p);
    t := s.(otLock := Ot(p, RIn), procs := To(s, p, InOt));
    StepInv(s, t, p, ATakeOt);
    AloneOne(s, t, p, ATakeOt);
  }

  lemma TakesFree(s: State, p: Pid) returns (t: State)
    requires Ours(s, p) && s.utLock == Ut(p, SIn) && s.ut != []
    ensures Alone(s, t, p) && Ours(t, p) && t.sent == s.sent && t.taken == s.taken
    ensures t.procs[p].msg == s.procs[p].msg && SpotOf(t, p) == UnderUt(SPop)
  {
    t := s.(utLock := Ut(p, SPop), ut := s.ut[1..], place := s.place[s.ut[0] := Held(p)],
            sendWoken := s.sendWoken - {p}, procs := s.procs[p := s.procs[p].(blk := s.ut[0])]);
    StepInv(s, t, p, ASendPop);
    AloneOne(s, t, p, ASendPop);
  }

  /** A process outside the locks that has them to itself finds them free. */
  lemma IdleFree(s: State, p: Pid)
    requires Control(s) && LocksMine(s, p) && p in s.procs && !s.procs[p].at.InUt? && !s.procs[p].at.InOt?
    ensures s.utLock.UtFree? && s.otLock.OtFree?
  {
  }

  lemma SendGoesOn(s: State, p: Pid) returns (s': State)
    requires Ours(s, p) && s.ut != [] && s.procs[p].at.SWant?
    ensures Alone(s, s', p) && Ours(s', p) && s'.procs[p].at.Idle?
    ensures s'.sent == s.sent + [s.procs[p].msg] && s'.taken == s.taken
  {
    var t := LocksUt(s, p);
    s' := SendWithLock(t, p);
    AloneJoin(s, t, s', p);
  }

  lemma SendWithLock(s: State, p: Pid) returns (s': State)
    requires Ours(s, p) && s.ut != [] && s.utLock == Ut(p, SIn)
    ensures Alone(s, s', p) && Ours(s', p) && s'.procs[p].at.Idle?
    ensures s'.sent == s.sent + [s.procs[p].msg] && s'.taken == s.taken
  {
    var t := TakesFree(s, p);
    s' := SendFinishes(t, p, s.sent);
    AloneJoin(s, t, s', p);
  }

  /**
   A send that finds a free block and is not disturbed goes through: its message joins the end of the
   queue and it returns. From s it begins in s1 and is back in s'.
   */
  lemma SendAlone(s: State, p: Pid, m: Message) returns (s1: State, s': State)
    requires Ours(s, p) && s.ut != [] && s.procs[p].at.Idle? && |m.payload| <= s.size
    ensures Step(s, s1, p, ABegin(SWant, m)) && Alone(s1, s', p) && Ours(s', p) && s'.procs[p].at.Idle?
    ensures Queue(s') == Queue(s) + [m]
  {
    s1 := Begins(s, p, SWant, m);
    s' := SendGoesOn(s1, p);
    QueueGrew(s, s', m);
  }

  lemma QueueGrew(s: State, s': State, m: Message)
    requires Queued(s) && Queued(s') && s'.sent == s.sent + [m] && s'.taken == s.taken
    ensures Queue(s') == Queue(s) + [m]
  {
    QueueIsUntaken(s);
    QueueIsUntaken(s');
    assert (s.sent + [m])[s.taken..] == s.sent[s.taken..] + [m];
  }

  lemma TakesQueued(s: State, p: Pid) returns (t: State)
    requires Ours(s, p) && s.otLock == Ot(p, RIn) && s.ot != []
    ensures Alone(s, t, p) && Ours(t, p) && t.sent == s.sent && t.taken == s.taken + 1
    ensures SpotOf(t, p) == UnderOt(RPop) && t.procs[p].idx == s.taken && !t.procs[p].discard
  {
    t := s.(otLock := Ot(p, RPop), ot := s.ot[1..], taken := s.taken + 1,
            place := s.place[s.ot[0].block := Held(p)], recvWoken := s.recvWoken - {p},
            procs := s.procs[p := s.procs[p].(blk := s.ot[0].block, idx := s.taken, item := s.ot[0],
                                              discard := false)]);
    StepInv(s, t, p, ARecvPop(false));
    AloneOne(s, t, p, ARecvPop(false));
  }

  /** Message k is in the hands of p, or p has handed it out. */
  predicate Has(s: State, p: Pid, k: int)
    requires p in s.procs
  {
    if SpotOf(s, p) == At(Idle) || IsCopied(SpotOf(s, p)) then k in s.delivered
    else s.procs[p].idx == k && !s.procs[p].discard
  }

  /** What becomes of the popped message in a step of its receive. */
  lemma RecvKeeps(s: State, t: State, p: Pid, a: Action, k: int)
    requires Ours(s, p) && Step(s, t, p, a) && Ours(t, p) && Hop(SpotOf(s, p), true, a, SpotOf(t, p))
    requires RecvSpot(SpotOf(s, p)) && IsPopped(SpotOf(s, p)) && !a.ASendInsert? && Ordinary(a) && Has(s, p, k)
    ensures t.taken == s.taken && t.sent == s.sent && Has(t, p, k)
  {
    HistoryStep(s, t, p, a);
    MineStep(s, t, p, a);
    CarriesOne(s, t, p, a);
    if a.ARecvCopy? { CopyStep(s, t, p); }
    assert ProcOk(t, p, t.procs[p]);
  }

  lemma NoInsert(x: Spot, a: Action, y: Spot)
    requires RecvSpot(x) && Flow(x, a, y)
    ensures !a.ASendInsert?
  {
  }

  /** One step of a receive that has popped message k. */
  lemma RecvNext(s: State, p: Pid, k: int) returns (t: State)
    requires Ours(s, p) && RecvSpot(SpotOf(s, p)) && IsPopped(SpotOf(s, p)) && Rank(SpotOf(s, p)) > 0 && Has(s, p, k)
    ensures Alone(s, t, p) && Ours(t, p) && t.sent == s.sent && t.taken == s.taken && Has(t, p, k)
    ensures SpotOf(t, p) == At(Idle) ||
            (RecvSpot(SpotOf(t, p)) && IsPopped(SpotOf(t, p)) && 0 < Rank(SpotOf(t, p)) < Rank(SpotOf(s, p)))
  {
    var a;
    t, a := AloneStep(s, p);
    FlowStep(s, t, p, a);
    NoInsert(SpotOf(s, p), a, SpotOf(t, p));
    RecvKeeps(s, t, p, a, k);
    AloneOne(s, t, p, a);
  }

  /** A receive that has popped its message goes through and hands it out. */
  lemma {:induction false} RecvFinishes(s: State, p: Pid, k: int) returns (s': State)
    requires Ours(s, p) && RecvSpot(SpotOf(s, p)) && IsPopped(SpotOf(s, p)) && Rank(SpotOf(s, p)) > 0 && Has(s, p, k)
    ensures Alone(s, s', p) && Ours(s', p) && s'.procs[p].at.Idle?
    ensures s'.sent == s.sent && s'.taken == s.taken && k in s'.delivered
    decreases Rank(SpotOf(s, p))
  {
    var t := RecvNext(s, p, k);
    if SpotOf(t, p) == At(Idle) {
      s' := t;
    } else {
      s' := RecvFinishes(t, p, k);
      AloneJoin(s, t, s', p);
    }
  }

  lemma RecvGoesOn(s: State, p: Pid) returns (s': State)
    requires Ours(s, p) && s.ot != [] && s.procs[p].at.RWant?
    ensures Alone(s, s', p) && Ours(s', p) && s'.procs[p].at.Idle?
    ensures s'.sent == s.sent && s'.taken == s.taken + 1 && s.taken in s'.delivered
  {
    var t := LocksOt(s, p);
    s' := RecvWithLock(t, p);
    AloneJoin(s, t, s', p);
  }

  lemma RecvWithLock(s: State, p: Pid) returns (s': State)
    requires Ours(s, p) && s.ot != [] && s.otLock == Ot(p, RIn)
    ensures Alone(s, s', p) && Ours(s', p) && s'.procs[p].at.Idle?
    ensures s'.sent == s.sent && s'.taken == s.taken + 1 && s.taken in s'.delivered
  {
    var t := TakesQueued(s, p);
    s' := RecvFinishes(t, p, s.taken);
    AloneJoin(s, t, s', p);
  }

  /** A receive that finds a message and is not disturbed goes through: it hands out the oldest one and returns. */
  lemma RecvAlone(s: State, p: Pid, m: Message) returns (s1: State, s': State)
    requires Ours(s, p) && Queue(s) != [] && s.procs[p].at.Idle? && |m.payload| <= s.size
    ensures Step(s, s1, p, ABegin(RWant, m)) && Alone(s1, s', p) && Ours(s', p) && s'.procs[p].at.Idle?
    ensures Queue(s') == Queue(s)[1..] && s.taken in s'.delivered && s'.delivered[s.taken] == Queue(s)[0]
  {
    s1 := Begins(s, p, RWant, m);
    s' := RecvGoesOn(s1, p);
    QueueShrank(s, s');
  }

  lemma QueueShrank(s: State, s': State)
    requires Queued(s) && Queued(s') && s'.sent == s.sent && s'.taken == s.taken + 1 && s.taken in s'.delivered
    ensures Queue(s) != [] && Queue(s') == Queue(s)[1..] && s'.delivered[s.taken] == Queue(s)[0]
  {
    QueueIsUntaken(s);
    QueueIsUntaken(s');
    assert s.sent[s.taken..][1..] == s.sent[s.taken + 1..];
  }

  // ---------------------------------------------------------------------------------------
  // Lost blocks
  // ---------------------------------------------------------------------------------------

  /** How many of the first n events lost a block. */
  function Losses(es: seq<Event>, n: nat): nat
    requires n <= |es|
  {
    if n == 0 then 0 else Losses(es, n - 1) + if Loses(es[n - 1].a) then 1 else 0
  }

  lemma LossStep(ss: seq<State>, es: seq<Event>, n: nat)
    requires Run(ss, es) && 0 < n < |ss|
    ensures ss[n].cap == ss[n - 1].cap && ss[n].lost == ss[n - 1].lost + if Loses(es[n - 1].a) then 1 else 0
  {
    RunStep(ss, es, n - 1);
    HistoryStep(ss[n - 1], ss[n], es[n - 1].p, es[n - 1].a);
  }

  lemma {:induction false} LossesCount(es: seq<Event>, lost: seq<nat>, n: nat)
    requires n < |lost| == |es| + 1 && lost[0] == 0
    requires forall i :: 0 < i < |lost| ==> lost[i] == lost[i - 1] + if Loses(es[i - 1].a) then 1 else 0
    ensures lost[n] == Losses(es, n)
    decreases n
  {
    if n > 0 { LossesCount(es, lost, n - 1); }
  }

  lemma {:induction false} SameCap(ss: seq<State>, es: seq<Event>, n: nat)
    requires Run(ss, es) && n < |ss|
    ensures ss[n].cap == ss[0].cap
    decreases n
  {
    if n > 0 {
      SameCap(ss, es, n - 1);
      LossStep(ss, es, n);
    }
  }

  /** A block is lost for every send or receive that returns with it, and for nothing else. */
  lemma LostIsLosses(ss: seq<State>, es: seq<Event>, n: nat)
    requires Run(ss, es) && n < |ss|
    ensures ss[n].lost == Losses(es, n)
  {
    var lost := seq(|ss|, i requires 0 <= i < |ss| => ss[i].lost);
    forall i | 0 < i < |lost| ensures lost[i] == lost[i - 1] + if Loses(es[i - 1].a) then 1 else 0 {
      LossStep(ss, es, i);
    }
    LossesCount(es, lost, n);
  }

  lemma {:induction false} LossesGrow(es: seq<Event>, m: nat, n: nat)
    requires m <= n <= |es|
    ensures Losses(es, m) <= Losses(es, n)
    decreases n
  {
    if m < n { LossesGrow(es, m, n - 1); }
  }

  /** Lost blocks never come back: from then on the channel is that much smaller. */
  lemma LostForGood(ss: seq<State>, es: seq<Event>, m: nat, n: nat)
    requires Run(ss, es) && m <= n < |ss|
    ensures ss[m].lost <= ss[n].lost && |ss[n].ut| + |ss[n].ot| + |Holders(ss[n])| <= ss[0].cap - ss[m].lost
  {
    LostIsLosses(ss, es, m);
    LostIsLosses(ss, es, n);
    LossesGrow(es, m, n);
    SameCap(ss, es, n);
    RunInv(ss, es, n);
    BlocksConserved(ss[n]);
  }

  /** With every block lost nobody ever gets one again. */
  lemma DeadForGood(ss: seq<State>, es: seq<Event>, m: nat, n: nat)
    requires Run(ss, es) && m <= n < |es| && ss[m].lost == ss[m].cap
    ensures ss[n].ut == [] && ss[n].ot == [] && !es[n].a.ASendPop? && !es[n].a.ARecvPop?
  {
    LostForGood(ss, es, m, n);
    SameCap(ss, es, m);
    RunStep(ss, es, n);
  }

  // ---------------------------------------------------------------------------------------
  // Wake-ups
  // ---------------------------------------------------------------------------------------

  /** 1 while the UT lock holder has given a block back and not yet triggered a sender. */
  function SendTriggerDue(s: State): nat {
    if s.utLock.Ut? && (s.utLock.at.BCount? || s.utLock.at.BTrig?) then 1 else 0
  }

  function RecvTriggerDue(s: State): nat {
    if s.otLock.Ot? && (s.otLock.at.SOtCount? || s.otLock.at.SOtTrig?) then 1 else 0
  }

  /** While a sender is parked, every free block is matched by a woken sender or a trigger about to fire. */
  ghost predicate SendersCovered(s: State) {
    s.sendParked != {} ==> |s.ut| <= |s.sendWoken| + SendTriggerDue(s)
  }

  /** While a receiver is parked, so is every queued message. */
  ghost predicate ReceiversCovered(s: State) {
    s.recvParked != {} ==> |s.ot| <= |s.recvWoken| + RecvTriggerDue(s)
  }

  /**
   The one way to lose a sender's wake-up: ch_send_fail gives back one block more than there are senders
   on the way.
   */
  ghost predicate SenderMissed(s: State, p: Pid, a: Action) {
    a.AGiveBack? && s.utLock == Ut(p, FIn) && s.sendParked != {} && |s.ut| == |s.sendWoken|
  }

  /** The one way to lose a receiver's: the last woken receiver for the queued messages fails and leaves its message. */
  ghost predicate ReceiverMissed(s: State, p: Pid, a: Action) {
    a.ARecvReject? && p in s.recvWoken && s.recvParked != {} && |s.ot| == |s.recvWoken|
  }

  lemma UtSideOnly(s: State, s': State, p: Pid, a: Action)
    requires Step(s, s', p, a) && !UtSide(a)
    ensures s'.ut == s.ut && s'.sendParked == s.sendParked && s'.sendWoken == s.sendWoken && s'.utLock == s.utLock
  {
  }

  lemma OtSideOnly(s: State, s': State, p: Pid, a: Action)
    requires Step(s, s', p, a) && !OtSide(a)
    ensures s'.ot == s.ot && s'.recvParked == s.recvParked && s'.recvWoken == s.recvWoken && s'.otLock == s.otLock
  {
  }

  lemma ParkedNotWoken(s: State)
    requires Control(s)
    ensures s.sendParked !! s.sendWoken && s.recvParked !! s.recvWoken
    ensures s.sendParked <= s.procs.Keys && s.recvParked <= s.procs.Keys
  {
    assert forall p :: p in s.sendParked || p in s.recvParked ==> p in s.procs && ProcOk(s, p, s.procs[p]);
  }

  /** A trigger wakes a parked process if there is one, so the promise it stood for is kept. */
  lemma SendersWake(s: State, s': State, p: Pid, q: Pid)
    requires p in s.procs && SendersCovered(s)
    requires s.sendParked !! s.sendWoken && s.sendParked <= s.procs.Keys
    requires PopTrigger(s, s', p, q) || BackTrigger(s, s', p, q)
    ensures SendersCovered(s')
  {
    assert q in s.sendParked ==> |s.sendWoken + {q}| == |s.sendWoken| + 1;
  }

  lemma ReceiversWake(s: State, s': State, p: Pid, q: Pid)
    requires p in s.procs && ReceiversCovered(s)
    requires s.recvParked !! s.recvWoken && s.recvParked <= s.procs.Keys
    requires TakeTrigger(s, s', p, q) || SendTrigger(s, s', p, q)
    ensures ReceiversCovered(s')
  {
    assert q in s.recvParked ==> |s.recvWoken + {q}| == |s.recvWoken| + 1;
  }

  lemma SendersCoveredTake(s: State, s': State, p: Pid)
    requires p in s.procs && SendersCovered(s) && (SendFull(s, s', p) || SendPop(s, s', p))
    ensures SendersCovered(s')
  {
    assert p in s.sendWoken ==> |s.sendWoken - {p}| == |s.sendWoken| - 1;
    assert p !in s.sendWoken ==> s.sendWoken - {p} == s.sendWoken;
  }

  lemma SendersCoveredPark(s: State, s': State, p: Pid)
    requires p in s.procs && Counted(s) && SendersCovered(s)
    requires TakeUt(s, s', p) || SendCount(s, s', p) || SendPark(s, s', p) || SendRetry(s, s', p) || GiveUp(s, s', p)
    ensures SendersCovered(s')
  {
  }

  lemma SendersCoveredPut(s: State, s': State, p: Pid, a: Action)
    requires p in s.procs && SendersCovered(s)
    requires (if a.AGiveBack? then GiveBack(s, s', p) else a.AGiveCount? && GiveCount(s, s', p))
    ensures SendersCovered(s') <==> !SenderMissed(s, p, a)
  {
  }

  lemma ReceiversCoveredPark(s: State, s': State, p: Pid)
    requires p in s.procs && Counted(s) && ReceiversCovered(s)
    requires || TakeOt(s, s', p) || RecvCount(s, s', p) || RecvPark(s, s', p) || RecvRetry(s, s', p) || GiveUp(s, s', p)
             || PeekRead(s, s', p)
    ensures ReceiversCovered(s')
  {
  }

  lemma ReceiversCoveredPut(s: State, s': State, p: Pid)
    requires p in s.procs && ReceiversCovered(s)
    requires (SendInsert(s, s', p) || SendHeapFull(s, s', p) || SendOtCount(s, s', p))
    ensures ReceiversCovered(s')
  {
  }

  lemma ReceiversCoveredTake(s: State, s': State, p: Pid, a: Action)
    requires p in s.procs && ReceiversCovered(s)
    requires match a
             case ARecvEmpty => RecvEmpty(s, s', p)
             case ARecvReject => RecvReject(s, s', p)
             case ARecvPop(discard) => RecvPop(s, s', p, discard)
             case _ => false
    ensures ReceiversCovered(s') <==> !ReceiverMissed(s, p, a)
  {
    assert p in s.recvWoken ==> |s.recvWoken - {p}| == |s.recvWoken| - 1;
    assert p !in s.recvWoken ==> s.recvWoken - {p} == s.recvWoken;
  }

  lemma SendersCoveredOn(s: State, s': State, p: Pid, a: Action)
    requires Counted(s) && SendersCovered(s) && Step(s, s', p, a) && UtSide(a)
    requires s.sendParked !! s.sendWoken && s.sendParked <= s.procs.Keys
    ensures SendersCovered(s') <==> !SenderMissed(s, p, a)
  {
    match a
    case APopTrigger(q) => SendersWake(s, s', p, q);
    case ABackTrigger(q) => SendersWake(s, s', p, q);
    case AGiveBack => SendersCoveredPut(s, s', p, a);
    case AGiveCount => SendersCoveredPut(s, s', p, a);
    case ASendFull => SendersCoveredTake(s, s', p);
    case ASendPop => SendersCoveredTake(s, s', p);
    case ATakeUt => SendersCoveredPark(s, s', p);
    case ASendCount => SendersCoveredPark(s, s', p);
    case AGiveUp => SendersCoveredPark(s, s', p);
    case ASendPark => SendersCoveredPark(s, s', p);
    case ASendRetry => SendersCoveredPark(s, s', p);
  }

  /** A step loses a sender's wake-up exactly when it is that one. */
  lemma SendersCoveredStep(s: State, s': State, p: Pid, a: Action)
    requires Control(s) && Counted(s) && Step(s, s', p, a) && SendersCovered(s)
    ensures SendersCovered(s') <==> !SenderMissed(s, p, a)
  {
    ParkedNotWoken(s);
    if UtSide(a) { SendersCoveredOn(s, s', p, a); } else { UtSideOnly(s, s', p, a); }
  }

  lemma ReceiversCoveredOn(s: State, s': State, p: Pid, a: Action)
    requires Counted(s) && ReceiversCovered(s) && Step(s, s', p, a) && OtSide(a)
    requires s.recvParked !! s.recvWoken && s.recvParked <= s.procs.Keys
    ensures ReceiversCovered(s') <==> !ReceiverMissed(s, p, a)
  {
    match a
    case ATakeTrigger(q) => ReceiversWake(s, s', p, q);
    case ASendTrigger(q) => ReceiversWake(s, s', p, q);
    case ARecvEmpty => ReceiversCoveredTake(s, s', p, a);
    case ARecvReject => ReceiversCoveredTake(s, s', p, a);
    case ARecvPop(_) => ReceiversCoveredTake(s, s', p, a);
    case ASendInsert => ReceiversCoveredPut(s, s', p);
    case ASendHeapFull => ReceiversCoveredPut(s, s', p);
    case ASendOtCount => ReceiversCoveredPut(s, s', p);
    case ATakeOt => ReceiversCoveredPark(s, s', p);
    case ARecvCount => ReceiversCoveredPark(s, s', p);
    case AGiveUp => ReceiversCoveredPark(s, s', p);
    case ARecvPark => ReceiversCoveredPark(s, s', p);
    case ARecvRetry => ReceiversCoveredPark(s, s', p);
    case APeekRead => ReceiversCoveredPark(s, s', p);
  }

  /** A step loses a receiver's wake-up exactly when it is that one. */
  lemma ReceiversCoveredStep(s: State, s': State, p: Pid, a: Action)
    requires Control(s) && Counted(s) && Step(s, s', p, a) && ReceiversCovered(s)
    ensures ReceiversCovered(s') <==> !ReceiverMissed(s, p, a)
  {
    ParkedNotWoken(s);
    if OtSide(a) { ReceiversCoveredOn(s, s', p, a); } else { OtSideOnly(s, s', p, a); }
  }

  lemma SendersCoveredAt(ss: seq<State>, es: seq<Event>, n: nat)
    requires Run(ss, es) && 0 < n < |ss| && SendersCovered(ss[n - 1])
    ensures SendersCovered(ss[n]) <==> !SenderMissed(ss[n - 1], es[n - 1].p, es[n - 1].a)
  {
    RunInv(ss, es, n - 1);
    RunStep(ss, es, n - 1);
    SendersCoveredStep(ss[n - 1], ss[n], es[n - 1].p, es[n - 1].a);
  }

  /** A run keeps every sender covered up to state n exactly when none of its events before is a miss. */
  lemma SendersCoveredIff(ss: seq<State>, es: seq<Event>, n: nat)
    requires Run(ss, es) && n < |ss|
    ensures (forall i :: 0 <= i <= n ==> SendersCovered(ss[i]))
            <==> (forall i :: 0 <= i < n ==> !SenderMissed(ss[i], es[i].p, es[i].a))
  {
    var covered := seq(|ss|, i requires 0 <= i < |ss| => SendersCovered(ss[i]));
    var missed := seq(|es|, i requires 0 <= i < |es| => SenderMissed(ss[i], es[i].p, es[i].a));
    forall i | 0 < i < |ss| && covered[i - 1] ensures covered[i] <==> !missed[i - 1] { SendersCoveredAt(ss, es, i); }
    NoMissBefore(covered, missed, n);
    assert forall i :: 0 <= i <= n ==> covered[i] == SendersCovered(ss[i]);
    assert forall i :: 0 <= i < n ==> missed[i] == SenderMissed(ss[i], es[i].p, es[i].a);
  }

  lemma ReceiversCoveredAt(ss: seq<State>, es: seq<Event>, n: nat)
    requires Run(ss, es) && 0 < n < |ss| && ReceiversCovered(ss[n - 1])
    ensures ReceiversCovered(ss[n]) <==> !ReceiverMissed(ss[n - 1], es[n - 1].p, es[n - 1].a)
  {
    RunInv(ss, es, n - 1);
    RunStep(ss, es, n - 1);
    ReceiversCoveredStep(ss[n - 1], ss[n], es[n - 1].p, es[n - 1].a);
  }

  lemma ReceiversCoveredIff(ss: seq<State>, es: seq<Event>, n: nat)
    requires Run(ss, es) && n < |ss|
    ensures (forall i :: 0 <= i <= n ==> ReceiversCovered(ss[i]))
            <==> (forall i :: 0 <= i < n ==> !ReceiverMissed(ss[i], es[i].p, es[i].a))
  {
    var covered := seq(|ss|, i requires 0 <= i < |ss| => ReceiversCovered(ss[i]));
    var missed := seq(|es|, i requires 0 <= i < |es| => ReceiverMissed(ss[i], es[i].p, es[i].a));
    forall i | 0 < i < |ss| && covered[i - 1] ensures covered[i] <==> !missed[i - 1] { ReceiversCoveredAt(ss, es, i); }
    NoMissBefore(covered, missed, n);
    assert forall i :: 0 <= i <= n ==> covered[i] == ReceiversCovered(ss[i]);
    assert forall i :: 0 <= i < n ==> missed[i] == ReceiverMissed(ss[i], es[i].p, es[i].a);
  }

  lemma {:induction false} CleanRun(ss: seq<State>, es: seq<Event>, n: nat)
    requires Run(ss, es) && n < |ss| && forall i :: 0 <= i < n ==> !es[i].a.ASendFail?
    ensures ss[n].sendClean
    decreases n
  {
    if n > 0 {
      CleanRun(ss, es, n - 1);
      CleanStep(ss, es, n);
    }
  }

  lemma CleanStep(ss: seq<State>, es: seq<Event>, n: nat)
    requires Run(ss, es) && 0 < n < |ss| && ss[n - 1].sendClean && !es[n - 1].a.ASendFail?
    ensures ss[n].sendClean
  {
    RunInv(ss, es, n - 1);
    RunStep(ss, es, n - 1);
    StepInv(ss[n - 1], ss[n], es[n - 1].p, es[n - 1].a);
    HistoryStep(ss[n - 1], ss[n], es[n - 1].p, es[n - 1].a);
  }

  /** As long as no send fails: while a sender is parked, each free block has a woken sender on its way or a trigger
      about to fire under the UT lock. */
  lemma NoLostSender(ss: seq<State>, es: seq<Event>, n: nat)
    requires Run(ss, es) && n < |ss| && forall i :: 0 <= i < n ==> !es[i].a.ASendFail?
    ensures var s := ss[n];
            && SendersCovered(s)
            && (s.sendParked != {} && s.ut != [] && SendTriggerDue(s) == 0 ==>
                  exists p :: p in s.procs && p in s.sendWoken && (s.procs[p].at.SWant? || s.utLock == Ut(p, SIn)))
  {
    forall i | 0 <= i < n ensures !SenderMissed(ss[i], es[i].p, es[i].a) {
      CleanRun(ss, es, i);
      RunInv(ss, es, i);
    }
    SendersCoveredIff(ss, es, n);
    RunInv(ss, es, n);
    var s := ss[n];
    if s.sendParked != {} && s.ut != [] && SendTriggerDue(s) == 0 {
      var p :| p in s.sendWoken;
      assert ProcOk(s, p, s.procs[p]);
    }
  }

  /** As long as no receive leaves its message behind: while a receiver is parked, so has each queued message. */
  lemma NoLostReceiver(ss: seq<State>, es: seq<Event>, n: nat)
    requires Run(ss, es) && n < |ss| && forall i :: 0 <= i < n ==> !es[i].a.ARecvReject?
    ensures var s := ss[n];
            && ReceiversCovered(s)
            && (s.recvParked != {} && s.ot != [] && RecvTriggerDue(s) == 0 ==>
                  exists p :: p in s.procs && p in s.recvWoken && (s.procs[p].at.RWant? || s.otLock == Ot(p, RIn)))
  {
    ReceiversCoveredIff(ss, es, n);
    RunInv(ss, es, n);
    var s := ss[n];
    if s.recvParked != {} && s.ot != [] && RecvTriggerDue(s) == 0 {
      var p :| p in s.recvWoken;
      assert ProcOk(s, p, s.procs[p]);
    }
  }

  // ---------------------------------------------------------------------------------------
  // ch_send_fail loses a wake-up
  // ---------------------------------------------------------------------------------------

  ghost predicate Reachable(s: State) {
    exists ss, es :: Run(ss, es) && ss[|ss| - 1] == s
  }

  lemma ReachStep(s: State, s': State, p: Pid, a: Action)
    requires Reachable(s) && Step(s, s', p, a)
    ensures Reachable(s')
  {
    var ss, es :| Run(ss, es) && ss[|ss| - 1] == s;
    var ss', es' := ss + [s'], es + [Event(p, a)];
    forall i | 0 <= i < |es'| ensures Step(ss'[i], ss'[i + 1], es'[i].p, es'[i].a) {
      if i < |es| { assert Step(ss[i], ss[i + 1], es[i].p, es[i].a); }
    }
    assert Run(ss', es') && ss'[|ss'| - 1] == s';
  }

  /** A sender is parked although a block is free, both locks are free, and no other process is inside a call. */
  ghost predicate WakeUpLost(s: State) {
    && s.ut != [] && s.utLock.UtFree? && s.otLock.OtFree? && s.sendWoken == {}
    && exists p :: p in s.sendParked && forall q :: q in s.procs && q != p ==> s.procs[q].at.Idle?
  }

  function NoMessage(): Message { Message([], false, 0, 0, 0) }

  function Rest(): Proc { Proc(Idle, NoMessage(), false, -1, -1, Item(0, 0, false, 0, 0, 0), false) }

  /** One block of no bytes, two processes. */
  function Tiny(): State {
    State(1, 0, [0], [], [[]], 1, 0, UtFree, OtFree, map[0 := Rest(), 1 := Rest()], {}, {}, {}, {}, [InUT], [], 0,
          map[], [], true, 0)
  }

  lemma TinyStart()
    ensures Reachable(Tiny())
  {
    var s0 := Tiny();
    assert s0.ut == seq(1, i => i);
    assert Run([s0], []);
    assert [s0][|[s0]| - 1] == s0;
  }

  /** Process 0 starts a send and takes the only block. */
  lemma TakesBlock(s: State) returns (t: State)
    requires Reachable(s) && 0 in s.procs && s.procs[0] == Rest() && s.size == 0
    requires s.ut == [0] && s.availBlocks == 1 && s.utLock.UtFree? && s.place == [InUT] && s.sendWoken == {}
    ensures Reachable(t)
    ensures t == s.(ut := [], availBlocks := 0, place := [Held(0)],
                    procs := s.procs[0 := Rest().(at := SFill, blk := 0)])
  {
    var s1 := s.(procs := s.procs[0 := Rest().(at := SWant)]);
    ReachStep(s, s1, 0, ABegin(SWant, NoMessage()));
    var s2 := s1.(utLock := Ut(0, SIn), procs := To(s1, 0, InUt));
    ReachStep(s1, s2, 0, ATakeUt);
    var s3 := s2.(utLock := Ut(0, SPop), ut := [], place := [Held(0)], procs := s2.procs[0 := s2.procs[0].(blk := 0)]);
    assert s2.sendWoken - {0} == {};
    ReachStep(s2, s3, 0, ASendPop);
    var s4 := s3.(availBlocks := 0, utLock := UtFree, procs := To(s3, 0, SLook));
    ReachStep(s3, s4, 0, ASendCount);
    t := s4.(procs := To(s4, 0, SFill));
    ReachStep(s4, t, 0, ALook);
    assert t == s.(ut := [], availBlocks := 0, place := [Held(0)],
                   procs := s.procs[0 := Rest().(at := SFill, blk := 0)]);
  }

  lemma TinyTaken() returns (s: State)
    ensures Reachable(s)
    ensures s == Tiny().(ut := [], availBlocks := 0, place := [Held(0)],
                         procs := map[0 := Rest().(at := SFill, blk := 0), 1 := Rest()])
  {
    TinyStart();
    s := TakesBlock(Tiny());
    assert Tiny().procs[0 := Rest().(at := SFill, blk := 0)] == map[0 := Rest().(at := SFill, blk := 0), 1 := Rest()];
  }

  /** Then process 1 finds no block and parks. */
  lemma TinyParked(s: State) returns (t: State)
    requires Reachable(s)
    requires s == Tiny().(ut := [], availBlocks := 0, place := [Held(0)],
                          procs := map[0 := Rest().(at := SFill, blk := 0), 1 := Rest()])
    ensures Reachable(t)
    ensures t == s.(sendParked := {1}, procs := map[0 := Rest().(at := SFill, blk := 0), 1 := Rest().(at := SParked)])
  {
    var s1 := s.(procs := s.procs[1 := Rest().(at := SWant)]);
    ReachStep(s, s1, 1, ABegin(SWant, NoMessage()));
    var s2 := s1.(utLock := Ut(1, SIn), procs := To(s1, 1, InUt));
    ReachStep(s1, s2, 1, ATakeUt);
    var s3 := s2.(availBlocks := 0, utLock := UtFree, sendWoken := s2.sendWoken - {1}, procs := To(s2, 1, SFull));
    ReachStep(s2, s3, 1, ASendFull);
    var s4 := s3.(utLock := Ut(1, SCheck), procs := To(s3, 1, InUt));
    ReachStep(s3, s4, 1, ATakeUt);
    t := s4.(sendParked := s4.sendParked + {1}, utLock := UtFree, procs := To(s4, 1, SParked));
    ReachStep(s4, t, 1, ASendPark);
  }

  /** Then process 0 fails to fill the block and comes to give it back. */
  lemma TinyFailing(s: State) returns (t: State)
    requires Reachable(s)
    requires s == Tiny().(ut := [], availBlocks := 0, place := [Held(0)], sendParked := {1},
                          procs := map[0 := Rest().(at := SFill, blk := 0), 1 := Rest().(at := SParked)])
    ensures Reachable(t)
    ensures t == s.(sendClean := false, utLock := Ut(0, FIn),
                    procs := map[0 := Rest().(at := InUt, blk := 0), 1 := Rest().(at := SParked)])
  {
    var s1 := s.(sendClean := false, procs := To(s, 0, FWant));
    ReachStep(s, s1, 0, ASendFail);
    t := s1.(utLock := Ut(0, FIn), procs := To(s1, 0, InUt));
    ReachStep(s1, t, 0, ATakeUt);
  }

  /** It wakes nobody: process 1 stays parked beside a free block. */
  lemma SendFailLosesWakeUp()
    ensures exists s :: Reachable(s) && WakeUpLost(s)
  {
    var a := TinyTaken();
    var b := TinyParked(a);
    var s := TinyFailing(b);
    GivesBackInSilence(s);
  }

  lemma GivesBackInSilence(s: State)
    requires Reachable(s)
    requires s == Tiny().(ut := [], availBlocks := 0, place := [Held(0)], sendParked := {1}, sendClean := false,
                          utLock := Ut(0, FIn),
                          procs := map[0 := Rest().(at := InUt, blk := 0), 1 := Rest().(at := SParked)])
    ensures exists t :: Reachable(t) && WakeUpLost(t)
  {
    var s1 := s.(utLock := Ut(0, FCount), ut := s.ut + [0], place := s.place[0 := InUT],
                 procs := s.procs[0 := s.procs[0].(blk := -1, filled := false)]);
    ReachStep(s, s1, 0, AGiveBack);
    var s2 := s1.(availBlocks := s1.availBlocks + 1, utLock := UtFree, procs := To(s1, 0, Idle));
    ReachStep(s1, s2, 0, AGiveCount);
    assert 1 in s2.sendParked;
    assert WakeUpLost(s2);
  }

  // ---------------------------------------------------------------------------------------
  // A receive that leaves its message behind loses one too
  // ---------------------------------------------------------------------------------------

  /** A receiver is parked although a message is queued, both locks are free, and no other process is inside a call. */
  ghost predicate MessageStranded(s: State) {
    && s.ot != [] && s.utLock.UtFree? && s.otLock.OtFree? && s.recvWoken == {}
    && exists p :: p in s.recvParked && forall q :: q in s.procs && q != p ==> s.procs[q].at.Idle?
  }

  /** One block of no bytes, a sender 0 and receivers 1 and 2. */
  function Trio(): State {
    Tiny().(procs := map[0 := Rest(), 1 := Rest(), 2 := Rest()])
  }

  lemma TrioStart()
    ensures Reachable(Trio())
  {
    var s0 := Trio();
    assert s0.ut == seq(1, i => i);
    assert Run([s0], []);
    assert [s0][|[s0]| - 1] == s0;
  }

  /** On an empty channel an idle process that receives ends up parked. */
  lemma Parks(s: State, p: Pid)
    requires Reachable(s) && p in s.procs && s.procs[p] == Rest()
    requires s.ot == [] && s.availMsgs == 0 && s.otLock.OtFree? && s.recvWoken == {}
    ensures Reachable(s.(recvParked := s.recvParked + {p}, procs := s.procs[p := Rest().(at := RParked)]))
  {
    var s1 := s.(procs := s.procs[p := Rest().(at := RWant)]);
    ReachStep(s, s1, p, ABegin(RWant, NoMessage()));
    var s2 := s1.(otLock := Ot(p, RIn), procs := To(s1, p, InOt));
    ReachStep(s1, s2, p, ATakeOt);
    var s3 := s2.(otLock := OtFree, procs := To(s2, p, REmpty));
    assert s2.recvWoken - {p} == {};
    ReachStep(s2, s3, p, ARecvEmpty);
    var s4 := s3.(otLock := Ot(p, RCheck), procs := To(s3, p, InOt));
    ReachStep(s3, s4, p, ATakeOt);
    var s5 := s4.(recvParked := s4.recvParked + {p}, otLock := OtFree, procs := To(s4, p, RParked));
    ReachStep(s4, s5, p, ARecvPark);
    assert s5 == s.(recvParked := s.recvParked + {p}, procs := s.procs[p := Rest().(at := RParked)]);
  }

  /** The sender fills its block and takes the OT lock. */
  lemma FillsBlock(s: State) returns (t: State)
    requires Reachable(s) && 0 in s.procs && s.procs[0] == Rest().(at := SFill, blk := 0)
    requires s.blocks == [[]] && s.otLock.OtFree?
    ensures Reachable(t)
    ensures t == s.(otLock := Ot(0, SOt), procs := s.procs[0 := Rest().(at := InOt, blk := 0, filled := true)])
  {
    var s1 := s.(procs := s.procs[0 := s.procs[0].(at := SPut, filled := true)]);
    assert Overwrite(s.blocks[0], []) == [];
    assert s.blocks[0 := Overwrite(s.blocks[0], [])] == s.blocks;
    ReachStep(s, s1, 0, ASendFill);
    t := s1.(otLock := Ot(0, SOt), procs := To(s1, 0, InOt));
    ReachStep(s1, t, 0, ATakeOt);
    assert t.procs == s.procs[0 := Rest().(at := InOt, blk := 0, filled := true)];
  }

  /** It queues the message and is about to trigger. */
  lemma QueuesMessage(s: State) returns (t: State)
    requires Reachable(s) && 0 in s.procs && s.procs[0] == Rest().(at := InOt, blk := 0, filled := true)
    requires s.cap == 1 && s.ot == [] && s.otLock == Ot(0, SOt) && s.place == [Held(0)] && s.sent == []
    ensures Reachable(t)
    ensures t == s.(ot := [ItemFor(NoMessage(), 0)], sent := [NoMessage()], place := [InOT],
                    availMsgs := s.availMsgs + 1,
                    otLock := Ot(0, SOtTrig), procs := s.procs[0 := Rest().(at := InOt)])
  {
    var s1 := s.(otLock := Ot(0, SOtCount), ot := [ItemFor(NoMessage(), 0)], sent := [NoMessage()],
                 place := [InOT], procs := s.procs[0 := s.procs[0].(blk := -1, filled := false)]);
    ReachStep(s, s1, 0, ASendInsert);
    t := s1.(availMsgs := s1.availMsgs + 1, otLock := Ot(0, SOtTrig));
    ReachStep(s1, t, 0, ASendOtCount);
  }

  /** Receiver 1 is woken, fails with the message still queued and returns; receiver 2 stays parked beside it. */
  lemma RejectLosesWakeUp()
    ensures exists s :: Reachable(s) && MessageStranded(s)
  {
    TrioStart();
    var s0 := Trio();
    Parks(s0, 1);
    var s1 := s0.(recvParked := s0.recvParked + {1}, procs := s0.procs[1 := Rest().(at := RParked)]);
    Parks(s1, 2);
    var s2 := s1.(recvParked := s1.recvParked + {2}, procs := s1.procs[2 := Rest().(at := RParked)]);
    var s3 := TakesBlock(s2);
    var s4 := FillsBlock(s3);
    var s5 := QueuesMessage(s4);
    Rejects(s5);
  }

  lemma Rejects(s: State)
    requires Reachable(s)
    requires s.procs == map[0 := Rest().(at := InOt), 1 := Rest().(at := RParked), 2 := Rest().(at := RParked)]
    requires s.recvParked == {1, 2} && s.recvWoken == {} && s.otLock == Ot(0, SOtTrig) && s.utLock.UtFree? && s.ot != []
    ensures exists t :: Reachable(t) && MessageStranded(t)
  {
    var s1 := s.(procs := map[0 := Rest(), 1 := Rest().(at := RWant), 2 := Rest().(at := RParked)],
                 recvParked := {2}, recvWoken := {1}, otLock := OtFree);
    assert s.recvParked - {1} == {2} && s.recvWoken + {1} == {1};
    assert WakeReceiver(s, 1).procs == map[0 := Rest().(at := InOt), 1 := Rest().(at := RWant),
                                           2 := Rest().(at := RParked)];
    ReachStep(s, s1, 0, ASendTrigger(1));
    LeavesMessage(s1);
  }

  lemma LeavesMessage(s1: State)
    requires Reachable(s1) && s1.procs == map[0 := Rest(), 1 := Rest().(at := RWant), 2 := Rest().(at := RParked)]
    requires s1.recvParked == {2} && s1.recvWoken == {1} && s1.otLock.OtFree? && s1.utLock.UtFree? && s1.ot != []
    ensures exists t :: Reachable(t) && MessageStranded(t)
  {
    var s2 := s1.(otLock := Ot(1, RIn), procs := To(s1, 1, InOt));
    ReachStep(s1, s2, 1, ATakeOt);
    var s3 := s2.(otLock := OtFree, recvWoken := {}, procs := To(s2, 1, Idle));
    assert s2.recvWoken - {1} == {};
    ReachStep(s2, s3, 1, ARecvReject);
    assert 2 in s3.recvParked;
    assert MessageStranded(s3);
  }

  // ---------------------------------------------------------------------------------------
  // A channel can lose all its blocks
  // ---------------------------------------------------------------------------------------

  /** One send that fails after filling its block, and a channel of one block is dead although nobody uses it. */
  lemma DeadChannel()
    ensures exists s :: Reachable(s) && s.lost == s.cap == 1 && s.ut == [] && s.ot == [] && s.utLock.UtFree?
                        && s.otLock.OtFree?
                        && forall p :: p in s.procs ==> s.procs[p].at.Idle?
  {
    var s := TinyTaken();
    var s1 := s.(procs := s.procs[0 := s.procs[0].(at := SPut, filled := true)]);
    assert Overwrite(s.blocks[0], []) == [];
    assert s.blocks[0 := Overwrite(s.blocks[0], [])] == s.blocks;
    ReachStep(s, s1, 0, ASendFill);
    var s2 := Dropped(s1, 0);
    ReachStep(s1, s2, 0, ASendLose);
    assert s2.lost == 1 && forall p :: p in s2.procs ==> s2.procs[p].at.Idle?;
  }
}
