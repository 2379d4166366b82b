# Verified models of the Dragon runtime core

The C core of the Dragon runtime keeps its channels, hash tables, block stores and bitsets in shared
memory and lets many processes work on them at once. This project models the parts of that core whose
correctness rests on invariants nobody can see in one function, and proves them in Dafny 4.11:

- `Channels.dfy`: a channel as a step machine for any number of senders, receivers and peekers, cut at
  every point where another process can look. Blocks are conserved, every run is a bounded
  first-in first-out queue, what a receive hands out is what the call of the send was given, every call
  ends with exactly the effect its result says, nothing locks up and no wake-up is lost.
- `Barrier.dfy`, `Semaphore.dfy`: the barrier and semaphore modes of the channel poll, with the barrier
  client, as state machines over every interleaving.
- `PriorityHeap.dfy`: the array heap behind the two tables of a channel refines a first-in first-out queue.
- `BCast.dfy`: the ticket and spin-slot protocol that puts waiters to sleep and lets them out: how many a
  trigger lets out at most and at least.
- `Hashtable.dfy`: open addressing with placeholders, left sweep and in-place rehash refines a finite map.
- `Bitset.dfy`: packed, bit-reversed bytes with a word-skipping scan refine a set of naturals.
- `Blocks.dfy`: a block store with a free list threaded through its identifiers refines a map.
- `Sieve.dfy`, `MergePool.dfy`, `MergeNet.dfy`: the two process networks of the examples, a self-extending
  prime sieve and a recursive merge tree, as interleaving processes with bounded queues and against their
  functional specifications.
- `Counting.dfy`: cardinalities, remainders and a little about runs that several of them share.

Concurrent code is modelled by states, a `Step` relation whose cases are the source's atomic stretches,
and runs: sequences of states from an initial one. What a theorem says of `ss[n]` holds in every state of
every run. Fields under "history" record what happened and are read by no step's guard. Code that works
in place is a class whose methods contain the source's loops.

Several properties that the code or its comments suggest are false as they stand. In each case the model
keeps the code, a lemma exhibits the failure, and the condition under which the property holds is proved,
exactly wherever the table says "iff":

| what fails | shown by | holds |
|---|---|---|
| a sender that leaves through `ch_send_fail` gives its block back without a trigger, and a parked sender sleeps beside a free block | `Channels.SendFailLosesWakeUp` | iff no such give-back meets as many free blocks as woken senders (`Channels.SendersCoveredIff`) |
| a receive that fails under the lock strands a parked receiver beside a queued message | `Channels.RejectLosesWakeUp` | iff it is not the last woken one for the messages there are (`Channels.ReceiversCoveredIff`) |
| an error return after a pop or a fill loses its block, and a channel can lose all of them | `Channels.DeadChannel` | blocks add up with the lost ones, which are as many as such returns (`Channels.LostIsLosses`) |
| a barrier whose counted waiter threw stays unusable after a reset, and so does one that has lost a block | `Barrier.LeavingWedges`, `Barrier.AbandonedIsStuck` | iff no counted waiter has left without its value and no receive has lost its block (`Barrier.UsableIff`) |
| a semaphore Z returns on an old zero | `Semaphore.StaleInTwo`, `Semaphore.ZeroCanBeStale` | iff no zero trigger is outstanding when it parks (`Semaphore.StaleIff`) |
| an idle waiter nobody triggered is released when the ticket counter wraps | `BCast.UntriggeredReturn` | iff no ticket is won from a count that was drawn from more than 2^31 times beyond the value last stored (`BCast.FairIff`) |
| a trigger for more waiters than there are keeps the lock for ever | `BCast.LockLeaks`, `BCast.DoomedForever` | iff no trigger finds waiters but too few (`BCast.DoomedIff`) |
| the priority heap stops being first in, first out when its counter comes round | `PriorityHeap.Heap.WrapOvertakes` | iff that does not happen while something is queued (`PriorityHeap.Heap.Insert`) |
| adding a key that is present stores it twice | `Slots.AddSoundIff` | iff the key is absent (`Slots.AddSoundIff`) |
| removing a key makes another one unreachable | `Slots.TrapSet`, `Slots.TrapSprings` | iff 2^64 mod the number of slots is at most 2 (`Slots.RemoveSafeIff`) |
| a rehash copies eight entries for one and writes beyond the scratch space of a small table | `Slots.SpillReached`, `Slots.SpillEscapes` | iff it has no entries or seven fewer than slots (`Slots.SpillIff`), always so from twelve slots on (`Slots.SpillFits`) |
| the word skip of the bitset scan jumps over a member | `Scanning.OvershootHappens` | iff the start is not an `Overshoot` (`Scanning.ScanExactIff`) |
| freeing the end mark of the free list, or an identifier left over in fresh memory, breaks the block store | `Blocks.EndMarkReached`, `Blocks.EndMarkFreed`, `Blocks.FreshMemoryFreed` | iff no stray identifier is freed (`Blocks.RunSoundIff`); one that came from alloc is not stray (`Blocks.IssuedIsOlder`) |
| a merge pool with fan-in 1 starts itself again for ever | `MergePool.ChunkShrinks` | iff the fan-in is at least 2 (`MergePool.ChunkShrinks`) |
| a node of the merge tree may have up to 2 * fan-in - 1 sources where the comment promises fan-in | `MergePool.ChunksBound` | for one node iff the fan-in divides the number of sources (`MergePool.ChunksExact`), for the whole tree iff it does so again and again until no more are left than the fan-in (`MergeNet.BuiltNarrowIff`) |

Where code and comment disagree the model follows the code. Besides the cases above: `get` and `remove` of
an absent key report a failure rather than a missing key when every slot but the last one probed is
allocated; the empty-set shortcut of the bitset scan (`src/lib/bitset.c:495`) compares a pointer with zero
and never applies; `first` and `count` of the block store differ on an empty substring.

## Model

| member | source | states |
|---|---|---|
| `Channels.StepInv` | src/lib/channels.c:1227-1550 | every atomic step of every process keeps all channel invariants, and the heap-full branch is never taken |
| `Channels.RunInv` | src/lib/channels.c:605-634 | every reachable state of a channel that starts with all blocks free satisfies the invariants |
| `Channels.EachBlockOnce` | src/lib/channels.c:622-631 | every block is in exactly one of the usage table, the ordering table, one process's hands and the lost ones |
| `Channels.BlocksConserved` | src/lib/channels.c:1280-1721 | free, queued, held and lost blocks add up to the capacity |
| `Channels.OtNeverFull` | src/lib/channels.c:1449-1458 | whoever is about to insert holds a block, so the ordering table cannot be full |
| `Channels.CountersMeanWhatTheySay` | src/lib/channels.c:1152-1156 | with the lock free each counter is its table's size; all blocks available iff nothing is queued, held or lost; as many messages as the capacity iff all blocks are queued |
| `Channels.LosePlaced` | src/lib/channels.c:1734-1833 | an error return after the pop takes a block out of the hands that held it and puts it nowhere |
| `Channels.LostIsLosses` | src/lib/channels.c:1737-1751 | the lost blocks are as many as the sends and receives that returned with one |
| `Channels.LostForGood` | src/lib/channels.c:2070-2085 | lost blocks never come back: from then on free, queued and held blocks stay within what is left of the capacity |
| `Channels.DeadForGood` | src/lib/channels.c:1262-1276 | with every block lost no send ever gets a block and no receive a message again |
| `Channels.DeadChannel` | src/lib/channels.c:1432-1435 | a reachable idle channel of one block that is lost |
| `Channels.QueueIsUntaken` | src/lib/channels.c:954-990 | decoding the ordering table against block memory gives exactly the messages sent and not yet taken |
| `Channels.StepRefinesQueue` | src/lib/channels.c:1435-1470 | the insert enqueues the sender's message, the pop dequeues the oldest into the receiver's hands, every other step leaves the queue alone, and it never exceeds the capacity |
| `Channels.FifoDelivery` | src/lib/channels.c:1583-1835 | in every run messages are taken in insertion order, and each receiver and each peek gets the payload, hints and ids its sender wrote |
| `Channels.DeliveredOnce` | src/lib/channels.c:1708-1835 | no message is copied out twice |
| `Channels.SentIsGiven` | src/lib/channels.c:1334-1345 | in every run the insert of a send puts at the end of the queue the message its call was given |
| `Channels.DeliveredIsPopped` | src/lib/channels.c:1768-1800 | in every run the copy of a receive hands out the message its pop took, exactly as it was sent, iff it is not to be discarded, and changes no other delivery |
| `Channels.EndToEnd` | src/lib/channels.c:1227-1835 | the receive that pops the place a send was queued in hands out the message that was given to the call of that send |
| `Channels.PeekIsFront` | src/lib/channels.c:1850-1882 | a peek gets the oldest queued message, or nothing from an empty queue, and takes nothing |
| `Channels.SendReturns` | src/lib/channels.c:1227-1490 | a send returns after its trigger, having queued its message exactly once, or with a timeout, through ch_send_fail or with its block lost, having queued nothing |
| `Channels.RecvReturns` | src/lib/channels.c:1583-1835 | a receive returns after one pop and one copy, or with its block lost after one pop, or with a timeout or an error under the lock, having popped nothing |
| `Channels.PeekReturns` | src/lib/channels.c:1850-1882 | a peek returns with its look at the queue and in no other way |
| `Channels.PoppedReturnsSoon` | src/lib/channels.c:1280-1490 | after it has popped a block or a message a call returns within ten steps of its own, whatever the others do |
| `Channels.FullWhen` | src/lib/channels.c:1262-1276 | a send finds the channel full iff every block is queued, in hands or lost |
| `Channels.EmptyWhen` | src/lib/channels.c:1583-1597 | a receive finds the channel empty iff the queue is |
| `Channels.TriggerWakesOne` | src/lib/channels.c:1134-1150 | a trigger wakes exactly one sleeper of its own side, if there is one, and touches nobody else |
| `Channels.LookWakes` | src/lib/channels.c:1286-1292 | a send or receive that sees more blocks or messages after its pop wakes one more of its kind with its next step |
| `Channels.NeverLocksUp` | src/lib/channels.c:1227-1835 | whoever is in a call and not parked can take a step that does not fail, or waits for a lock whose holder can |
| `Channels.SendAlone` | src/lib/channels.c:1227-1490 | from every state that keeps the invariants, with a free block and no lock in other hands, an undisturbed send goes through and its message joins the end of the queue |
| `Channels.RecvAlone` | src/lib/channels.c:1583-1835 | from every state that keeps the invariants, with a queued message and no lock in other hands, an undisturbed receive goes through and hands out the oldest one |
| `Channels.SendFillFaithful` | src/lib/channels.c:1300-1430 | writing a block outside every lock disturbs no queued and no popped message |
| `Channels.RecvCopyFaithful` | src/lib/channels.c:1723-1835 | reading a block after the lock is gone still yields what its sender wrote |
| `Channels.SendersCoveredStep` | src/lib/channels.c:1134-1150 | given that every free block has a woken sender or a pending trigger while a sender is parked, a step breaks that iff it is the give-back of `ch_send_fail` with as many free blocks as woken senders |
| `Channels.ReceiversCoveredStep` | src/lib/channels.c:1472-1474 | the same for queued messages and receivers: iff it is a receive that fails under the lock as the last woken one for the messages there are |
| `Channels.SendersCoveredIff` | src/lib/channels.c:4138-4161 | senders are covered in every state of a run up to n iff no event before n is such a give-back |
| `Channels.ReceiversCoveredIff` | src/lib/channels.c:4409-4428 | receivers are covered in every state of a run up to n iff no event before n is such a failure |
| `Channels.NoLostSender` | src/lib/channels.c:4138-4161 | as long as no send fails, a parked sender beside a free block means a trigger is due or a woken sender is on its way |
| `Channels.NoLostReceiver` | src/lib/channels.c:4409-4428 | as long as no receive leaves its message behind, a parked receiver beside a message means a trigger is due or a woken receiver is on its way |
| `Channels.SendFailLosesWakeUp` | src/lib/channels.c:1018-1040 | a reachable state with a sender parked, a block free, both locks free and everybody else idle |
| `Channels.RejectLosesWakeUp` | src/lib/channels.c:1700-1704 | a reachable state with a receiver parked beside a queued message, both locks free and everybody else idle, after a receive that failed under the lock |
| `Barrier.Header.ReleaseWaiters` | src/lib/channels.c:1042-1125 | the release loop turns the header into the one after one message per counted waiter, and fails, half done, exactly when the usage table runs out |
| `Barrier.StepInv` | src/lib/channels.c:4735-4876 | every poll, abort, reset, receive and give-back keeps the barrier invariants |
| `Barrier.RunInv` | src/lib/barrier.cpp:76-195 | they hold in every state of every run of the barrier client |
| `Barrier.ReleaseNeverStarves` | src/lib/channels.c:1065-1093 | the count never exceeds the capacity or the free blocks, a round that fills up has every block home, and the reset flag is down between steps |
| `Barrier.RoundsDoNotMix` | src/lib/channels.c:4793-4833 | a waiter receives a message released for the round it was counted in, the next in that round's order, and it had not received before |
| `Barrier.ServedRound` | src/lib/channels.c:1058-1063 | every round but the last is served; a served round gave each member one value: 0 to capacity - 1 in order if full and unbroken, the broken value to all otherwise |
| `Barrier.AbortBreaks` | src/lib/channels.c:4842-4860 | an abort, a wait that times out and a counted waiter that fails leave the barrier broken and close the round that was filling up with the broken value for every member |
| `Barrier.ReleaseServes` | src/lib/channels.c:4735-4757 | a release and a reset close a full round with 0 to capacity - 1 and any other with the broken value, and a reset makes the barrier whole |
| `Barrier.ClosedWith` | src/lib/channels.c:4735-4876 | in every run a round is closed with the indices iff it is full and the step that closes it does not break the barrier, which only abort, timeout and failure do |
| `Barrier.BrokenUntilReset` | src/lib/channels.c:4770-4774 | a broken barrier stays broken, counts nobody and releases no round until it is reset |
| `Barrier.WaitIff` | src/lib/channels.c:4793-4838 | a wait is counted iff the barrier is whole, every block is home and the round has room, and is told to release iff it completes the round |
| `Barrier.BreakersAreFree` | src/lib/channels.c:4842-4860 | abort and reset are open to everybody at any time, timing out to every caller that waits, failing to every counted one |
| `Barrier.HeldUpBySomeone` | src/lib/channels.c:4793-4826 | while nobody has left and no block is lost, a caller held up in the waiting loop of an unbroken barrier is held up by a process that can move |
| `Barrier.HoldUpShrinks` | src/lib/barrier.cpp:108-157 | until somebody new is counted no step adds to the moves the counted waiters have left, and each of their own takes one off |
| `Barrier.HoldUpEnds` | src/lib/channels.c:4793-4826 | a stretch of a run in which nobody is counted has no more moves of counted waiters than were left at its start, so a hold-up ends |
| `Barrier.RunKept` | src/lib/barrier.cpp:108-125 | while a full round waits, the process told to release it is still there |
| `Barrier.AbandonedIsStuck` | src/lib/barrier.cpp:132-157 | once a counted waiter left without its value or a receive lost its block nobody is ever counted again, whatever is reset |
| `Barrier.LeavingWedges` | src/lib/barrier.cpp:108-117 | a four-state run: count, throw, reset, and the unbroken idle barrier admits nobody |
| `Barrier.UsableIff` | src/lib/barrier.cpp:76-210 | from every reachable state of a barrier that anybody uses some path leads to a waiter being counted iff no counted waiter has left without its value and no receive has lost its block |
| `Semaphore.RunInv` | src/lib/channels.c:4878-4938 | value conservation, the wake-up bound and the zero announcement hold in every run |
| `Semaphore.ValueIsBalance` | src/lib/channels.c:4895-4917 | the value is initial plus the V of the run that were not refused minus the P that found a unit, modulo 2^64, exactly so when bounded or when fewer than 2^64 units went in, and at most the initial value when bounded |
| `Semaphore.RaiseIff` | src/lib/channels.c:4909-4922 | V is refused iff the semaphore is bounded and at its initial value; otherwise it adds one and owes a trigger |
| `Semaphore.TakeIff` | src/lib/channels.c:4878-4907 | P, new or woken, takes exactly one unit if there is one and sleeps otherwise; it owes the zero trigger iff it took the last |
| `Semaphore.WakesOne` | src/lib/channels.c:4919-4920 | the trigger of V wakes exactly one sleeping P, if there is one |
| `Semaphore.CountsAreCalls` | src/lib/channels.c:4878-4922 | in every run the counts of V and P are the V that were not refused and the P that found a unit |
| `Semaphore.SleeperLeaves` | src/lib/channels.c:4882-4891 | a P that slept leaves by its own step only, with a timeout or with one unit |
| `Semaphore.ZeroSleepsIff` | src/lib/channels.c:4924-4936 | Z sleeps iff the value is not zero |
| `Semaphore.ZeroLeaves` | src/lib/channels.c:4924-4936 | a Z that slept leaves with a timeout or with the trigger of a P that made zero |
| `Semaphore.NobodyIsStuck` | src/lib/channels.c:4878-4938 | P, V and Z are open to everybody outside, and whoever is inside and not asleep can go on |
| `Semaphore.NoLostWakeUp` | src/lib/channels.c:4882-4922 | while a P is parked the value is at most the woken P plus the V yet to trigger; with neither it is zero |
| `Semaphore.NoLostZero` | src/lib/channels.c:4897-4938 | with all triggers delivered and no wrap-around nobody sleeps in Z at zero |
| `Semaphore.StaleInTwo` | src/lib/channels.c:4924-4938 | from every state with a positive value and a zero trigger outstanding, a Z that parks is freed two steps later with the value unchanged |
| `Semaphore.StaleIff` | src/lib/channels.c:4924-4938 | a Z that parks can return without the value having been zero iff a zero trigger is outstanding at that moment |
| `Semaphore.ZeroCanBeStale` | src/lib/channels.c:4895-4938 | a run reaches a state from which a Z returns without a zero |
| `PriorityHeap.RootIsLeast` | src/lib/priority_heap.c:18-43 | in a heap of any fan-out the root has the least number |
| `PriorityHeap.RootIsLeastOf` | src/lib/priority_heap.c:269-285 | the root of a heap that holds a queue's entries is a least one of them, and the front if the numbers go up |
| `PriorityHeap.RiseStep` | src/lib/priority_heap.c:60-65 | one swap upwards leaves at most the moved entry out of place |
| `PriorityHeap.SinkStep` | src/lib/priority_heap.c:25-41 | one swap with the least child leaves at most the moved entry out of place |
| `PriorityHeap.Heap.Raise` | src/lib/priority_heap.c:45-68 | restores heap order and keeps the entries |
| `PriorityHeap.Heap.Highest` | src/lib/priority_heap.c:25-34 | the least child if it is below the entry, otherwise the entry itself |
| `PriorityHeap.Heap.Sink` | src/lib/priority_heap.c:18-43 | restores heap order and keeps the entries |
| `PriorityHeap.Heap.Pop` | src/lib/priority_heap.c:295-311 | removes exactly the root and restores heap order |
| `PriorityHeap.Heap.Insert` | src/lib/priority_heap.c:202-224 | appends at the back of the queue with the next 64-bit number, or reports a full heap and changes nothing; the queue stays in order iff the counter does not come round while something is queued |
| `PriorityHeap.Heap.Extract` | src/lib/priority_heap.c:323-334 | takes an entry with the least number, which is the front of a queue in order, or reports an empty heap |
| `PriorityHeap.Heap.Append` | src/lib/priority_heap.c:70-91 | adds exactly one entry and keeps heap order |
| `PriorityHeap.Heap.WrapOvertakes` | src/lib/priority_heap.c:202-224 | from a heap of one entry whose counter is at its end, an insert and an extract hand out the newcomer and leave the older entry queued |
| `BCast.StepInv` | src/lib/bcast.c:459-733 | every atomic access of waiters and triggers keeps the invariants |
| `BCast.RunInv` | src/lib/bcast.c:2036-2193 | they hold in every state of every run |
| `BCast.SlotHasOneOwner` | src/lib/bcast.c:632-643 | a spin slot is 0, 1 or 2, is in use iff some process spins on it, and no two do |
| `BCast.RoundsAreRationed` | src/lib/bcast.c:2128-2147 | as long as no ticket is won after the count has gone round, slots flipped plus tickets granted of a round never exceed what it was asked for, and no more waits return than were asked for in all, fall-over from spinning to sleeping included |
| `BCast.FairIff` | src/lib/bcast.c:516-529 | up to state n every round lets out at most what it was asked for and nobody else is let out, iff no event before n wins a ticket from a count drawn from more than 2^31 times beyond the value last stored |
| `BCast.ScanLeavesNoSpinner` | src/lib/bcast.c:2128-2147 | when the scan of a trigger is over its round is filled or no spinner is left that was not let out, and exactly the rest of the round goes out as tickets |
| `BCast.FirstDrawsWin` | src/lib/bcast.c:516-529 | until the count goes round the draws that win are exactly the first ones after the tickets went out, as many as there are tickets |
| `BCast.RoundAsked` | src/lib/bcast.c:2108-2126 | a call for k starts a round for k, or for all waiters if k is INT_MAX, or loses the lock if that is negative or more than wait |
| `BCast.TriggerDone` | src/lib/bcast.c:2151-2190 | a trigger that completes has seen as many waits report since it was called as it was to let out, or nobody waits any more |
| `BCast.TriggerNotStuck` | src/lib/bcast.c:2151-2187 | while the count has not gone round, a trigger whose loop is not over is held up only by waits that can take a step on their way out |
| `BCast.FlagMeans` | src/lib/bcast.c:2125-2126 | the triggering flag is up iff a trigger is at work, and the number to trigger is what its round was asked for |
| `BCast.CountersAreExact` | src/lib/bcast.c:478-484 | the waiter and spinner counters are the numbers of waiting and spinning processes, so no decrement goes below zero |
| `BCast.UntriggeredReturn` | src/lib/bcast.c:516-529 | a run without any trigger in which a waiter is released, so that it is not fair |
| `BCast.DoomedIff` | src/lib/bcast.c:2117-2123 | the lock is lost or about to be by state n iff an earlier trigger found waiters but fewer than it asked for |
| `BCast.DoomedForever` | src/lib/bcast.c:2122-2123 | from then on no wait begins and no round starts |
| `BCast.LockLeaks` | src/lib/bcast.c:2117-2123 | a run of three steps that loses the lock: one waiter and a trigger for two |
| `BCast.LockNeverLeaks` | src/lib/bcast.c:2036-2065 | runs whose triggers wake one or all never lose the lock |
| `Slots.LeftIsBeforeIff` | src/lib/hashtable.c:798-817 | the left step in 64-bit arithmetic is the cyclic predecessor of every slot iff the number of slots divides 2^64 |
| `Slots.FindMeans` | src/lib/hashtable.c:887-924 | the probe loop stops at the first slot that ends the search, or has seen every slot |
| `Slots.FindCorrect` | src/lib/hashtable.c:865-927 | a key is found iff the map has it, with its value; an absent one is reported missing iff a slot before the last one probed is unallocated |
| `Slots.AddFindsSlot` | src/lib/hashtable.c:640-661 | with fewer live entries than slots add finds a slot, so its wrap-around failure is dead |
| `Slots.PutCorrect` | src/lib/hashtable.c:640-688 | adding an absent key keeps every probe chain and adds exactly that entry |
| `Slots.AddSoundIff` | src/lib/hashtable.c:640-688 | add keeps the table valid iff the key was absent |
| `Slots.PathAvoids` | src/lib/hashtable.c:787-822 | no live key's probe path runs over a placeholder the sweep clears |
| `Slots.SweepKeeps` | src/lib/hashtable.c:787-822 | the sweep clears placeholders only and keeps every chain |
| `Slots.TakeOutCorrect` | src/lib/hashtable.c:770-825 | removing an entry removes exactly that key |
| `Slots.RemoveSafeIff` | src/lib/hashtable.c:778-823 | removal is safe on every table of n slots iff 2^64 mod n is at most 2 |
| `Slots.TrapSet` | src/lib/hashtable.c:735-852 | three adds and a remove reach the layout that breaks |
| `Slots.TrapSprings` | src/lib/hashtable.c:787-822 | on it, removing one key makes another unreachable |
| `Slots.ListedAll` | src/lib/hashtable.c:213-279 | listing the live entries and adding them to an empty table gives the map back |
| `Slots.SpillFits` | src/lib/hashtable.c:245-250 | a table of twelve slots or more that is due for a rehash has few enough entries for the copies to stay inside the scratch space |
| `Slots.SpillReached` | src/lib/hashtable.c:245-250 | in four slots, four adds and three removes lead to a table of one entry that is due for a rehash |
| `Slots.SpillEscapes` | src/lib/hashtable.c:245-250 | rehashing that table puts four entries from behind the slots into the memory behind the scratch space |
| `Slots.CopiedMeans` | src/lib/hashtable.c:233-253 | after any number of copies of eight entries each, the scratch space begins with the live entries in slot order, then come the seven entries behind the last live slot, and the rest is as it was |
| `Slots.SpillIff` | src/lib/hashtable.c:233-253 | the copies leave the memory behind the scratch space alone, whatever it holds, iff there is nothing to copy or there are seven fewer entries than slots |
| `Hashtable.Table.CopyEntry` | src/lib/hashtable.c:246-248 | one copy overwrites exactly eight entries of the scratch space with the entry and the seven behind it, because a byte length is taken for words |
| `Hashtable.Table.CopyOut` | src/lib/hashtable.c:233-253 | the loop, which stops at the last live entry, leaves in the scratch space what copying all of them leaves |
| `Hashtable.Table.constructor` | src/lib/hashtable.c:350-445 | an empty table with twice the maximum number of entries as slots |
| `Hashtable.Table.Probe` | src/lib/hashtable.c:887-924 | the probe loop computes `Find` |
| `Hashtable.Table.Get` | src/lib/hashtable.c:865-927 | returns the map's value iff the key is present |
| `Hashtable.Table.FindFree` | src/lib/hashtable.c:640-661 | the first slot from the key's home that is not live |
| `Hashtable.Table.Add` | src/lib/hashtable.c:607-700 | adds an absent key, rehashing first if needed, or reports a full table and changes nothing; at most one rehash deep |
| `Hashtable.Table.Rehash` | src/lib/hashtable.c:213-279 | keeps the map, ends without placeholders, and says entry by entry what becomes of the memory behind the scratch space: unchanged if the last copy fits, otherwise the end of that copy and nothing further; unchanged from twelve slots on |
| `Hashtable.Table.TakeSlot` | src/lib/hashtable.c:770-825 | unlinks one entry from table and map |
| `Hashtable.Table.SweepLeft` | src/lib/hashtable.c:798-822 | the sweep loop computes `Sweep` and counts placeholders |
| `Hashtable.Table.Remove` | src/lib/hashtable.c:735-852 | removes the key from the map, succeeding iff it was there; an absent key is reported missing iff a slot before the last one probed is unallocated |
| `Hashtable.Table.Replace` | src/lib/hashtable.c:712-723 | the map with the key rebound, or unchanged and full |
| `Hashtable.Table.IteratorNext` | src/lib/hashtable.c:937-993 | the next live entry in slot order, so that a full iteration lists the live entries once each |
| `Bits.TurnOn` | src/lib/bitset.c:325-335 | sets one bit and no other; the byte changes iff the bit was off |
| `Bits.TurnOff` | src/lib/bitset.c:369-379 | clears one bit and no other; the byte changes iff the bit was on |
| `Bits.Extract` | src/lib/bitset.c:425-433 | the shifted bit is 1 iff it is set |
| `Bitset.ZeroByteIsEmpty` | src/lib/bitset.c:518-527 | a byte is zero iff none of its eight numbers is a member |
| `Bitset.ZeroWordIsEmpty` | src/lib/bitset.c:505-517 | a word is zero iff none of its sixty-four numbers is a member |
| `Bitset.Bitset.constructor` | src/lib/bitset.c:100-135 | the empty set, in memory that holds anything |
| `Scanning.ScanExactIff` | src/lib/bitset.c:501-540 | the skipping scan stops at the next member or the end iff it does not start out of step in an empty word, with the next member lower in its own word and room to jump past it |
| `Scanning.NextFromMember` | src/lib/bitset.c:594-623 | from a member the scan is always right |
| `Scanning.OvershootHappens` | src/lib/bitset.c:501-540 | in {64} of size 128 the scan from 2 reports no further member |
| `Bitset.Bitset.Clear` | src/lib/bitset.c:147-161 | the empty set, from any bytes whatever |
| `Bitset.Bitset.Put` | src/lib/bitset.c:316-342 | adds the member, keeps the length the cardinality and the cached minimum exact |
| `Bitset.Bitset.Get` | src/lib/bitset.c:411-434 | membership; false and an error out of bounds |
| `Bitset.Bitset.ZeroesToRight` | src/lib/bitset.c:481-540 | the loop with its word and byte skips computes `Scan` |
| `Bitset.Bitset.Reset` | src/lib/bitset.c:358-395 | removes the member and keeps the length the cardinality; an exact cached minimum stays exact iff the scan for the new one does not overshoot |
| `Bitset.Bitset.FirstMember` | src/lib/bitset.c:555-592 | with an exact cache the least member or completion; fails exactly when the cache points at a non-member |
| `Bitset.Bitset.Next` | src/lib/bitset.c:594-623 | where the scan ends: from a member the next larger one or completion, from elsewhere so iff the scan does not overshoot |
| `Blocks.InUseIff` | src/lib/blocks.c:289-295 | an initialised slot passes the in-use test iff it is not on the free list |
| `Blocks.AcceptsIff` | src/lib/blocks.c:249-256 | get, free and next accept an identifier iff it is live, or a slot never handed out holds it, or it is the end mark and the last slot of the list is the one it points at |
| `Blocks.RotatesIff` | src/lib/blocks.c:188-196 | the rotation test in 64-bit arithmetic says that one more generation would reach the end mark |
| `Blocks.NewIdGood` | src/lib/blocks.c:192-200 | an identifier never wraps, lies between the number of slots and the end mark and leads back to its slot |
| `Blocks.PickIsFree` | src/lib/blocks.c:176-183 | alloc takes a fresh slot iff the free list is empty, and its head otherwise |
| `Blocks.AllocValid` | src/lib/blocks.c:169-202 | alloc keeps the free list acyclic and covering exactly the initialised unused slots |
| `Blocks.AllocCorrect` | src/lib/blocks.c:169-202 | alloc adds exactly one entry under an identifier that was not in use |
| `Blocks.FreeCorrect` | src/lib/blocks.c:218-232 | free removes exactly one entry and puts its slot at the head of the list |
| `Blocks.UsedIsLive` | src/lib/blocks.c:169-173 | the used count is the number of entries, so alloc refuses iff every slot is in use; the list has initialised minus used slots |
| `Blocks.RunSound` | src/lib/blocks.c:150-234 | a caller that frees only identifiers alloc may have given keeps the structure sound for ever |
| `Blocks.FreeSoundIff` | src/lib/blocks.c:218-232 | freeing an accepted identifier leaves the structure sound iff it is not a stray one |
| `Blocks.RunSoundIff` | src/lib/blocks.c:150-235 | whatever is called, the structure is sound up to state n iff no call before freed a stray identifier |
| `Blocks.IssuedIsOlder` | src/lib/blocks.c:188-200 | what alloc gives out is such an identifier and belongs to the current turn of the generation counter |
| `Blocks.DeadStaysDead` | src/lib/blocks.c:249-256 | whatever is called, as long as no stray identifier is freed, a freed identifier is rejected in every later state until the counter rotates |
| `Blocks.EndMarkAccepted` | src/lib/blocks.c:218-227 | the end mark is taken for an identifier iff the last slot of the list is the one it points at |
| `Blocks.EndMarkReached` | src/lib/blocks.c:169-232 | alloc, alloc and free lead to a state in which the end mark is accepted |
| `Blocks.EndMarkFreed` | src/lib/blocks.c:218-232 | there, freeing the end mark makes two allocs take the same slot and loses a live block |
| `Blocks.FreshMemoryFreed` | src/lib/blocks.c:218-232 | a new structure in memory that holds 3 accepts and frees 3, and its used count wraps |
| `Blocks.FirstIsListed` | src/lib/blocks.c:315-323 | the scan loop finds the first match and what remains is the rest of the listing |
| `Blocks.IterationVisitsAll` | src/lib/blocks.c:297-365 | first, then next until completion, visits every live block with the substring once, in slot order, as many as count counts |
| `Blocks.Store.Alloc` | src/lib/blocks.c:150-203 | the new state is that of `Taken`, or out of space and unchanged |
| `Blocks.Store.Free` | src/lib/blocks.c:205-234 | the new state is that of `Freed`, or an error and unchanged |
| `Blocks.Store.Get` | src/lib/blocks.c:236-261 | the stored value iff accepted, with the two error codes told apart |
| `Blocks.Store.Count` | src/lib/blocks.c:263-297 | the number in use without a value; with one, the length of the listing |
| `Blocks.Store.First` | src/lib/blocks.c:299-326 | the first match or completion |
| `Blocks.Store.Next` | src/lib/blocks.c:328-364 | the first match after an accepted identifier, or completion, or an error |
| `Primes.PrimeIff` | examples/multiprocessing/prime_numbers.py:32-43 | a number is prime iff no smaller prime divides it |
| `Sieve.IsRelativelyPrime` | examples/multiprocessing/prime_numbers.py:32-43 | the loop with its early exit computes `Passes` |
| `Sieve.PassesIsFree` | examples/multiprocessing/prime_numbers.py:32-43 | for primes in order below the number the early exit changes nothing |
| `Sieve.OrderMatters` | examples/multiprocessing/prime_numbers.py:36-38 | in another order it does |
| `Sieve.TestIsFree` | examples/multiprocessing/prime_numbers.py:68-68 | every stage of every reachable network has its primes in order below the number it looks at, so its test is right |
| `Sieve.LastFilter` | examples/multiprocessing/prime_numbers.py:68-71 | what gets through the last stage is exactly a prime |
| `Sieve.StepInv` | examples/multiprocessing/prime_numbers.py:57-89 | every step of source and stages keeps the network invariant |
| `Sieve.RunInv` | examples/multiprocessing/prime_numbers.py:93-100 | it holds in every state of every run |
| `Sieve.OutputIsPrimes` | examples/multiprocessing/prime_numbers.py:46-89 | under every interleaving the output is a beginning of the primes up to the limit, and in the end all of them in order and one sentinel |
| `Sieve.StagesShareOut` | examples/multiprocessing/prime_numbers.py:73-89 | the stages' lists concatenate to the primes found, and all but the last hold exactly the stage size |
| `Sieve.NeverLocksUp` | examples/multiprocessing/prime_numbers.py:57-89 | with bounded queues, stages that may be held up with a number in hand and a consumer of the bounded sink, somebody can go on until the sentinel is out and taken |
| `Sieve.RunsEnd` | examples/multiprocessing/prime_numbers.py:21-30 | every run is finite |
| `MergePool.PrimeHeap` | examples/multiprocessing/distmerge.py:136-142 | the heap holds exactly the heads of the sources that have one |
| `MergePool.MergeStep` | examples/multiprocessing/distmerge.py:149-157 | putting out a least head loses nothing and keeps the output sorted and below everything left |
| `MergePool.Refill` | examples/multiprocessing/distmerge.py:153-157 | after refilling the heap again holds exactly the heads |
| `MergePool.Merge` | examples/multiprocessing/distmerge.py:148-161 | a sorted rearrangement of the union of the sources |
| `MergePool.ChunksBound` | examples/multiprocessing/distmerge.py:111-118 | a node starts between fan-in and 2 * fan-in - 1 pools, and the upper bound is reached |
| `MergePool.ChunksExact` | examples/multiprocessing/distmerge.py:111-118 | a node starts exactly fan-in pools iff the fan-in divides the number of sources |
| `MergePool.ChunkShrinks` | examples/multiprocessing/distmerge.py:111-118 | chunks are shorter than the whole iff the fan-in is at least 2; with 1 the only chunk is the whole |
| `MergePool.Start` | examples/multiprocessing/distmerge.py:106-168 | run one after the other: for every fan-in of 2 or more the tree ends, delivers a sorted rearrangement of the union, and no node merges more than 2 * fan-in - 1 sources |
| `MergeNet.StepKept` | examples/multiprocessing/distmerge.py:148-161 | whoever in the tree of concurrent processes takes a step, every process stays tidy and every reader has the same values to come |
| `MergeNet.StepShrinks` | examples/multiprocessing/distmerge.py:148-161 | every step leaves exactly one step less to take in the tree |
| `MergeNet.CanGo` | examples/multiprocessing/distmerge.py:43-55 | a process that is not through is held up only by its own full queue, or somebody in its tree can go on |
| `MergeNet.BuiltTidy` | examples/multiprocessing/distmerge.py:106-134 | the tree that start builds is tidy and has to deliver what the sources hold |
| `MergeNet.BuiltNarrow` | examples/multiprocessing/distmerge.py:111-118 | no process of it has more than 2 * fan-in - 1 sources |
| `MergeNet.BuiltNarrowIff` | examples/multiprocessing/distmerge.py:106-134 | no process of it has more sources than the fan-in iff the number of sources can be divided by the fan-in without remainder until no more are left than that |
| `MergeNet.OutputIsMerge` | examples/multiprocessing/distmerge.py:106-168 | under every interleaving what has come out is sorted and from the sources, and all of it when the sentinel is next |
| `MergeNet.OrderDoesNotMatter` | examples/multiprocessing/distmerge.py:106-168 | the order of steps, the fan-in and the depth of the queues do not show in the output |
| `MergeNet.NetNeverLocksUp` | examples/multiprocessing/distmerge.py:39-55 | with queues of any depth somebody can go on until the sentinel is next |
| `MergeNet.NetRunsEnd` | examples/multiprocessing/distmerge.py:148-161 | every run ends |

## Left out

- Remote channels and gateways, transport messages, serialisation, attach and detach, the user map and memory pools: plumbing around the core.
- Event records and their trigger suppression, POLLFULL and POLLEMPTY notifications, and statistics and dump functions: reporting.
- Channel sends through a destination descriptor and landing-pad allocation are one copy step each; memory descriptors are opaque payloads. The 16-byte handle id travels as one value.
- The non-blocking fast checks of the counters before a lock is taken: they only return early.
- Locks are mutual exclusion, and inside channels and semaphores a bcast is a set from which a trigger removes one or all; BCast models its protocol separately, and the two are not composed.
- BCast timed spin waits, payload hand-off, process-id tracking, signals, shutdown and synchronised mode are not modelled.
- Barrier.ReleaseWaiters works on sequences for the two tables; PriorityHeap covers the array.
- Barrier remote waits through a transport agent (the try-again answer) leave the state unchanged and are not a step.
- Urgent inserts of the priority heap are not modelled, since channels do not use them.
- The hash function is a parameter, and keys and values are opaque; the bitsets inside the hash table are sets of slot numbers.
- Hashtable.Table.Add: requires an absent key, the exact condition under which the table stays valid (AddSoundIff).
- Hashtable.Table.Replace: requires 2^64 mod the number of slots to be at most 2 or the key to be absent, the exact condition under which the removal inside it is safe.
- Blocks.Store.Alloc: the error for a slot index past the end is not modelled; PickIsFree shows that it does not come up.
- Blocks.Store.Count: requires, like First and Next, that a sum of offset and length that wraps around in 64 bits does not slip through the test of the sum; the source then reads outside the block.
- Bitset size, copy, attach and the layout of the headers are straight sums and copies.
- MergePool.Start: runs the processes one after the other; MergeNet has them run at the same time. A fan-in of zero or less is outside the model.
