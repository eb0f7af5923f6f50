# Verified model of the shared-memory message queue

The library passes messages between processes through a ring of blocks in shared memory. Any number of producers and
consumers work on it without locks: a producer claims a block by a compare-and-swap on `m_writeStart`, copies its
message, raises `doneWrite`, and then helps to push `m_writeEnd` over every finished block; a consumer does the same
with `m_readStart`, `doneRead` and `m_readEnd`. Threads that find the ring empty or full wait on a sticky event
(`events.h`, `events2.h`). A second event library (`pevents.h`) lets a thread wait for any or all of several events.

This project models the three components as transition systems over any number of threads and proves what they keep
over every run. `dafny verify dfyconfig.toml` checks everything.

## How the model is built

**The ring** (`Slots`, `Stage`, `Ring`, `History`, `ShmQueue`). `Ring.Exec` executes the next atomic statement of one
thread: one shared load, store or compare-and-swap, with plain block indices, exactly as in `shmIPC.h` (the program
counters carry the line numbers). `ShmQueue.MemBuff` is the same code on an array of blocks updated in place, one
method per function of the source, and each method is proved equal to its specification function; `Interleave` runs
any number of threads under any schedule on that object. `History.Step` adds a history that the code never reads:
unbounded tickets for the four cursors, the phase of every ticket, the messages, and who sent and received what. The
two completion loops (`post_block`, `return_block`) are the same protocol, so their invariants are proved once, in
`Stage`, and used for both sides.

The proofs go from the invariant of a single step (`Safety`, `Payload`, `Completion`) to the configuration of
`main.cpp`, many producers and one consumer (`Consumer`, `Fifo`, `Queue`, `Wakeup`), and to whole runs from the state
that `create` leaves (`Runs`). `Calls` says what all this means to the callers: the arguments of every `write` and `read`
are taken from the schedule, and tied to what the calls put into the ring, take out of it, and return. `Alone` shows that
a call left alone returns. `Limits` contains runs that show where the guarantees end.

**The sticky event** (`Events`, `EventCalls`, `StickyEvent`, `RingWait`). One machine covers both headers; the flag
`locked` says whether `SetEvent` and `ClearEvent` take the mutex. Condition variables may wake spuriously and timed
waits may expire at any time. `EventCalls` ties what a call returns to what it has seen. `RingWait` puts the machines
together: the ring with both its events opened up to single statements refines the ring with atomic events.

**Multi-event waits** (`PEvents`, `Accounting`, `Waits`, `WaitCalls`, `EventTable`, `SetRuns`, `LockOrder`, `Deadlock`,
`Progress`, `Mimic`, `Knots`). `PEvents.Step` runs one region under a mutex, or one signal; `SetEvent` and the registration loop
hold their event's mutex over several such steps. The trylock of the clean-up may fail at any entry. The class
`EventTable` has a method for each region; it runs the loops of the clean-up and of `SetEvent`, and any interleaving of
regions. `WaitCalls` ties results to the arguments of the calls. `SetRuns` proves what these loops do in the middle of
all other calls. `LockOrder` forgets what the mutexes protect and splits taking a mutex from having it; `Deadlock` and
`Knots` prove from it exactly when calls can deadlock, and `Progress` that a call that is not blocked gets on. `Mimic`
shows that the two machines are views of one program: every run of `PEvents` is followed by a run of `LockOrder`.

## What is proved, and under which conditions

Some properties hold only under conditions that the program does not check. For each of them but FIFO delivery there is
an "if and only if": for single steps and for whole runs of the ring and of the sticky event, and for whole sets of
lists in the case of deadlock. Concrete runs show that each condition can fail.

* *A claim must not be a lap late.* The compare-and-swaps at lines 309 and 375 compare indices only. If the start
  cursor goes round the ring between a thread's load and its compare-and-swap, the claim succeeds although the room or
  data test is out of date. `Safety.Hazard` says, in the program's own variables, that such a claim is about to succeed
  although the test would now fail. A step keeps the invariant exactly when it is not a hazard (`Safety.StepKeeps`,
  `Safety.RunKeeps`), a hazard needs a value that is a lap old (`Safety.HazardNeedsLap`), and with one producer and one
  consumer there are none (`Runs.PairTheorem`). For FIFO delivery the absence of hazards is sufficient; a hazard breaks
  the bounds of the ring at once, and delivery possibly later (`Limits.LapLosesMessages`). The compare-and-swaps at 339
  and 406 never hit a wrong lap (`Stage.MoveKeeps`).
* *The compare-and-swap on an end cursor must not fail.* A thread that sleeps between 329 and 332 can clear the flag of a
  later lap. If the cursor has come to that block when the thread reaches 339, nothing is lost
  (`Limits.HarmlessStaleTake`). If not, the compare-and-swap fails; nothing unsafe happens, but that block is never
  published, nor is any later one (`Completion.StrandingExactly`, `Limits.StuckForGood`). Loading the cursor and taking
  the flag without interruption is sufficient (`Completion.AtomicNeverStrands`).
* *One consumer for exact amounts.* `Amount = 0` comes after `doneRead = 1`. With several consumers every reader still
  gets only bytes of its own ticket's message (`Payload.DataKeeps`), but a late clear can make a finished message look
  empty (`Consumer.ExactExactly`, `Consumer.ExactRuns`).
* *The mutex in `SetEvent`.* Without it (`events2.h`) a waiter can fall asleep on a set event (`Events.SleeperExactly`,
  `Events.SleeperRuns`).
* *The signal after the unlock.* `SetEvent` of `pevents.h` signals a waiter after it has released that waiter's mutex. By
  then the waiter may be destroyed: exactly if its call is over and no queue refers to it any more
  (`Waits.AssertionsHold`, `Waits.SignalTooLate`).
* *Lists that can be ranked.* Calls of `WaitForMultipleEvents` on a given set of lists, mixed with any `SetEvent`,
  `ResetEvent` and `WaitForEvent` calls, never deadlock if and only if some ranking of the events makes every list
  strictly increasing (`Knots.DeadlockExactly`). For one list this means that it names no event twice.

Assumed throughout: sequentially consistent memory, atomic 32-bit loads and stores, and mutexes and condition variables
that work as POSIX says. `m_msgCount` is modelled modulo 2^32. `memcpy` is modelled byte by byte, so other threads may
run in the middle of a copy. In the ring, setting, testing and clearing an event are single steps; `RingWait` opens them
up. The code comment at `pevents.h` 365 claims that nobody looks at `StillWaiting` once `EventsLeft` is 0; that is
`Waits.WaitAllAccounting`.

## Model

| member | source | states |
|---|---|---|
| Slots.OneCycle | ShmAtomicMsgQueue/shmIPC.h:510-520 | for every ring of at least two blocks the links form one cycle: Next and Prev undo each other, and following Next from any block visits every block exactly once and is back after N steps |
| Slots.SlotMod | ShmAtomicMsgQueue/shmIPC.h:512-519 | the block reached by t steps along Next is t mod N |
| Slots.SameSlotLap | ShmAtomicMsgQueue/shmIPC.h:309 | equal indices mean equal tickets, or tickets at least a lap apart |
| ShmQueue.MemBuff.Create | ShmAtomicMsgQueue/shmIPC.h:510-527 | the initialisation loop leaves the linked cycle, empty cursors, lowered flags and a zero count, for every block count of at least 2 |
| ShmQueue.MemBuff.GetBlockWriteStep | ShmAtomicMsgQueue/shmIPC.h:289-319 | each statement of get_block_write, on the object in place, has exactly the effect the specification gives to memory and thread |
| ShmQueue.MemBuff.CopyInStep | ShmAtomicMsgQueue/shmIPC.h:272-274 | each byte of the copy and the store of Amount hit only the claimed block |
| ShmQueue.MemBuff.PostBlockStep | ShmAtomicMsgQueue/shmIPC.h:322-347 | each statement of post_block, in place, equals its specification |
| ShmQueue.MemBuff.GetBlockReadStep | ShmAtomicMsgQueue/shmIPC.h:351-384 | each statement of get_block_read, in place, equals its specification |
| ShmQueue.MemBuff.CopyOutStep | ShmAtomicMsgQueue/shmIPC.h:236-251 | the amount test, the min and the copy read shared memory and change only the thread |
| ShmQueue.MemBuff.ReturnBlockStep | ShmAtomicMsgQueue/shmIPC.h:387-413 | each statement of return_block, in place, equals its specification |
| ShmQueue.MemBuff.ReturnStep | ShmAtomicMsgQueue/shmIPC.h:163-170 | incrementCount and decrementCount wrap at 2^32, and the call returns the number of bytes moved |
| ShmQueue.MemBuff.Execute | ShmAtomicMsgQueue/shmIPC.h:226-413 | the next atomic statement of any thread, in place, equals its specification and keeps the object valid |
| ShmQueue.Interleave | ShmAtomicMsgQueue/shmIPC.h:226-413 | any schedule of any number of threads on the object ends in the memory and local variables of the specified run |
| Ring.GetBlockWrite | ShmAtomicMsgQueue/shmIPC.h:289-319 | changes nothing but m_writeStart and the state of m_avail, reaches the copy only by a successful claim, and waits only after seeing Next equal to m_readEnd |
| Ring.PostBlock | ShmAtomicMsgQueue/shmIPC.h:322-347 | changes nothing but doneWrite, m_writeEnd and m_signal; a flag test uses the cursor value just loaded |
| Ring.GetBlockRead | ShmAtomicMsgQueue/shmIPC.h:351-384 | changes nothing but m_readStart and m_signal; claims only after the data test, waits only after seeing the ring empty |
| Ring.ReturnBlock | ShmAtomicMsgQueue/shmIPC.h:387-413 | changes nothing but doneRead, Amount, m_readEnd and m_avail |
| Stage.EnterKeeps | ShmAtomicMsgQueue/shmIPC.h:309-311 | a claim with fewer than N-1 tickets outstanding keeps flags, phases and holders in agreement |
| Stage.DoneKeeps | ShmAtomicMsgQueue/shmIPC.h:324 | raising the flag of an owned block marks exactly that ticket as done |
| Stage.TakeKeeps | ShmAtomicMsgQueue/shmIPC.h:329-332 | however old the loaded cursor value, a raised flag belongs to exactly one outstanding ticket, which is done and which nobody else holds |
| Stage.MoveKeeps | ShmAtomicMsgQueue/shmIPC.h:339 | the index-only compare-and-swap on the end cursor succeeds if and only if the cursor is at the very ticket whose flag was taken, so a late one never moves another lap's ticket |
| Stage.NothingStranded | ShmAtomicMsgQueue/shmIPC.h:327-346 | if somebody always helps, then with nobody in the stage every claimed ticket has been passed if and only if none is lost, and the two cursor indices tell |
| Stage.MoveLoses | ShmAtomicMsgQueue/shmIPC.h:339 | the compare-and-swap on the end cursor loses its ticket if and only if it fails |
| History.InitInv | ShmAtomicMsgQueue/shmIPC.h:522-527 | the state that create leaves satisfies the safety invariant for any number of threads |
| Safety.StepKeeps | ShmAtomicMsgQueue/shmIPC.h:289-413 | for any number of producers and consumers, one statement of any thread keeps the invariant if and only if it is not a claim that succeeds on a full or empty ring, and such a claim breaks the bounds of the ring at once |
| Safety.HazardInTickets | ShmAtomicMsgQueue/shmIPC.h:297-361 | the room or data test repeated at the claim fails exactly when, in tickets, the ring is full or empty |
| Safety.WindowKeeps | ShmAtomicMsgQueue/shmIPC.h:289-413 | re <= rs <= we <= ws <= re + N - 1 is kept, and every cursor only advances, by at most one ticket a step |
| Safety.AwareKeeps | ShmAtomicMsgQueue/shmIPC.h:295-312 | a passed room or data test stays valid until the claim, because the opposite cursor only advances |
| Safety.HazardNeedsLap | ShmAtomicMsgQueue/shmIPC.h:309 | a claim can go wrong only if the loaded value is at least a lap old |
| Safety.ClaimComparesTickets | ShmAtomicMsgQueue/shmIPC.h:375 | while the loaded value is less than a lap old, comparing indices is comparing tickets, for both claims |
| Safety.FailedClaimLostRace | ShmAtomicMsgQueue/shmIPC.h:315-317 | a claim fails only because another thread has claimed since this thread's load, so the retry loops block nobody |
| Safety.RunKeeps | ShmAtomicMsgQueue/shmIPC.h:289-413 | over every run, the invariant holds in every state if and only if no step is a claim on a full or empty ring |
| Safety.PromptIsClean | ShmAtomicMsgQueue/shmIPC.h:293-318 | if no thread claims with a value that is a lap old, no claim goes wrong and the invariant holds |
| Payload.ExclusiveOwnership | ShmAtomicMsgQueue/shmIPC.h:268-277 | no two threads ever own the same block, and a block being written is outside the readable range |
| Payload.TicketLife | ShmAtomicMsgQueue/shmIPC.h:322-347 | publication is in order and complete even with stale loads: only a ticket's owner finishes it, only a finished ticket's flag is taken, and only the thread that took the flag passes it, by the one compare-and-swap that moves the end cursor from that ticket to the next; the same for the read side |
| Payload.PassedIsFinished | ShmAtomicMsgQueue/shmIPC.h:387-413 | beyond m_writeEnd nobody is still writing, beyond m_readEnd nobody is still reading, and a block being read is published |
| Payload.BlockUntouched | ShmAtomicMsgQueue/shmIPC.h:249-254 | the bytes of a finished block do not change until its reader has copied them and sets doneRead |
| Payload.DataKeeps | ShmAtomicMsgQueue/shmIPC.h:249-277 | any number of producers and consumers: a finished block holds exactly the bytes its ticket was issued for, cut to the block size, and a reader's buffer is always a prefix of its own ticket's message |
| Completion.LossExactly | ShmAtomicMsgQueue/shmIPC.h:339-346 | in a safe step a finished ticket gets lost if and only if the compare-and-swap on its end cursor fails, and a lost one stays lost |
| Completion.AttendedKeeps | ShmAtomicMsgQueue/shmIPC.h:327-346 | if the ticket at an end cursor is done, some thread in the completion loop will look there; kept by every step |
| Completion.Quiescent | ShmAtomicMsgQueue/shmIPC.h:393-412 | whenever nobody is inside write, every claimed ticket is published, that is m_writeEnd equals m_writeStart, if and only if no ticket is lost; the same for read and the blocks handed out |
| Completion.StrandingExactly | ShmAtomicMsgQueue/shmIPC.h:322-413 | over every run without a late claim, at every moment with nobody inside write: all claimed tickets are published if and only if no compare-and-swap at 339 has failed; the same for read and 406 |
| Completion.OrderlyKeeps | ShmAtomicMsgQueue/shmIPC.h:329-339 | flags stay taken in turn, so that no move fails, exactly as long as none is taken with a stale cursor value; this is a sufficient condition for losing nothing |
| Completion.SteadyIsUnfailing | ShmAtomicMsgQueue/shmIPC.h:329-346 | a run without late claims and stale takes has no failed move on either side |
| Completion.JustLoaded | ShmAtomicMsgQueue/shmIPC.h:396-398 | right after a thread's own load of the end cursor its flag test is never stale |
| Completion.AtomicNeverStrands | ShmAtomicMsgQueue/shmIPC.h:329-332 | in every run without a late claim in which the load and the flag compare-and-swap are not interrupted, no move fails and nothing is stranded |
| Consumer.ConsumerNoHazard | ShmAtomicMsgQueue/shmIPC.h:357-378 | a lone consumer never claims from an empty ring, however long it sleeps |
| Consumer.ExactExactly | ShmAtomicMsgQueue/shmIPC.h:389-390 | for any number of consumers, finished messages keep their exact Amount if and only if no consumer clears Amount in a block that is already in use again |
| Consumer.ExactRuns | ShmAtomicMsgQueue/shmIPC.h:389-390 | the same over every run without a late claim: amounts are exact throughout if and only if no step is such a clear |
| Consumer.ClearHitsOld | ShmAtomicMsgQueue/shmIPC.h:387-390 | a lone consumer's late `Amount = 0` never hits a block in use |
| Consumer.ConsumerKeeps | ShmAtomicMsgQueue/shmIPC.h:226-264 | one consumer: its place in the read, in tickets, and exact amounts are kept by every safe step of every thread |
| Fifo.SettlesOne | ShmAtomicMsgQueue/shmIPC.h:232-263 | a consumer statement settles at most one ticket, and read returns exactly when it settles a non-empty one, with that message cut to the caller's buffer |
| Fifo.DeliverKeeps | ShmAtomicMsgQueue/shmIPC.h:226-264 | what completed reads returned is the sequence of non-empty messages in claim order, each cut by the two mins |
| Queue.RefinesFifo | ShmAtomicMsgQueue/shmIPC.h:322-384 | every interleaving refines a FIFO of capacity N-1: the advance of m_writeEnd enqueues the next claimed message, the claim on m_readStart dequeues the oldest, and no other statement changes the queue |
| Queue.TestsExact | ShmAtomicMsgQueue/shmIPC.h:295-361 | m_readStart equals m_writeEnd if and only if no published block is unclaimed; Next(m_writeStart) equals m_readEnd if and only if exactly N-1 blocks are outstanding |
| Queue.MemoryHoldsQueue | ShmAtomicMsgQueue/shmIPC.h:357-361 | following Next through shared memory from m_readStart to m_writeEnd finds exactly the queued messages in order |
| Queue.OrderKeeps | ShmAtomicMsgQueue/shmIPC.h:266-287 | in claim order, each producer's messages appear in the order of its calls, none missing and none twice |
| Queue.CountKeeps | ShmAtomicMsgQueue/shmIPC.h:163-170 | m_msgCount is completed writes minus completed reads modulo 2^32, and every claimed ticket is counted or still with its writer |
| Wakeup.DataWakesKeeps | ShmAtomicMsgQueue/shmIPC.h:339-372 | once the consumer has seen the ring empty and until it leaves the wait, if a message is published then m_signal is set or a producer is on its way to set it |
| Wakeup.SetEventEndsWait | ShmAtomicMsgQueue/shmIPC.h:361-372 | a set m_signal ends the wait at the consumer's next statement, and it then looks at the ring again |
| Wakeup.SignalsWhenWaited | ShmAtomicMsgQueue/shmIPC.h:341-344 | an event is set only by its SetEvent, and that is reached exactly after passing the block the next reader looks at, or the block behind which the next writer waits |
| Wakeup.ProducerNoHazard | ShmAtomicMsgQueue/shmIPC.h:293-312 | a lone producer never claims on a full ring, however long it sleeps |
| Wakeup.RoomWakesKeeps | ShmAtomicMsgQueue/shmIPC.h:405-411 | the mirror claim for one producer waiting for room on m_avail, through the test of Prev against m_writeStart, with any number of consumers |
| Runs.QueueKeeps | ShmAtomicMsgQueue/shmIPC.h:226-413 | with one consumer, a step keeps the whole queue invariant unless it is a producer's claim on a full ring, and such a claim always breaks the bounds of the ring |
| Runs.FifoTheorem | ShmAtomicMsgQueue/shmIPC.h:226-413 | any number of producers, one consumer, any interleaving without a late claim, a sufficient condition: what reads returned is a prefix of the non-empty messages in claim order, the rest is in flight, shared memory is the queue, each producer's order is kept, and no wakeup of the consumer is lost |
| Runs.PromptFifo | ShmAtomicMsgQueue/shmIPC.h:226-413 | the same from the single assumption that no thread claims with a value that is a lap old |
| Runs.CountTheorem | ShmAtomicMsgQueue/shmIPC.h:217-219 | in every run without a late claim that ends with no call in progress, m_msgCount is ws - rs plus the empty messages skipped, modulo 2^32; every ticket is published if and only if no compare-and-swap at 339 has failed, and then, without empty messages, the count is the length of the queue |
| Runs.RoomTheorem | ShmAtomicMsgQueue/shmIPC.h:297-306 | one producer, any number of consumers, any interleaving without a late claim: no wakeup of the producer is lost |
| Runs.PairTheorem | ShmAtomicMsgQueue/shmIPC.h:226-413 | one producer and one consumer, every interleaving, no assumption about staleness: FIFO delivery, no lost wakeup on either side, nothing stranded, and everything published when both are idle |
| Calls.CallRun | ShmAtomicMsgQueue/shmIPC.h:226-319 | for every thread in every run, no condition: what its call has put in and taken out so far, how often it was refused, and what it returns fit the arguments of that call |
| Calls.WriteReturns | ShmAtomicMsgQueue/shmIPC.h:266-307 | a write that has returned, in any run, put exactly its own argument into the ring, cut to the block size, and returns that length; or its wait expired after it found the ring full, it put in nothing and returns 0; every earlier refusal was followed by one wait that found m_avail set, and a lost race for a block never ends the call |
| Calls.ReadReturns | ShmAtomicMsgQueue/shmIPC.h:226-264 | a read that has returned, in any run, took exactly one message, which is in its buffer, fits it and has the returned length; or it found the ring empty and either did not wait or its wait expired, took nothing and returns 0 |
| Calls.TicketsTell | ShmAtomicMsgQueue/shmIPC.h:266-275 | the messages in the ring are, in claim order, the arguments of the writes whose claim moved m_writeStart |
| Calls.ResultsTell | ShmAtomicMsgQueue/shmIPC.h:249-263 | what counts as delivered is what the reads returned, with the sizes they were called with |
| Calls.OrderTells | ShmAtomicMsgQueue/shmIPC.h:266-287 | for every thread, its tickets are the arguments of its writes that got through, in call order, and then the one in progress |
| Calls.CallTheorem | ShmAtomicMsgQueue/shmIPC.h:226-287 | FIFO from call to call: any number of producers, one consumer, no late claim: the reads return the arguments of the writes in ticket order, without the empty ones, cut to the block and to the buffer asked for; shared memory holds the published rest; each producer's order is kept |
| Calls.PairCalls | ShmAtomicMsgQueue/shmIPC.h:226-287 | the same for one producer and one consumer with no assumption on the interleaving |
| Alone.WriteReturns | ShmAtomicMsgQueue/shmIPC.h:266-347 | from any state with room, wherever the other threads stand, a write left alone returns the length of its message cut to the block size |
| Alone.ReadFinishes | ShmAtomicMsgQueue/shmIPC.h:226-264 | from any state a read that does not wait, left alone, returns |
| Alone.ReadLeavesBlock | ShmAtomicMsgQueue/shmIPC.h:387-413 | from its claim on, a read left alone returns or goes on to the next block; both completion loops end because each round takes a flag |
| Alone.ExpiryEndsCall | ShmAtomicMsgQueue/shmIPC.h:300-306 | an expired wait ends the call with 0 at the next statement |
| Limits.LapBreaksRing | ShmAtomicMsgQueue/shmIPC.h:295-312 | a run with two blocks in which a late claim succeeds on a full ring and all N blocks are being written at once |
| Limits.LapLosesMessages | ShmAtomicMsgQueue/shmIPC.h:226-413 | the same run goes on, with one consumer: two messages are published but the ring looks empty and read returns none; then an unread message is overwritten and the next read returns the newest message, so FIFO delivery fails |
| Limits.StaleTakeStrands | ShmAtomicMsgQueue/shmIPC.h:329-339 | a concrete run with three blocks after which all calls have returned but a finished message is not published |
| Limits.HarmlessStaleTake | ShmAtomicMsgQueue/shmIPC.h:329-339 | a run with a stale take in which the move succeeds after all and every ticket is published |
| Limits.StuckForGood | ShmAtomicMsgQueue/shmIPC.h:327-346 | in every safe continuation m_writeEnd never gets past a lost ticket |
| Limits.LateClearLosesMessage | ShmAtomicMsgQueue/shmIPC.h:389-390 | a concrete run with two consumers in which `Amount = 0` hits a finished message and makes it look empty |
| Events.MutexKeeps | ShmAtomicMsgQueue/events.h:32-89 | the mutex is held exactly by the thread inside a critical region, in both headers |
| Events.SleeperExactly | ShmAtomicMsgQueue/events2.h:41-86 | in either header a step leaves a thread blocked and un-notified on a set event if and only if it blocks after the event was set and announced behind its test |
| Events.SleeperRuns | ShmAtomicMsgQueue/events2.h:41-86 | the same over every run: nobody is ever asleep un-notified on a set event if and only if no step goes through that gap |
| Events.LockedKeeps | ShmAtomicMsgQueue/events.h:32-70 | with the mutex nobody can set the event between a waiter's test and its block |
| Events.LockedNeverLosesWakeup | ShmAtomicMsgQueue/events.h:32-89 | any number of setters and waiters, every run: nobody is ever blocked and un-notified while state_ is 1, unless a setter is about to notify |
| Events.UnlockedLosesWakeup | ShmAtomicMsgQueue/events2.h:41-86 | a concrete run with one waiter and one setter that leaves the waiter asleep on a set event with nobody left to wake it |
| Events.SleeperStays | ShmAtomicMsgQueue/events2.h:83-86 | such a sleeper wakes exactly by a new notification, its timeout or a spurious wakeup |
| Events.SuccessMeansSet | ShmAtomicMsgQueue/events2.h:83-99 | the wait ends with success only at a test that found the event set |
| EventCalls.LogRun | ShmAtomicMsgQueue/events.h:32-89 | for every thread in every run of either header: where it is in its call, what its last look found and whether its wait has expired fit together, and fit what it returns |
| EventCalls.WaitReturns | ShmAtomicMsgQueue/events2.h:68-110 | a wait that has returned returns 1 if and only if its last look found the event set, and 0 if and only if its wait has expired, and its own step has cleared the event |
| EventCalls.SetReturns | ShmAtomicMsgQueue/events.h:32-41 | a SetEvent that has returned has left the event set by its own step and then woken everybody who was blocked |
| EventCalls.ComesCloser | ShmAtomicMsgQueue/events.h:52-89 | with the mutex free, every statement of a call brings it closer to its return, unless it finds the event clear and blocks |
| RingWait.CoupledKeeps | ShmAtomicMsgQueue/events.h:32-89 | the ring with the statements of events.h in place of atomic events keeps m_signal, m_avail and every thread's place in step with the two events |
| RingWait.Refines | ShmAtomicMsgQueue/shmIPC.h:361-372 | every step of the opened-up machine is a step of the ring or leaves the ring as it is, so what holds of the ring holds there |
| RingWait.ReturnDecides | ShmAtomicMsgQueue/shmIPC.h:300-306 | when the opened-up wait returns, the ring goes on to its next round if and only if the value is positive |
| RingWait.NeverForgotten | ShmAtomicMsgQueue/shmIPC.h:339-344 | if a lone consumer is blocked on the condition variable and the ring is not empty, or a lone producer while there is room, some thread is about to set that event or to notify |
| RingWait.NoLostWakeup | ShmAtomicMsgQueue/events.h:32-89 | the same in every run from the start, down to the statements of events.h: any number of producers and one consumer as long as no producer claims on a full ring; one producer and any number of consumers as long as no claim is late |
| StickyEvent.EventT.SetEvent | ShmAtomicMsgQueue/events.h:32-41 | each statement of SetEvent, in place, equals its specification; the notification wakes every blocked thread |
| StickyEvent.EventT.WaitForEvent | ShmAtomicMsgQueue/events2.h:68-90 | each statement of the wait, in place, equals its specification |
| StickyEvent.EventT.ClearEvent | ShmAtomicMsgQueue/events.h:44-49 | each statement of ClearEvent and the return, in place, equals its specification |
| Accounting.StepKeeps | ShmAtomicMsgQueue/pevents.h:204-446 | every region of every call, and every signal, keeps reference counts, deliveries and queue entries in agreement |
| Accounting.DropTakesOne | ShmAtomicMsgQueue/pevents.h:70-97 | the clean-up takes away one registration and one reference of an expired waiter, and nothing else |
| Accounting.RegisterMovesOne | ShmAtomicMsgQueue/pevents.h:247-263 | the next position of the list moves to the deliveries if the event is signalled, and otherwise to the registrations with one more reference; no other waiter changes |
| Accounting.SetNextTakesOne | ShmAtomicMsgQueue/pevents.h:340-435 | a round of either SetEvent loop takes away one registration and one reference, and gives the event to that waiter exactly if it still waits |
| Waits.AssertionsHold | ShmAtomicMsgQueue/pevents.h:346-376 | the assertions RefCount >= 0 and EventsLeft >= 0 never fail, and under the waiter mutex no step touches a destroyed waiter; the signal after the unlock hits a destroyed waiter if and only if that waiter's call is over and no queue refers to it |
| Waits.SignalTooLate | ShmAtomicMsgQueue/pevents.h:373-376 | a run, from any start with at least one event, after which SetEvent signals a waiter that has been destroyed |
| Waits.EntryAlive | ShmAtomicMsgQueue/pevents.h:79-88 | every entry still to be served names a waiter that has not been destroyed and is counted by its reference |
| Waits.RefCountExact | ShmAtomicMsgQueue/pevents.h:309-317 | RefCount is the waiter's registrations over all queues plus one while its call is in progress, and the waiter is destroyed at most once, exactly when the count is 0 |
| Waits.WaitAllAccounting | ShmAtomicMsgQueue/pevents.h:362-367 | while a wait-all call waits, EventsLeft is its remaining registrations; it is 0 exactly when every listed event has been given once, and then no queue refers to the waiter |
| Waits.WaitAllReturns | ShmAtomicMsgQueue/pevents.h:286-304 | a waiter in wait-all mode whose call returns without a timeout has been given every position of its list exactly once |
| Waits.WaitAnyTakesOne | ShmAtomicMsgQueue/pevents.h:291-307 | a waiter in wait-any mode is given at most one event, and its waitIndex is that event's position, or -1 exactly when it was given none, also on a timeout |
| Waits.FiredOnce | ShmAtomicMsgQueue/pevents.h:348-371 | FiredEvent leaves -1 at most once, and nothing is given to a waiter whose call is over |
| Waits.SignalledHasNoWaiter | ShmAtomicMsgQueue/pevents.h:241-266 | whenever an event's mutex is free, State true means no registered waiter |
| Waits.SatisfiedIsSignalled | ShmAtomicMsgQueue/pevents.h:286-304 | over every run, a call in its condition wait whose exit test holds has been signalled since it began to wait, or a SetEvent is about to signal it |
| Waits.GivenStep | ShmAtomicMsgQueue/pevents.h:247-258 | a step gives an event to a waiter once or not at all |
| Waits.TallyStep | ShmAtomicMsgQueue/pevents.h:126-172 | how each step moves the set, merged, taken and cleared counts of an auto-reset event against its State |
| Waits.BalancedKeeps | ShmAtomicMsgQueue/pevents.h:331-396 | per auto-reset event, sets = hand-overs + takes + sets merged into a true State + resets that cleared it + 1 if State is true |
| Waits.AccountingTheorem | ShmAtomicMsgQueue/pevents.h:126-477 | over every run from unsignalled events without waiters, the accounting invariant and the balance of every auto-reset event hold |
| WaitCalls.CallArguments | ShmAtomicMsgQueue/pevents.h:205-226 | over every run, the k-th call has the k-th waiter, with the mode and the list its caller passed |
| WaitCalls.WaitAllCall | ShmAtomicMsgQueue/pevents.h:204-319 | over every run, a call with waitAll = true that returns without a timeout has been given each event of the list its caller passed, each position once, and no queue refers to it |
| WaitCalls.WaitAnyCall | ShmAtomicMsgQueue/pevents.h:204-319 | over every run, a call with waitAll = false returns the position, in the list its caller passed, of the one event it was given, or -1 if it was given none, and that only with a timeout |
| WaitCalls.GivenIsSignalled | ShmAtomicMsgQueue/pevents.h:247-258 | what is given at a position is the event of the list there, and it was signalled |
| WaitCalls.CanReturn | ShmAtomicMsgQueue/pevents.h:286-299 | past its registrations a call can return without a timeout if and only if it has been given what it waits for, and goes to sleep if and only if not |
| WaitCalls.RegisteringGoesOn | ShmAtomicMsgQueue/pevents.h:234-266 | a call going through its list can take its next step unless it waits for the mutex of the next event |
| WaitCalls.ResetClears | ShmAtomicMsgQueue/pevents.h:467-477 | a reset leaves State false whatever the kind of the event |
| WaitCalls.ManualStays | ShmAtomicMsgQueue/pevents.h:331-477 | over every run, State of a manual-reset event is what the last SetEvent or ResetEvent asked for; waits and takes never change it |
| WaitCalls.TakeLeaves | ShmAtomicMsgQueue/pevents.h:126-172 | a take leaves an auto-reset event clear and a manual-reset event set |
| EventTable.EventTable.RemoveExpired | ShmAtomicMsgQueue/pevents.h:242-245 | the clean-up loop run in one go with no failed trylock keeps exactly the registrations whose waiter still waits or is held by its own call, in order, and changes only reference counts of the others |
| EventTable.EventTable.SetEvent | ShmAtomicMsgQueue/pevents.h:331-446 | SetEvent run until it returns or must wait for a waiter mutex, whatever the queue holds; auto-reset: it drops registrations up to the earliest live one, which gets the event with State false, or all with State true; manual-reset: it serves all of them |
| EventTable.Interleave | ShmAtomicMsgQueue/pevents.h:178-477 | any interleaving of the regions of any calls, on the object in place, ends in the state of the specified run |
| SetRuns.OthersKeepMidway | ShmAtomicMsgQueue/pevents.h:340-435 | no step of any other call, nor a signal, moves a SetEvent in progress; registrations it has served stay served and those it has dropped stay expired |
| SetRuns.RoundDropsOrHandsOver | ShmAtomicMsgQueue/pevents.h:340-385 | whatever happened in between, a round on an auto-reset event drops the next registration, which has expired, or hands the event to it with all earlier ones expired, State false and only the signal left to do |
| SetRuns.RoundServesNext | ShmAtomicMsgQueue/pevents.h:399-435 | a round on a manual-reset event gives the event to the next registration if it still waits, and to nobody else |
| SetRuns.EndLeavesSet | ShmAtomicMsgQueue/pevents.h:388-441 | the loop ends only with every registration expired or, on a manual-reset event, given the event for its own position of the list, also in wait-all mode; State stays true and the queue is empty |
| SetRuns.MidwayGoesOn | ShmAtomicMsgQueue/pevents.h:343-402 | SetEvent can always take its next step unless the mutex of the next waiter is taken |
| SetRuns.SetEventTheorem | ShmAtomicMsgQueue/pevents.h:331-446 | SetEvent in any run, all other calls mixed in: at most one round per registration; auto-reset: only expired registrations are dropped, and it ends by handing the event to the earliest one still live or with State true and none left; manual-reset: it ends with each registration given the event or expired, State true and an empty queue |
| SetRuns.SignalUntil | ShmAtomicMsgQueue/pevents.h:373-383 | after the event has been given, in any run: nobody else touches the event until the signal, which can always be sent, reaches that waiter and, on an auto-reset event, frees the mutex |
| SetRuns.CleanupTheorem | ShmAtomicMsgQueue/pevents.h:237-263 | from the lock of an event to the take or the registration, whatever other calls do: the queue keeps its order and loses only expired registrations; none that is live at the end is missing; and one that had expired at the start is left if and only if the trylock on its waiter failed |
| EventTable.FirstLiveGets | ShmAtomicMsgQueue/pevents.h:340-385 | an auto-reset SetEvent gives the event to the earliest live registration and to nobody else |
| EventTable.ServeAllGives | ShmAtomicMsgQueue/pevents.h:399-435 | what a served waiter gets: nothing if it is no longer waiting, one event for wait-any, one per registration for wait-all, with one reference less per registration |
| EventTable.ServeExpired | ShmAtomicMsgQueue/pevents.h:348-358 | serving expired registrations changes only reference counts |
| LockOrder.BaseKeeps | ShmAtomicMsgQueue/pevents.h:70-446 | every step keeps ownership exact: a mutex is owned by the thread whose place in its call says so, and nobody changes a queue without its event mutex |
| Deadlock.StepKeeps | ShmAtomicMsgQueue/pevents.h:234-266 | with lists that climb in some ranking, a waiter still going through its list is registered only with events of lower rank |
| Deadlock.WaitClimbs | ShmAtomicMsgQueue/pevents.h:228-266 | a blocked thread waits for a thread that is not blocked or is strictly further up the ranking, although event and waiter mutexes are taken in opposite orders |
| Deadlock.Runner | ShmAtomicMsgQueue/pevents.h:399-403 | from every blocked thread the chain of waits ends at a thread that holds a mutex and is not blocked |
| Deadlock.RunnerMoves | ShmAtomicMsgQueue/pevents.h:71-75 | such a thread takes its next step whatever it has to decide; the trylock never blocks it |
| Deadlock.CircleIsDeadlock | ShmAtomicMsgQueue/pevents.h:332-344 | a set of threads each blocked by another of the set has no such way out |
| Deadlock.RankedNeverDeadlocks | ShmAtomicMsgQueue/pevents.h:204-446 | if a ranking fits all lists, then in every run of any number of threads every blocked thread has a chain of waits to one that can go on |
| Progress.ComesCloser | ShmAtomicMsgQueue/pevents.h:70-446 | a thread inside a call that is not blocked comes, with every step and whatever it decides, closer to returning or to giving its mutexes up in a condition wait |
| Progress.NobodyPushesBack | ShmAtomicMsgQueue/pevents.h:70-446 | no step of another thread changes how far it is, so no mutex is held for ever by a thread that can go on |
| Mimic.MimicStep | ShmAtomicMsgQueue/pevents.h:70-446 | every region and signal of the machine with the data is some steps of one thread of the machine with the mutexes, after which both have the same queues, the same owner of every mutex and every thread at the same place |
| Mimic.MimicTheorem | ShmAtomicMsgQueue/pevents.h:204-446 | every run of the calls with their data is followed by such a run on the same lists; if these lists never deadlock, somebody can go on behind every thread that is blocked at its end |
| Knots.KnotDeadlocks | ShmAtomicMsgQueue/pevents.h:234-238 | from any start, calls on lists that put each of some events before another of them, and one SetEvent for each of these events, end in a state in which every call is blocked by a SetEvent and every SetEvent by a call |
| Knots.Sort | ShmAtomicMsgQueue/pevents.h:234-238 | the events can be ranked to fit the lists, or some of them each come before another of them |
| Knots.DeadlockExactly | ShmAtomicMsgQueue/pevents.h:204-446 | calls on a given set of lists, mixed with any other calls on any number of threads, never deadlock if and only if some ranking of the events makes every list strictly increasing |
| Knots.SingleListExactly | ShmAtomicMsgQueue/pevents.h:234-267 | calls on one list never deadlock, however many at once, if and only if it names no event twice |
| Knots.RepeatedEventDeadlocks | ShmAtomicMsgQueue/pevents.h:234-238 | for every list that names an event twice, over any number of events, one call and one SetEvent can block each other for good |
| Knots.OppositeOrdersDeadlock | ShmAtomicMsgQueue/pevents.h:234-238 | two lists that name two events in opposite orders can deadlock |

## Left out

- Creating, mapping, unlinking and closing shared memory, `disconnect` and `removeOldQueues`: operating-system calls.
- Clocks and timeout arithmetic: a timed wait may report a timeout at any point.
- Weak memory ordering and compiler effects on `volatile`: memory is sequentially consistent.
- `DestroyEvent` in all three headers and `kill_`: teardown while waits are in progress.
- Wakeup claims for several consumers on `m_signal` or several producers on `m_avail`: one `SetEvent` per empty or full transition does not give them.
- Termination of the retry loops of `get_block_write` and `get_block_read` under contention: a claim may fail any number of times.
- The outcome of `WaitForEvent` inside the ring beyond a positive or non-positive result.
- The reported result of a wait-all call with a zero or expired timeout: the code may report a timeout after all events were taken, and the model leaves the result open there.
- The moment at which a signalled `WaitForMultipleEvents` call wakes: `Park` and `Finish` are free to happen whenever their tests allow. Waits on the condition variable of a single event in `pevents.h` are modelled only by their takes.
- `CreateEvent` of `pevents.h` with an initial state: it is a creation followed by `SetEvent`.
- The `pop_front` at `pevents.h` 379 belongs to the step under the waiter mutex before it; the event's mutex is held throughout. What a signal to a destroyed waiter does in the original is undefined; the model only records it.
- The value of the `pthread` error codes, and assertions about them.
- `MessageQueue.h`, `MessageQueue2.h`, `shmIPC_before_postcrement.h`, `shmIPC_impl.h` and the `.old` files: wrappers and superseded variants.
- EventTable.EventTable.RemoveExpired: states the loop run without interruption and without a failed trylock; `SetRuns.CleanupTheorem` states what holds when waiters change between entries and trylocks fail.
- Knots.DeadlockExactly: states that behind every blocked thread somebody can go on, not that the scheduler is fair to every thread.
- Runs.FifoTheorem: needs that no claim is a lap late, which the code does not check. The condition is shown to be sufficient only; `Limits.LapLosesMessages` is a run without it in which delivery fails.
