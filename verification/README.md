# Verified models of the synchronisation algorithms

This project models the hand-written synchronisation algorithms of the repository and proves them correct in Dafny:
four queue locks (MCS, CLH, Anderson in two encodings, and a lock with timeouts), Peterson's lock, the reader/writer
lock in two versions, the bounded producer/consumer, the barrier, the OpenMP blocked prefix sum and the MPI scatterv
split. Every `#define` (threads, iterations, capacities, N) is a parameter, and every statement below is for all its
values.

## How the models are built

Each algorithm has two layers.

* A transition system. A state holds the shared memory and, for every thread, a program counter and its local
  variables. `Step` is one step of one thread: one shared read, write or atomic operation, with the branches of the
  code. `Run` applies a schedule, an arbitrary sequence of threads (or of events, where a clock, a client or a chance
  wake-up takes part). A thread that spins, is blocked or has finished leaves the state as it is. The properties are
  proved about all schedules. `Runs` has what all systems share: runs, their logs, and why every fair run ends.
* The program in place (`...Program` modules, and `PrefixSum.Region`). A class has the fields that the C code
  updates: node objects with pointers, arrays of flags, counters. Its methods take the steps of the C functions in
  place, and each is proved to do exactly what `Step` says, so everything proved about runs holds of the class. In
  the MCS, CLH and reader/writer classes `Valid` says so outright: the state is the one a run of the model reaches.
  There are no guards that the C code does not have: that a pointer which is followed is not NULL, and that an index
  is inside its array, is proved from the invariants. Where all runs end, a closing method lets an arbitrary thread
  that can move do so until none can, and is proved to terminate with the right result on every choice.

The three queue locks without timeouts share one specification, `FifoLock`: threads join a queue, only its head may
enter, and the critical section increments a shared counter with a separate read and write. Exclusion, order and the
final count are proved once there. `McsLock`, `ClhLock` and `AndersonLock` refine it step by step, through an
invariant (`Represents`) that ties pointers, flags and program counters to the queue. What follows for all runs of the
MCS lock is in `McsCorrectness` and `McsProgress`, with the paths of its single calls in `McsCalls`; for the CLH lock
it is in `ClhCorrectness`; for the reader/writer lock in `ReadWriteCorrectness` and, for its single calls, in
`ReadWriteCalls`; and for the timeout lock in `TimeoutCorrectness`, with the order of grants in `TimeoutOrder` and the
end of a wait in `TimeoutPatience`.

A schedule is fair here if it can be cut into segments that each have a step of every thread, in any order and with
any others between. `Runs.FairRunEnds` shows that a fair schedule of enough segments finishes a system in which no
step leads away from the end, some thread's step leads nearer, and such a step stays possible until one is taken. The
three queue locks, Peterson's lock and the prefix sum are such systems.

The clients generalise those of the repository: each thread locks `rounds` times and increments `times` times in each
round, with `rounds` and `times` arbitrary.

## Assumptions

* Shared accesses are sequentially consistent. The C code uses `volatile` or plain fields for many of them; the
  repository notes the gap itself at exam_preparation/second/Again2/main.c:5-13.
* Tickets, counters and sums are mathematical integers.
* `malloc` succeeds and returns a node distinct from all live ones. What a fresh node holds is arbitrary.
* `pthread_cond_wait` releases the mutex and falls asleep in one step, may wake for no reason, and retakes the mutex
  before it returns (IEEE Std 1003.1-2017, System Interfaces, `pthread_cond_wait`). A signal wakes one sleeper of its
  condition if there is one, and which one is arbitrary.

## False claims and their exact conditions

* The Anderson locks exclude on every run if and only if there is a slot for every thread
  (`AndersonLock.ExcludesIffEnoughSlots`).
* The prefix sum stays inside its arrays on every run if and only if there are at least as many inputs as threads
  (`PrefixSum.InBoundsIffTeamFits`); otherwise the first thread's block is empty and it reads the cell before it.
* The timeout lock excludes on every run, whoever times out, if and only if at most two threads use it
  (`TimeoutCorrectness.ExcludesIffAtMostTwo`): a waiter in the middle whose give-up fails stores AVAILABLE, and its successor
  takes that for a release. It excludes on every run in which each thread that gives up is still the tail, or has
  already seen the end of its wait (`Orderly`).
* In the timeout lock the branch at Queue Locks/TOLock/main.c:56-57 is never taken on any run, orderly or not: only NULL
  and AVAILABLE are ever stored in a node's pred (`TimeoutCorrectness.PollNeverFollows`).

## Model

| member | source | states |
|---|---|---|
| Runs.FairRunEnds | Queue Locks/MCSLock/main2.c:134-160 | Any system of threads in which steps never lead away from the end, and one that leads nearer stays possible until one is taken, ends on every fair schedule of as many segments as its measure |
| Runs.WorkIsBounded | Queue Locks/MCSLock/main2.c:134-160 | If every step that changes the state leads nearer to the end, no schedule has more such steps than the measure |
| FifoLock.MutualExclusion | Queue Locks/MCSLock/main2.c:119-132 | In every state of every run of the abstract first-in first-out lock at most one thread is inside |
| FifoLock.GrantedInArrivalOrder | Queue Locks/MCSLock/main2.c:66-115 | The log of grants is a prefix of the log of arrivals on every run |
| FifoLock.NoLostIncrements | Queue Locks/MCSLock/main2.c:119-157 | When all threads are done the counter is threads * rounds * times, although each increment is a read step and a write step |
| McsCorrectness.RefinesFifoLock | Queue Locks/MCSLock/main2.c:47-115 | Every run of the MCS lock is a run of the abstract lock: the state is represented by the abstract one, the arrivals are the successful swaps in order and the grants are the entries in order |
| McsLock.StepSimulates | Queue Locks/MCSLock/main2.c:47-115 | Every step keeps the invariant and is a stutter or the same thread's abstract step |
| McsCorrectness.QueueExists | Queue Locks/MCSLock/main2.c:66-115 | In every reachable state a duplicate-free queue exists: tail is its last node or NULL, each next is the true successor once that has linked itself and NULL before, every node but the first has lock = 1 |
| McsCorrectness.MutualExclusion | Queue Locks/MCSLock/main2.c:66-132 | Two threads are never inside together, for any number of threads and any reuse of their nodes |
| McsCorrectness.GrantedInSwapOrder | Queue Locks/MCSLock/main2.c:73-75 | The threads enter exactly in the order of their successful swaps on tail |
| McsCorrectness.NoLostIncrements | Queue Locks/MCSLock/main2.c:119-157 | The equality that the program checks at its end holds on every completed run |
| McsLock.LinkPredTarget | Queue Locks/MCSLock/main2.c:85-90 | The node a waiter links to is that of its predecessor in the queue, whose next is still NULL, and the waiter's own lock is still 1 |
| McsLock.HandOffTarget | Queue Locks/MCSLock/main2.c:112-114 | At the hand-off next is not NULL and is the second node of the queue, whose owner is spinning on it with lock = 1 |
| McsProgress.HandOffReachesSuccessor | Queue Locks/MCSLock/main2.c:112-114 | In every reachable state with a thread at the hand-off, the queue has a second node, next names it and its owner has finished linking |
| McsProgress.HandOffNotLost | Queue Locks/MCSLock/main2.c:58-59 | Once the release store is made no other thread's step, however many, sets the successor's lock back to 1 |
| McsCalls.ReleasedGetsIn | Queue Locks/MCSLock/main2.c:88-114 | On every run, from the release store on the successor gets in with its next step, however late that comes |
| McsCalls.HandOffTakesFourSteps | Queue Locks/MCSLock/main2.c:98-115 | On every run, with a successor linked a thread has returned from unlock four own steps after its last increment and has released it, tail untouched |
| McsCalls.FreeingTakesThreeSteps | Queue Locks/MCSLock/main2.c:98-103 | On every run, with its own node the tail a thread has returned from unlock three own steps after its last increment and has left tail NULL |
| McsCalls.FreeLockTakesSixSteps | Queue Locks/MCSLock/main2.c:58-81 | On every run, with tail NULL a thread that takes the next six steps is inside, its node the tail, reset and without a successor |
| McsCalls.SwapSucceedsOnSameTail | Queue Locks/MCSLock/main2.c:70-75 | A failed swap only reloads tail, and the next swap joins the queue behind the node loaded, whatever the others do between, if tail is then as it was |
| McsProgress.AwaitedLinkIsPending | Queue Locks/MCSLock/main2.c:98-110 | While a thread waits for a link, the second thread of the queue has swapped, holds it as predecessor and has its link step still to come |
| McsProgress.EveryRunIsBounded | Queue Locks/MCSLock/main2.c:66-132 | No run has more than threads * rounds * RoundCost steps that change the state, failed swaps included |
| McsProgress.NeverStuck | Queue Locks/MCSLock/main2.c:66-132 | In every reachable state with work left some thread's step changes the state |
| McsProgress.EveryFairRunFinishes | Queue Locks/MCSLock/main2.c:119-157 | However a run began, every fair continuation of at least threads * rounds * RoundCost segments ends with all done and the right count |
| McsProgress.EveryRunCanFinish | Queue Locks/MCSLock/main2.c:119-157 | Every run can be continued to one in which all are done, and the counter is then right |
| McsProgram.Program.constructor | Queue Locks/MCSLock/main2.c:43-45 | The lock starts with tail NULL, in the initial state of the model |
| McsProgram.Program.GetNode | Queue Locks/MCSLock/main2.c:47-62 | Resetting the thread's own node in place is the model's step, and the program stays on a run of the model |
| McsProgram.Program.SwapTail | Queue Locks/MCSLock/main2.c:70-75 | The read of tail and the compare-and-swap on pointers are the model's steps |
| McsProgram.Program.LinkAndSpin | Queue Locks/MCSLock/main2.c:78-93 | The test of the predecessor, the store to its next and the spin are the model's steps; the pointer stored through is not NULL |
| McsProgram.Program.PointersFollowed | Queue Locks/MCSLock/main2.c:85-114 | In every state of the program the predecessor that a waiter links to, the successor that an unlocker reads and the one it releases are not NULL |
| McsProgram.Program.Load | Queue Locks/MCSLock/main2.c:126-128 | The loop test and the read of the counter are the model's step |
| McsProgram.Program.Store | Queue Locks/MCSLock/main2.c:127 | The write of the counter is the model's step |
| McsProgram.Program.CheckNext | Queue Locks/MCSLock/main2.c:98 | The test of next is the model's step |
| McsProgram.Program.ClearTail | Queue Locks/MCSLock/main2.c:100-103 | The swap of tail back to NULL, and its failure, are the model's steps |
| McsProgram.Program.AwaitNext | Queue Locks/MCSLock/main2.c:107-109 | The wait for a late link is the model's step |
| McsProgram.Program.LoadNext | Queue Locks/MCSLock/main2.c:112-114 | The read of the successor is the model's step, and the pointer read is not NULL |
| McsProgram.Program.Release | Queue Locks/MCSLock/main2.c:114 | The release store through that pointer is the model's step |
| McsProgram.CountTogether | Queue Locks/MCSLock/main2.c:134-160 | The program on node objects ends on every interleaving and then has counted threads * rounds * times |
| ClhCorrectness.RefinesFifoLock | exam_preparation/Three3/Algorithm/Last/CLHLogic.c:26-62 | Every run of the CLH lock with a fresh node per acquisition is a run of the abstract lock, with arrivals and grants in the order of exchanges and of ends of spins |
| ClhCorrectness.MutualExclusion | exam_preparation/Three3/Algorithm/Last/CLHLogic.c:50-62 | At most one thread is past its spin and before its unlock |
| ClhCorrectness.GrantedInSwapOrder | exam_preparation/Three3/Algorithm/CLHLock.c:49-62 | The threads enter exactly in the order of their exchanges on tail |
| ClhCorrectness.NoLostIncrements | exam_preparation/Three3/Algorithm/Last/CLHLogic.c:64-84 | On every completed run the counter is threads * rounds * times |
| ClhCorrectness.OneWaiterPerNode | exam_preparation/Three3/Algorithm/Last/CLHLogic.c:53-55 | Two threads that spin on the same node are the same thread |
| ClhCorrectness.PublishedWithFlagUp | exam_preparation/Three3/Algorithm/Last/CLHLogic.c:51-53 | A node is published with its flag at 1 and had not been published before |
| ClhCorrectness.PublishedFlagsOnlyFall | exam_preparation/Three3/Algorithm/Last/CLHLogic.c:50-62 | From its publication on a node's flag goes at most from 1 to 0, whatever runs afterwards |
| ClhCorrectness.AllFlagsDownWhenDone | exam_preparation/Three3/Algorithm/Last/CLHLogic.c:58-62 | When all threads are done every published flag has fallen |
| ClhCorrectness.UnlockReadsPublishedNode | exam_preparation/Three3/Algorithm/Last/CLHLogic.c:37-62 | On every continuation after the exchange the thread-local slot names the node that lock published until its unlock has read it |
| ClhCorrectness.EveryRunIsBounded | exam_preparation/Three3/Algorithm/CLHLock.c:49-73 | No run has more than threads * rounds * RoundCost steps that change the state |
| ClhCorrectness.NeverStuck | exam_preparation/Three3/Algorithm/CLHLock.c:49-73 | In every reachable state with work left some thread's step changes the state |
| ClhCorrectness.EveryFairRunFinishes | exam_preparation/Three3/Algorithm/CLHLock.c:64-84 | However a run began, every fair continuation of at least threads * rounds * RoundCost segments ends with all done and the right count |
| ClhCorrectness.EveryRunCanFinish | exam_preparation/Three3/Algorithm/CLHLock.c:64-84 | Every run can be continued to a completed one with the right count |
| ClhProgram.Program.constructor | exam_preparation/Three3/Algorithm/CLHLock.c:24-30 | The lock starts with one node whose flag is 0 |
| ClhProgram.Program.GetSlot | exam_preparation/Three3/Algorithm/Last/CLHLogic.c:37-48 | The slot's node is returned, and an empty slot is filled with a newly allocated node |
| ClhProgram.Program.PointersFollowed | exam_preparation/Three3/Algorithm/Last/CLHLogic.c:50-62 | In every state of the program the own node is there from the flag store to the unlock, and the predecessor at the spin |
| ClhProgram.Program.TakeNode | exam_preparation/Three3/Algorithm/Last/CLHLogic.c:51 | Taking the own node, allocated if there is none, is the model's step |
| ClhProgram.Program.RaiseFlag | exam_preparation/Three3/Algorithm/Last/CLHLogic.c:52 | The flag store on the node object is the model's step |
| ClhProgram.Program.SwapTail | exam_preparation/Three3/Algorithm/Last/CLHLogic.c:53-54 | The exchange of tail for the node object is the model's step |
| ClhProgram.Program.Spin | exam_preparation/Three3/Algorithm/Last/CLHLogic.c:55 | A look at the flag through the predecessor pointer is the model's step |
| ClhProgram.Program.ClearFlag | exam_preparation/Three3/Algorithm/Last/CLHLogic.c:59-60 | The flag store of unlock is the model's step |
| ClhProgram.Program.Forget | exam_preparation/Three3/Algorithm/Last/CLHLogic.c:61 | The clearing of the slot is the model's step |
| ClhProgram.CountTogether | exam_preparation/Three3/Algorithm/Last/CLHLogic.c:64-84 | The program on freshly allocated node objects ends on every interleaving and then has counted threads * rounds * times |
| Slots.SlotUnique | exam_preparation/Three3/Algorithm/ALock.c:46-50 | Tickets less than a capacity apart share a slot only if they are equal |
| Slots.NextSlot | exam_preparation/Three3/Algorithm/ALock.c:52-56 | ((k mod C) + 1) mod C = (k + 1) mod C |
| AndersonLock.RefinesFifoLock | exam_preparation/Three3/Algorithm/ALock.c:23-56 | With a slot for every thread every run of the array lock is a run of the abstract lock, in ticket order |
| AndersonLock.MutualExclusion | exam_preparation/Three3/Algorithm/ALock.c:46-56 | With a slot for every thread at most one thread is inside |
| AndersonLock.GrantedInTicketOrder | exam_preparation/Three3/Algorithm/ALock.c:46-50 | The threads enter exactly in the order of their fetch-and-adds |
| AndersonLock.NoLostIncrements | exam_preparation/Three3/Algorithm/ALock.c:58-78 | On every completed run the counter is threads * rounds * times |
| AndersonLock.TicketWindow | exam_preparation/Three3/Algorithm/ALock.c:46-56 | served <= tail <= served + capacity in every reachable state |
| AndersonLock.SlotsAreDistinct | exam_preparation/Three3/Algorithm/ALock.c:32-56 | Threads with an outstanding ticket never store the same slot |
| AndersonLock.OpenFlagIsServedSlot | exam_preparation/Three3/Algorithm/ALock.c:52-56 | A flag is open exactly if it is slot served mod C and no thread is between the two stores of unlock |
| AndersonLock.ExcludesIffEnoughSlots | exam_preparation/Three3/Algorithm/ALock.c:8-78 | All runs exclude if and only if there are at most as many threads as slots |
| AndersonLock.TooFewSlots | exam_preparation/Three3/Algorithm/ALock.c:46-50 | With more threads than slots a concrete schedule lets two threads in |
| AndersonLock.EveryRunIsBounded | exam_preparation/Three3/Algorithm/ALock.c:46-67 | No run has more than threads * rounds * RoundCost steps that change the state |
| AndersonLock.NeverStuck | exam_preparation/Three3/Algorithm/ALock.c:46-67 | In every reachable state with work left some thread's step changes the state |
| AndersonLock.EveryFairRunFinishes | exam_preparation/Three3/Algorithm/ALock.c:58-78 | With a slot for every thread every fair continuation of at least threads * rounds * RoundCost segments ends with all done and the right count |
| AndersonLock.EveryRunCanFinish | exam_preparation/Three3/Algorithm/ALock.c:58-78 | Every run can be continued to a completed one with the right count |
| AndersonTickets.StepCorresponds | exam_preparation/second/Again2/ALock2.c:50-60 | The encodings are bisimilar: corresponding states step to corresponding states, and one stutters if and only if the other does, for any number of threads |
| AndersonTickets.EncodingsAgree | exam_preparation/second/Again2/ALock2.c:22-60 | On every run the two locks have opposite flags and equal tickets, and one stores the raw ticket, the other the slot that it reduces to |
| AndersonTickets.StoresRawTicket | exam_preparation/second/Again2/ALock2.c:51-57 | On every run, for any number of threads, from its fetch-and-add to the end of its unlock a thread stores its raw ticket, and that is its place in the order of fetch-and-adds |
| AndersonTickets.ExcludesIffEnoughSlots | exam_preparation/second/Again2/ALock2.c:50-60 | The second encoding excludes on all runs under exactly the same condition |
| AndersonTickets.NoLostIncrements | exam_preparation/second/Again2/ALock2.c:62-82 | On every completed run of the second encoding the counter is right |
| AndersonTickets.EveryFairRunFinishes | exam_preparation/second/Again2/ALock2.c:62-82 | So does every fair continuation of the second encoding, by the bisimulation |
| AndersonTickets.EveryRunCanFinish | exam_preparation/second/Again2/ALock2.c:62-82 | Every run of the second encoding can be continued to a completed one with the right count |
| AndersonProgram.InitialFlags | exam_preparation/Three3/Algorithm/ALock.c:23-30 | The loop closes every flag and then opens the first |
| AndersonProgram.SlotLock.Lock | exam_preparation/Three3/Algorithm/ALock.c:46-50 | Fetch-and-add, the stored slot and the spin are the model's steps on the array |
| AndersonProgram.SlotLock.Unlock | exam_preparation/Three3/Algorithm/ALock.c:52-56 | The two stores to the array are the model's steps, inside its bounds |
| AndersonProgram.TicketLock.Lock | exam_preparation/second/Again2/ALock2.c:50-54 | The same for the encoding that stores the ticket, in step with the first encoding |
| AndersonProgram.TicketLock.Unlock | exam_preparation/second/Again2/ALock2.c:56-60 | The same for its two stores |
| AndersonProgram.CountWithSlots | exam_preparation/Three3/Algorithm/ALock.c:58-78 | The program ends on every interleaving and then has counted threads * rounds * times |
| AndersonProgram.CountWithTickets | exam_preparation/second/Again2/ALock2.c:62-82 | The same for the second encoding, whose termination comes from the first by the bisimulation |
| TimeoutCorrectness.MutualExclusion | Queue Locks/TOLock/main.c:43-94 | On every orderly run, with timeouts at any moment, at most one thread holds the lock |
| TimeoutCorrectness.MutualExclusionWhenQuitsSucceed | Queue Locks/TOLock/main.c:61-67 | In particular if every thread that gives up is still the tail |
| TimeoutCorrectness.GiveUpRestoresQueue | Queue Locks/TOLock/main.c:61-66 | A successful give-up leaves exactly the queue without the quitter, in any state of an orderly run, and keeps the invariant |
| TimeoutCorrectness.NoLostIncrements | Queue Locks/TOLock/main.c:81-94 | On every orderly run the counter is the number of threads that have written it |
| TimeoutCorrectness.FrontGetsIn | Queue Locks/TOLock/main.c:52-60 | The thread at the front of the queue enters at its next poll, once the one ahead has stored AVAILABLE |
| TimeoutCorrectness.PollNeverFollows | Queue Locks/TOLock/main.c:53-58 | On every run, orderly or not, a poll sees NULL or AVAILABLE, so the node waited on never changes |
| TimeoutLock.PollSees | Queue Locks/TOLock/main.c:53-55 | In an invariant state only the front of the queue sees AVAILABLE |
| TimeoutOrder.EntersInExchangeOrder | Queue Locks/TOLock/main.c:46-60 | On every orderly run the log of entries is a subsequence of the log of exchanges on tail: the lock is granted in the order of the exchanges, and only threads that give up are skipped |
| TimeoutOrder.NoOvertaking | Queue Locks/TOLock/main.c:46-67 | On every orderly run, as long as a waiter waits no thread whose exchange came later has had the lock: it is still before its exchange, waits, or has given up |
| TimeoutPatience.TimeoutEndsWait | Queue Locks/TOLock/main.c:52-66 | On every run, whatever the others do meanwhile: a waiter tests the clock again after each poll, and once the test finds the patience used up it has returned without the lock, or has the lock, two own steps later |
| TimeoutPatience.ReleaseEndsWait | Queue Locks/TOLock/main.c:52-60 | On every run, whatever the others do meanwhile: once the node waited on shows AVAILABLE it does so for good, and the waiter has the lock after its next poll, one clock test away at most |
| TimeoutPatience.PatientStays | Queue Locks/TOLock/main.c:52-67 | On any run a thread whose clock tests all find patience left never gives up |
| TimeoutPatience.LeaverShows | Queue Locks/TOLock/main.c:61-79 | On every run, for a give-up and an unlock alike: a thread that is still the tail returns with its compare-and-swap and never shows AVAILABLE; any other stores it with its next step, returns and shows it for good |
| TimeoutCorrectness.EveryRunCanFinish | Queue Locks/TOLock/main.c:81-113 | Every orderly run can be continued, in an orderly way, until all threads have returned, and the counter is then the number that got the lock |
| TimeoutCorrectness.DisorderlyQuitBreaksExclusion | Queue Locks/TOLock/main.c:61-66 | From any invariant state a disorderly give-up with a holder inside and a successor about to poll lets the successor in |
| TimeoutCorrectness.ExcludesIffAtMostTwo | Queue Locks/TOLock/main.c:43-94 | With timeouts unrestricted all runs exclude if and only if there are at most two threads |
| TimeoutProgram.Program.Enqueue | Queue Locks/TOLock/main.c:44-51 | The store to pred and the exchange are the model's steps on node objects |
| TimeoutProgram.Program.Poll | Queue Locks/TOLock/main.c:52-60 | The clock test and the poll are the model's steps; the node waited on is not NULL |
| TimeoutProgram.Program.GiveUp | Queue Locks/TOLock/main.c:61-67 | The compare-and-swap and the store after its failure are the model's steps |
| TimeoutProgram.Program.Unlock | Queue Locks/TOLock/main.c:69-79 | The compare-and-swap and the store after its failure are the model's steps |
| TimeoutProgram.RunThreads | Queue Locks/TOLock/main.c:81-113 | The program on node objects follows the model on every run, disorderly ones included, and on orderly ones counts its writers |
| PetersonLock.MutualExclusion | Spin Locks/PetersonLock/main.c:11-23 | The two threads are never inside together, with the two reads of the wait condition as separate steps |
| PetersonLock.NoLostIncrements | Spin Locks/PetersonLock/main.c:25-36 | On every completed run the counter is 2 * rounds * times |
| PetersonLock.NeverBothBlocked | Spin Locks/PetersonLock/main.c:16-17 | In any state in which both threads wait, at most two steps of the one that is not the victim take it inside |
| PetersonLock.UncontendedGetsIn | Spin Locks/PetersonLock/main.c:14-17 | On every run, with the other thread outside three own steps get a thread in: its two stores and one read of a flag that is down |
| PetersonLock.BypassedAtMostOnce | Spin Locks/PetersonLock/main.c:14-17 | While a thread that has written victim waits, the other enters at most once, on every run |
| PetersonLock.EveryFairRunFinishes | Spin Locks/PetersonLock/main.c:25-45 | However a run began, every continuation of at least 10 * rounds * RoundCost segments with a step of both threads in each ends with both done and the right count |
| PetersonLock.EveryRunCanFinish | Spin Locks/PetersonLock/main.c:25-45 | Every run can be continued to a completed one with the right count |
| PetersonProgram.Program.Lock | Spin Locks/PetersonLock/main.c:11-19 | The stores to the flag and to victim and the two reads are the model's steps |
| PetersonProgram.Program.BodyAndUnlock | Spin Locks/PetersonLock/main.c:21-36 | The read, the write and the clearing of the flag are the model's steps |
| PetersonProgram.CountTogether | Spin Locks/PetersonLock/main.c:25-45 | On every schedule the threads are never seen inside together, and if all are done the count is right |
| ReadWriteLock.NextInv | Pthread/ReadWriteLock/PThreadWriteLock/ReadWriteLock.c:29-74 | Every step, client call and chance wake-up keeps the invariant on mutex, counters and sleepers, in both versions |
| ReadWriteCorrectness.CountersAreReal | Pthread/ReadWriteLock/PThreadWriteLock/ReadWriteLock.c:29-74 | With the mutex free readers, writers and pendingWriters are the numbers of read holders, write holders and waiting writers, in both versions |
| ReadWriteCorrectness.WriterExcludesAll | Pthread/ReadWriteLock/PThreadWriteLock/ReadWriteLock.c:29-52 | A write holder is the only holder at every moment of every run |
| ReadWriteCorrectness.UnlockReleasesOwnHold | Pthread/ReadWriteLock/PThreadWriteLock/ReadWriteLock.c:60-67 | The one unlock lowers the counter of the kind of hold that its caller has and no other |
| ReadWriteCorrectness.ReadersYieldToWriters | Pthread/ReadWriteLock/PThreadWriteLock/ReadWriteLock.c:29-35 | A reader is let in only with no writer inside and none pending |
| ReadWriteCorrectness.NoLostWakeUp | Pthread/ReadWriteLock/PThreadWriteLock/ReadWriteLock.c:29-74 | With the mutex free: if nobody holds the lock and a writer is pending, some pending writer is awake; if no writer holds or is pending, no reader is asleep |
| ReadWriteCorrectness.SomebodyCanMove | exam_preparation/second/Again2/ReadWriteLock/PthreadReadWriteLock.c:26-59 | An unheld lock with a call in progress never has all its callers asleep or blocked, in either version |
| ReadWriteCorrectness.FreeLockCanBeTaken | exam_preparation/second/Again2/ReadWriteLock/PthreadReadWriteLock.c:26-59 | With mutex and lock free and a caller present, some caller gets the lock by its own steps alone |
| ReadWriteCalls.ReaderWaitsIffWriter | Pthread/ReadWriteLock/PThreadWriteLock/ReadWriteLock.c:31-33 | On every run a reader's test sends it to sleep if and only if some writer has the lock or waits for it, whatever other readers have |
| ReadWriteCalls.WriterWaitsIffHeld | Pthread/ReadWriteLock/PThreadWriteLock/ReadWriteLock.c:46-48 | On every run a writer's test sends it to sleep if and only if some reader or writer has the lock |
| ReadWriteCalls.SleepsUntilWoken | Pthread/ReadWriteLock/PThreadWriteLock/ReadWriteLock.c:32-47 | A sleeper stays where it is on every run without the wake-up of an unlock or a chance wake-up |
| ReadWriteCalls.CallGivesItsKind | Pthread/ReadWriteLock/PThreadWriteLock/ReadWriteLock.c:29-52 | After a call for one kind of hold a thread that has the lock has it in that kind, on every run up to its unlock |
| ReadWriteCalls.HeldUntilDropped | Pthread/ReadWriteLock/PThreadWriteLock/ReadWriteLock.c:29-60 | On every run a thread that has the lock still has it, in the same kind, after any events but its own call of unlock |
| ReadWriteCalls.CallReturns | Pthread/ReadWriteLock/PThreadWriteLock/ReadWriteLock.c:34-74 | A lock call past its test and an unlock return after a fixed number of own steps, whatever happens in between: the lock call with its hold, the unlock outside |
| ReadWriteCalls.UnlockTakesFourSteps | Pthread/ReadWriteLock/PThreadWriteLock/ReadWriteLock.c:60-74 | A holder of either kind that calls unlock is in it until its fourth own step and outside from then on, whatever happens in between |
| ReadWriteCalls.UnlockGoesOn | Pthread/ReadWriteLock/PThreadWriteLock/ReadWriteLock.c:60-74 | An unlock that has the mutex, or finds it free, always has a step to take |
| ReadWriteCalls.BroadcastWakesAllWriters | exam_preparation/second/Again2/ReadWriteLock/PthreadReadWriteLock.c:53-54 | On every run of the broadcasting version the wake-up of an unlock with a writer waiting leaves no writer asleep, and wakes nobody else |
| ReadWriteCalls.SignalWakesOneWriter | Pthread/ReadWriteLock/PThreadWriteLock/ReadWriteLock.c:68-69 | On every run of the signalling version it wakes one sleeping writer, any of them, or nobody if none sleeps |
| ReadWriteCalls.UnlockWakesAllReaders | Pthread/ReadWriteLock/PThreadWriteLock/ReadWriteLock.c:70-71 | On every run of either version the wake-up of an unlock with no writer waiting leaves no reader asleep, and wakes nobody else |
| ReadWriteProgram.Lock.ReadLock | Pthread/ReadWriteLock/PThreadWriteLock/ReadWriteLock.c:29-36 | The steps of the read lock on the fields are the model's |
| ReadWriteProgram.Lock.WriteLock | Pthread/ReadWriteLock/PThreadWriteLock/ReadWriteLock.c:43-52 | The steps of the write lock on the fields are the model's |
| ReadWriteProgram.Lock.Unlock | exam_preparation/second/Again2/ReadWriteLock/PthreadReadWriteLock.c:46-59 | The steps of the shared unlock on the mutex and the counters are the model's |
| ReadWriteProgram.Lock.WakeOthers | Pthread/ReadWriteLock/PThreadWriteLock/ReadWriteLock.c:68-72 | Its wake-up, with a signal or with a broadcast, is the model's step |
| ReadWriteProgram.RunThreads | Pthread/ReadWriteLock/PThreadWriteLock/ReadWriteLock.c:14-74 | At the end of any run the fields are those of the model and, with the mutex free, count holders and waiters |
| ProducerConsumer.CounterIsBalance | Pthread/PThreadProducerCustomer/main.c:43-71 | On every run 0 <= value <= capacity and value = produced - consumed, where produced counts the changes by producers and consumed those by consumers |
| ProducerConsumer.ProducersRaiseConsumersLower | Pthread/PThreadProducerCustomer/main.c:50-65 | On every run value is the number of changes made by producers less the number made by consumers, counted over the events by role, and produced and consumed are those two numbers |
| ProducerConsumer.OneChangeEachPass | Pthread/PThreadProducerCustomer/main.c:45-70 | On every run a thread has changed the counter once for each completed pass of its loop, and once more between its change and the end of the pass |
| ProducerConsumer.WaitsAsleep | Pthread/PThreadProducerCustomer/main.c:47-49 | A thread that finds the counter full, or empty, gives the mutex up and sleeps until the other side broadcasts or it wakes by chance |
| ProducerConsumer.OnlySleepersWake | Pthread/PThreadProducerCustomer/main.c:47-52 | A thread comes to retake the mutex after a wait if and only if it slept and the other side broadcast or it woke by chance |
| ProducerConsumer.SleepersHaveReason | Pthread/PThreadProducerCustomer/main.c:47-49 | With the mutex free a sleeping producer means a full counter and a sleeping consumer an empty one |
| ProducerConsumer.NotBothSidesAsleep | Pthread/PThreadProducerCustomer/main.c:43-71 | Producers and consumers are never asleep together while the mutex is free |
| ProducerConsumer.NeverStuck | Pthread/PThreadProducerCustomer/main.c:43-71 | With a thread on each side some thread can always take a step of its own |
| ProducerConsumer.SomebodyCanWork | Pthread/PThreadProducerCustomer/main.c:43-71 | With the mutex free some thread produces or consumes within three of its own steps |
| ProducerConsumerProgram.Program.Produce | Pthread/PThreadProducerCustomer/main.c:43-56 | The producer's steps on the counter are the model's |
| ProducerConsumerProgram.Program.Consume | Pthread/PThreadProducerCustomer/main.c:58-71 | The consumer's steps on the counter are the model's |
| ProducerConsumerProgram.RunThreads | Pthread/PThreadProducerCustomer/main.c:22-71 | On every run the counter is within its bounds after every step |
| Barrier.NobodyPassesEarly | exam_preparation/second/Again2/Pthread_barrier/PthreadBarrier.c:22-32 | While a thread is past the loop every thread has arrived, with chance wake-ups allowed |
| Barrier.SleepersAreWoken | exam_preparation/second/Again2/Pthread_barrier/PthreadBarrier.c:26-31 | After the last arrival a sleeper always has a broadcast to come from the thread in the monitor |
| Barrier.WaitsAsleep | exam_preparation/second/Again2/Pthread_barrier/PthreadBarrier.c:26-28 | On every run a thread that tests before all have arrived gives the mutex up and sleeps until a broadcast or a chance wake-up |
| Barrier.MeasureFalls | exam_preparation/second/Again2/Pthread_barrier/PthreadBarrier.c:22-32 | After the last arrival every event that changes anything lowers the measure, chance wake-ups included |
| Barrier.EverybodyLeaves | exam_preparation/second/Again2/Pthread_barrier/PthreadBarrier.c:22-32 | After the last arrival at most five events a thread change anything, and all can leave |
| Barrier.EveryRunCanFinish | exam_preparation/second/Again2/Pthread_barrier/PthreadBarrier.c:16-32 | Every run can be continued until all threads have left |
| BarrierProgram.Program.Pass | exam_preparation/second/Again2/Pthread_barrier/PthreadBarrier.c:22-32 | The thread's steps on the counter are the model's |
| BarrierProgram.RunThreads | exam_preparation/second/Again2/Pthread_barrier/PthreadBarrier.c:16-32 | At no moment of any run is a thread past the loop while another has still to arrive |
| PrefixSum.SequentialResult | exam_preparation/OpenMPPreparation/exercise/exercise4_2.c:24-58 | For every input and every team no larger than it, every interleaving ends with output[i] = input[0] + ... + input[i] for all i, whatever the arrays held before |
| PrefixSum.BlocksPartition | exam_preparation/OpenMPPreparation/exercise/exercise4_2.c:34-43 | Every index belongs to exactly one thread's block, the remainder to the last |
| PrefixSum.BlockSumsFrozenAfterBarrier | exam_preparation/OpenMPPreparation/exercise/exercise4_2.c:48-53 | Once a thread is past the barrier every block sum is complete and no later step changes it |
| PrefixSum.InBoundsIffTeamFits | exam_preparation/OpenMPPreparation/exercise/exercise4_2.c:36-48 | No run uses an index outside an array if and only if there are at least as many inputs as threads |
| PrefixSum.EveryRunTakesAsLong | exam_preparation/OpenMPPreparation/exercise/exercise4_2.c:36-57 | All completed runs have the same number of steps that change the state, 2n + T(T + 9)/2, and no run has more |
| PrefixSum.EveryFairRunFinishes | exam_preparation/OpenMPPreparation/exercise/exercise4_2.c:24-58 | However a run began, every fair continuation of at least 2n + T(T + 9)/2 segments ends with all done and the sequential result |
| PrefixSum.EveryRunCanFinish | exam_preparation/OpenMPPreparation/exercise/exercise4_2.c:24-58 | Every run can be continued to a completed one with the sequential result |
| PrefixSum.Region.ScanBlock | exam_preparation/OpenMPPreparation/exercise/exercise4_2.c:44-47 | The scan of the own block in the output array is the model's steps, inside its bounds |
| PrefixSum.Region.SaveBlockSum | exam_preparation/OpenMPPreparation/exercise/exercise4_2.c:48 | The store of the block's sum is the model's step |
| PrefixSum.Region.PassBarrier | exam_preparation/OpenMPPreparation/exercise/exercise4_2.c:49 | The barrier is the model's step |
| PrefixSum.Region.CollectOffset | exam_preparation/OpenMPPreparation/exercise/exercise4_2.c:50-53 | The collection of the offset is the model's steps, inside the array of sums |
| PrefixSum.Region.AddOffset | exam_preparation/OpenMPPreparation/exercise/exercise4_2.c:54-56 | Its addition to the block is the model's steps, inside the output array |
| PrefixSum.ParallelPrefixSum | exam_preparation/OpenMPPreparation/exercise/exercise4_2.c:24-58 | The function on arrays ends on every interleaving with the prefix sums of the input in the output array |
| Scatterv.DisplacementFormula | MPI/MPIHello/Books/MPI_Scatterv.c:41-50 | displs[i] = i * base + min(i, rem) |
| Scatterv.SharesFillTheBuffer | MPI/MPIHello/Books/MPI_Scatterv.c:23-50 | The counts of all ranks add up to N |
| Scatterv.RangesCover | MPI/MPIHello/Books/MPI_Scatterv.c:41-50 | An index is in some rank's range if and only if it is below N |
| Scatterv.RangesDisjointAndFair | MPI/MPIHello/Books/MPI_Scatterv.c:41-50 | Two ranks' ranges never overlap and their sizes differ by at most one, the earlier rank's being the larger |
| Scatterv.ChunksRebuildBuffer | MPI/MPIHello/Books/MPI_Scatterv.c:52-53 | The chunks of all ranks in rank order concatenate to the send buffer, for every buffer and every number of ranks |
| Scatterv.ReceiveCount | MPI/MPIHello/Books/MPI_Scatterv.c:23-30 | The count a rank works out for itself is the root's entry for it |
| Scatterv.SendBuffer | MPI/MPIHello/Books/MPI_Scatterv.c:38-40 | The buffer holds 100 * i at every i |
| Scatterv.Plan | MPI/MPIHello/Books/MPI_Scatterv.c:41-50 | The root's loop fills both arrays with every rank's share and displacement |
| Scatterv.ScatterAll | MPI/MPIHello/Books/MPI_Scatterv.c:20-57 | For every N and world size what the ranks receive, each its share, is in rank order what the root filled in |

## Left out

- Weak memory, integer overflow, `malloc` failure, thread creation and joining, `printf`, sleeping, clocks and the MPI and OpenMP run-time systems; a clock test of the timeout lock is a free choice.
- The two reads of tail at Queue Locks/MCSLock/main2.c:70 and 74 are one kind of step, and the first allocation of a thread's node is part of the model's start.
- The thread-local slot operations of the CLH and Anderson locks are not steps of their own, since no other thread can see them; the CLH lock keeps them apart where it clears its slot.
- One iteration of a loop of the prefix sum is one step: it touches only cells of the thread's own block, and block sums that no longer change.
- The executions of the OpenMP `single` block before the scan: the team size and the block size are constants of the model.
- The classes add to the fields of the C code what the run itself needs: every thread's program counter and locals, the owner of each node, and in `ClhProgram` the list of nodes allocated so far, by which nodes are named.
- Which thread sleeps on which condition is part of its program counter, and the mutex is its holder's number; there are no objects for them.
- A second `lock` call of a thread on the timeout lock, which would reuse its node.
- TimeoutCorrectness.MutualExclusion: states exclusion for orderly runs, because on others it is false (ThreeThreadsBreakExclusion).
- ProducerConsumer.SomebodyCanWork: says that some thread can work next, not that a given one will: a fair scheduler alone does not prevent that the others take the mutex first every time.
- Completion of fair runs is proved for the queue locks without timeouts, Peterson's lock and the prefix sum. For the timeout lock, the reader/writer lock and the barrier it is not: their runs have clock tests, client calls and chance wake-ups that no schedule of threads bounds.
- The MCS copies without the wait for the link (Queue Locks/MCSLock/main.c, exam_preparation/Three3/Algorithm/MCSLock.c, exam_preparation/second/Again2/MCSLock.c, exam_preparation/Three3/Algorithm/Last/MCSLogic.c), in which next may be NULL at the hand-off.
- The CLH copies that reuse one node or never raise the flag (exam_preparation/second/Again2/CLHLock.c, exam_preparation/second/Again2/CLHLock2.c) and the one-shot copy Queue Locks/CLHLock/main.c.
- Queue Locks/QueueLock/main.c, whose slots do not wrap, and the Peterson variant at exam_preparation/second/Again2/main.c:32-38, which sets victim to the other thread.
- Barriers and producer/consumers that test their condition with `if`, and clients of the reader/writer lock that unlock what they do not hold or call under the wrong kind of lock.
- The test-and-set, test-and-test-and-set and backoff locks, the Fibonacci and range-sum recursions, matrix fills and message rings: easy beside the queue locks.
- Floating point and randomness: the Pi estimates, the integrals and the convolution.
