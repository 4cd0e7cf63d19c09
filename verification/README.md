# The concurrency kernel of the OpenFlow controller, verified in Dafny

The controller's threads share state through four layers that rest on each other:
a futex semaphore with a reader/writer lock, read-copy-update grace periods, two
kinds of callback queue that wait for them, and a multicore hash table that hands
its deleted nodes to one of these queues. This project models the code of these
layers and proves what they promise over all interleavings.

- **Semaphore and lock** (`Futex.dfy`, `Furwock.dfy`). Each atomic instruction, plain
  store and kernel call of `futex_down`, `futex_trydown` and `futex_up` is a step of
  any number of threads. The lock runs on two such semaphores. The sign test and the
  decrement of the down primitive are two steps, as in `i386.h`. With no timeout,
  FUTEX_WAIT returns on a wake or when the value has changed.
- **Grace periods** (`GracePeriod.dfy`, `ParityRcu.dfy`, `QsbrRcu.dfy`). An abstract
  grace period, and the two algorithms that refine it: the two-flip parity algorithm,
  with nested sections and readers paused between loading the global counter and
  storing it, and the quiescent-state counter in both word sizes. The reader side is
  that of `urcu/static/urcu.h` and `urcu/static/urcu-qsbr.h`.
- **call_rcu** (`CallRcu.dfy`, `Reclaim.dfy`). The multi-producer queue whose producers
  publish in two steps, as in `urcu/static/wfqueue.h`; the worker that splices and
  walks it; its futex; the STOP/STOPPED handshake; and the abstract reclaimer that
  all this refines.
- **Deferred callbacks** (`Defer*.dfy`). `DeferCodec` is the stream of words that stores
  (function, data) pairs, `DeferRing` the 4096 slots under wrapping 64-bit indices,
  `DeferQueue` the queue as an object over an array, as its owner sees it.
  `DeferStore` is the same queue shared by an owner and a drainer, word by word, and
  `DeferProtocol` all threads together, with both mutexes, the registry and the defer
  thread. `DeferPlaces`, `DeferGoals` and `DeferWakeup` hold the invariants of the
  protocol, `DeferDelivery` its theorems over runs, and `DeferCalls` what each function
  has done when it returns.
- **Hash table** (`BucketList.dfy`, `SlotQueue.dfy`, `McHash.dfy`, `HashScan.dfy`). The
  table as an object whose methods are the macros, with loops and stores in place;
  and, end to end, a bucket scanned without locks while writers append and unlink,
  the reclaimer waits for grace periods, and freed nodes leave memory.

`Sequences.dfy` holds the lemmas on lists that several of these share.

Memory is sequentially consistent and every access to shared memory is one step, as
the RCU_MB flavour with its full barriers provides (`urcu.c:154-159`). A run is a
sequence of states from an initial one. History variables, named as such in the
files, record what the code does not keep: the order in which callbacks were queued,
which ran, and when a section began. Running a callback is an event; callbacks do not
call back into the queue that runs them.

Each protocol is pinned from three sides. Invariants and safety say what never happens.
Theorems from call to return (`...Returns`, `TurnRunsAll`) say what an operation has done
when its caller goes on; they take sections, contents and calls from the actions of the
run, so that no bookkeeping variable of the model has to be believed. Measures
(`...Advances`) with enabledness (`...CanStep`) say that every operation gets there unless
it waits for a named other party.

Three places where code and documentation disagree, or where a promise has an edge:

- `mchash.h:158` documents the count of a bucket as its number of nodes. Appending adds 2
  to it, once in the macro and once in the function it calls (`mchash.h:324-326`,
  `mchash.c:129`), and deleting subtracts 1. `McHash.CountsTwo` shows the first case
  and `McHash.CountIsRightIff` says exactly when the count is right.
- The 64-bit quiescent-state counter wraps. A reader paused while coming online for
  2^63 grace periods is missed by the next one: `QsbrRcu.WrappedCounterMissesAReader`
  reaches that state. `QsbrRcu.MissedIffAliased` says exactly which readers can be
  missed, those that already hold the value the next update stores, and
  `QsbrRcu.AliasedIffWholePeriod` which age of a reader that is. Fewer grace periods
  are safe, and so is the two-flip version.
- A safe reference can match a reused slot, but only after a non-zero multiple of
  2^32 - 1 appends (`McHash.SafeReference`), and after the first of these it does
  (`McHash.ReferenceMatchesAgain`).

## Model

| member | source | states |
|---|---|---|
| Futex.ExclusionKept | OF-controller/opensrc/futex/usersem.h:37-75 | Every step of every thread keeps: at most one thread holds the semaphore or is about to take it, and none does while the count is 1, although plain stores of 1 and -1 race with decrements |
| Futex.BoundKept | OF-controller/opensrc/futex/i386.h:6-27 | Every step keeps the count minus the threads that passed the sign test and have not decremented yet at least minus the number of threads |
| Futex.CountInRange | OF-controller/opensrc/futex/usersem.c:49-53 | With fewer than 2^30 threads the count stays in the range of an int and above FUTEX_PASSED, so the direct-pass branch is never taken and no decrement wraps |
| Futex.SleepKept | OF-controller/opensrc/futex/usersem.c:42-72 | Every step keeps: while a thread sleeps in FUTEX_WAIT the count is negative, or some thread still owes a wake, or a woken thread has not slept again or stored -1 yet |
| Futex.StepKeepsInv | OF-controller/opensrc/futex/usersem.h:37-75 | All semaphore invariants together are kept by every step |
| Futex.TryFailsOnlyIfTaken | OF-controller/opensrc/futex/usersem.h:63-66 | futex_trydown can always go on, and returns failure only when some thread holds the semaphore or it is down on behalf of nobody in particular |
| Futex.AloneOutcome | OF-controller/opensrc/futex/usersem.h:37-75 | Without interference down takes a free semaphore and otherwise sleeps leaving a negative count, trydown takes a free one and otherwise fails, a woken thread that finds it free takes it and restores -1, and up ends with the count at exactly 1 and owes a wake exactly if the count was negative |
| Furwock.GateIsExclusive | OF-controller/opensrc/futex/furwock.h:24-55 | No two threads hold the gate, or are about to take it, at once |
| Furwock.GuardNeverSkips | OF-controller/opensrc/futex/furwock.h:40-45 | A thread that holds the gate and has not touched the counter yet finds the counter non-negative, no writer claiming the lock and the wait semaphore down |
| Furwock.LastReaderOut | OF-controller/opensrc/futex/furwock.h:50-55 | The decrement in read_up goes negative exactly for the last counted reader while a writer waits, and then the wait semaphore is still down, so one token is given |
| Furwock.StepKeepsInv | OF-controller/opensrc/futex/furwock.h:24-88 | Every step of every thread through the futex primitives keeps all invariants of the lock and of both semaphores |
| Furwock.InitGivesInv | OF-controller/opensrc/futex/furwock.c:3-10 | The state furwock_init leaves, gate free and wait semaphore taken, satisfies all invariants for any number of threads below 2^30 |
| Furwock.RunKeepsInv | OF-controller/opensrc/futex/furwock.h:24-88 | All invariants hold in every reachable state |
| Furwock.WriterExcludes | OF-controller/opensrc/futex/furwock.h:57-88 | In every reachable state a thread in its write section excludes all other readers and writers |
| Furwock.CounterMeaning | OF-controller/opensrc/futex/furwock.h:15-17 | In every reachable state the counter is the number of readers counted in, minus one exactly while a writer has decremented and not reset it |
| Furwock.OneTokenPerWaitingWriter | OF-controller/opensrc/futex/furwock.h:50-68 | In every reachable state the wait semaphore holds exactly one token, given back or on its way, while a writer waits with no reader left, and none otherwise |
| Furwock.TryNeverSkips | OF-controller/opensrc/futex/furwock.h:36-47 | No reachable state has a read_trydown that reports success without having counted itself in: the guard never skips |
| Furwock.SemaphoresSafe | OF-controller/opensrc/futex/usersem.h:37-75 | In every reachable state of the lock both counts lie between minus the number of threads and 1, no thread takes the direct-pass branch, and no sleeper is stranded on either semaphore |
| Furwock.SomebodyCanStep | OF-controller/opensrc/futex/furwock.h:24-88 | No deadlock and no stranded sleeper: whenever a thread sleeps in either semaphore, another thread is inside an operation or section and can take a step |
| Furwock.CallReturns | OF-controller/opensrc/futex/furwock.h:24-81 | From call to return, for all four ways in and over all runs: a thread that is outside the lock again has been in the section it asked for, unless the call was a trydown and the gate was not free at some moment since the call |
| Furwock.TryNeverSleeps | OF-controller/opensrc/futex/furwock.h:36-81 | From its call until the thread is outside the lock again a trydown never sleeps on the gate, and that of a reader on neither semaphore |
| Furwock.ControlAdvances | OF-controller/opensrc/futex/furwock.h:24-88 | Every step of an operation outside the semaphores brings it nearer to its end: lock and unlock together take at most five |
| GracePeriod.StillAwaited | OF-controller/opensrc/urcu/urcu.c:308-353 | Abstract grace period: a thread that stays inside a section is awaited as long as the period runs |
| GracePeriod.SectionsEnd | OF-controller/opensrc/urcu/urcu.c:308-353 | Abstract grace period, over whole runs: each thread is outside a section at some moment between begin and end |
| ParityRcu.CountArithmetic | OF-controller/opensrc/urcu/urcu/static/urcu.h:204-207 | Nested lock and unlock never carry into the phase bit of the reader's word |
| ParityRcu.StepKeepsInv | OF-controller/opensrc/urcu/urcu.c:222-306 | Every step of readers, of registration and of the two-flip writer keeps the invariant that ties each awaited reader to the pass that will catch it |
| ParityRcu.Refines | OF-controller/opensrc/urcu/urcu.c:222-353 | Every step of the two-flip algorithm is a step of the abstract grace period: it returns only when nobody is awaited |
| ParityRcu.RunRefines | OF-controller/opensrc/urcu/urcu.c:222-353 | Every whole run of the algorithm is a run of the abstract grace period |
| ParityRcu.SectionsEnd | OF-controller/opensrc/urcu/urcu.c:308-353 | For every run, call and thread, nested sections and readers paused between load and store included, the thread is in no section at some moment between call and return of synchronize_rcu |
| ParityRcu.NestIsDepth | OF-controller/opensrc/urcu/urcu/static/urcu.h:254-295 | In every reachable state the nesting level in a reader's word is its completed read locks minus its read unlocks, counted from the actions of the run alone |
| ParityRcu.NoPeriodInSection | OF-controller/opensrc/urcu/urcu.c:308-353 | With sections given by the calls, not by the words: no whole grace period lies between the return of an outermost read lock and its matching unlock |
| ParityRcu.SynchronizeReturns | OF-controller/opensrc/urcu/urcu.c:308-353 | From call to return: when a thread that called synchronize_rcu goes on, every thread has had no section open at some moment since the call |
| ParityRcu.BlockersOnlyLeave | OF-controller/opensrc/urcu/urcu.c:229-262 | During one pass no thread becomes a blocker, and leaving an outermost section stops a thread from blocking for the rest of the pass |
| ParityRcu.PassEnds | OF-controller/opensrc/urcu/urcu.c:229-262 | With no blockers left each step of the writer uses up one of finitely many steps, no other step adds any, and then the pass ends |
| ParityRcu.PeriodAdvances | OF-controller/opensrc/urcu/urcu.c:222-353 | A grace period ends: unless a reader holds up the current pass, each step of the writer, over both flips, uses up one of finitely many steps, and the last releases the lock and lets the caller go on |
| ParityRcu.WriterCanStep | OF-controller/opensrc/urcu/urcu.c:222-353 | Whoever holds rcu_gp_lock always has a step to take |
| ParityRcu.ThreadCanStep | OF-controller/opensrc/urcu/urcu/static/urcu.h:254-295 | A reader can always finish its lock, nest deeper up to the mask and unlock, and a caller of synchronize_rcu takes the lock once it is free |
| ParityRcu.ReadersPartitioned | OF-controller/opensrc/urcu/urcu.c:229-305 | In every reachable state no thread occurs twice on the registry and the quiescent list together |
| ParityRcu.StepKeepsListed | OF-controller/opensrc/urcu/urcu.c:229-305 | Every step but registration leaves each thread listed as often as before, so moving readers and splicing the lists loses nobody |
| ParityRcu.GracePeriodKeepsReaders | OF-controller/opensrc/urcu/urcu.c:229-305 | Over a whole grace period no registered reader is lost, added or repeated: when the lock is released the registry holds exactly the readers it held when the lock was taken, and the quiescent list is empty both times |
| ParityRcu.PausedBetweenFlips | OF-controller/opensrc/urcu/urcu.c:308-353 | A reachable state in which a reader loaded the counter between two flips and stays paused until the grace period is over |
| ParityRcu.OneFlipMissesAReader | OF-controller/opensrc/urcu/urcu.c:330-347 | One flip is not enough: a reachable state in which the first pass has completed around a section that was in progress at the start |
| QsbrRcu.NextWord | OF-controller/opensrc/urcu/urcu-qsbr.c:133-160 | The counter update of either word size yields the next value of the sequence, never 0 and never the value just left |
| QsbrRcu.WordsAlias | OF-controller/opensrc/urcu/urcu/static/urcu-qsbr.h:103-114 | Two counter values are equal exactly when their ages differ by a multiple of the period, 2^63 or 2 |
| QsbrRcu.StepKeepsInv | OF-controller/opensrc/urcu/urcu-qsbr.c:123-296 | Every step of readers, registration and the writer, in both word sizes, keeps the invariant |
| QsbrRcu.SectionsEnd | OF-controller/opensrc/urcu/urcu-qsbr.c:204-296 | For every run, call, thread and both word sizes the thread passes a quiescent or offline point before return, unless its 64-bit counter value has aged a whole period |
| QsbrRcu.InsideIsOnline | OF-controller/opensrc/urcu/urcu/static/urcu-qsbr.h:168-191 | In every reachable state a thread counts as online exactly if, by its calls alone, it has come online or reported a quiescent state last and not gone offline or called synchronize_rcu since |
| QsbrRcu.SynchronizeReturns | OF-controller/opensrc/urcu/urcu-qsbr.c:205-295 | From call to return, both word sizes: when a thread that called synchronize_rcu first goes on, a whole grace period has passed since the call, and it is online again with a value loaded after the lock was released if it was online at the call, and offline if it was not |
| QsbrRcu.NoPeriodInSection | OF-controller/opensrc/urcu/urcu-qsbr.c:205-295 | With sections given by the calls: every thread has been offline or quiescent during the grace period of a call, unless it was aliased when the lock was taken |
| QsbrRcu.BlockersOnlyLeave | OF-controller/opensrc/urcu/urcu-qsbr.c:123-197 | During one pass no thread becomes a blocker, and going offline, calling synchronize_rcu or reporting with the new value stops a thread from blocking |
| QsbrRcu.PeriodAdvances | OF-controller/opensrc/urcu/urcu-qsbr.c:123-296 | A grace period of either version ends: unless a reader holds up the current pass, each step of the writer uses up one of finitely many steps, and the last releases the lock and lets the caller go on |
| QsbrRcu.WriterCanStep | OF-controller/opensrc/urcu/urcu-qsbr.c:123-296 | Whoever holds rcu_gp_lock always has a step to take |
| QsbrRcu.ThreadCanStep | OF-controller/opensrc/urcu/urcu/static/urcu-qsbr.h:168-191 | Every thread can finish the call it is in, coming back online after synchronize_rcu included, except that it has to wait for rcu_gp_lock |
| QsbrRcu.AliasedIffWholePeriod | OF-controller/opensrc/urcu/urcu-qsbr.c:144-158 | A 64-bit reader holds the value the next update will store exactly when it was loaded a multiple of 2^63 increments before that update, so never in a run of fewer increments |
| QsbrRcu.AliasedIsNotWaitedFor | OF-controller/opensrc/urcu/urcu/static/urcu-qsbr.h:107-114 | When the 64-bit counter moves, a reader in its section that holds the new value, and only such a one, does not look ongoing |
| QsbrRcu.MissedIffAliased | OF-controller/opensrc/urcu/urcu-qsbr.c:204-296 | Exactly when safety fails: in any run of either version with a thread about to take the lock, some continuation ends that grace period around a reader that never leaves its section if and only if the reader holds the value the next update of a 64-bit counter will store |
| QsbrRcu.NobodyAwaitedAtTheEnd | OF-controller/opensrc/urcu/urcu-qsbr.c:123-197 | With two flips always, and with 64-bit longs within the first 2^63 increments, nobody is awaited any more when the lock is about to be released |
| QsbrRcu.Refines | OF-controller/opensrc/urcu/urcu-qsbr.c:123-296 | Every step is a step of the abstract grace period, always in the two-flip version and for the first 2^63 increments in the 64-bit one |
| QsbrRcu.PausedForPeriods | OF-controller/opensrc/urcu/urcu-qsbr.c:267-296 | Any number of grace periods can complete while a reader is paused coming online |
| QsbrRcu.WrappedCounterMissesAReader | OF-controller/opensrc/urcu/urcu-qsbr.c:267-296 | A reachable state in which the 64-bit version ends a grace period around an online reader, after 2^63 grace periods |
| CallRcu.ExchangeKeepsQueue | OF-controller/opensrc/urcu/urcu/static/wfqueue.h:51-74 | A producer's exchange of the tail keeps the queue invariant with the link still outstanding |
| CallRcu.LinkKeepsQueue | OF-controller/opensrc/urcu/urcu/static/wfqueue.h:51-74 | A producer's link, however late, keeps the queue invariant and writes only memory that is still there |
| CallRcu.StepKeepsQueue | OF-controller/opensrc/urcu/urcu-call-rcu-impl.h:222-299 | Every step of producers and worker keeps the queue invariant: every node not processed is linked to its successor in exchange order unless the link is outstanding |
| CallRcu.StepKeepsWake | OF-controller/opensrc/urcu/urcu-call-rcu-impl.h:200-218 | Every step keeps the wake-up invariant across both decrements of the futex and the stop test before the emptiness test |
| CallRcu.DeliveredInOrder | OF-controller/opensrc/urcu/urcu-call-rcu-impl.h:247-277 | In every reachable state the callbacks that ran are the first ones in order of tail exchange, each once, never the dummy; the batch is the contiguous run that follows; no node is touched after it was given back |
| CallRcu.QueueIsInMemory | OF-controller/opensrc/urcu/urcu-call-rcu-impl.h:247-259 | In every reachable state the pointers from the front of the queue meet exactly the nodes exchanged since the last detach, in order, up to the first outstanding link; with none outstanding, all of them |
| CallRcu.BatchIsInMemory | OF-controller/opensrc/urcu/urcu-call-rcu-impl.h:247-277 | In every reachable state with a batch the pointers from its first unprocessed node meet exactly the rest of the batch, in order, up to the first outstanding link |
| CallRcu.NoLostWakeup | OF-controller/opensrc/urcu/urcu-call-rcu-impl.h:200-218 | In every reachable state, if the worker sleeps while the queue is not empty or STOP is set, some thread has not finished waking it |
| CallRcu.StoppedMeansFinished | OF-controller/opensrc/urcu/urcu-call-rcu-impl.h:292-299 | Once STOPPED is visible the worker has left for good and everything it spliced has run |
| CallRcu.HistoryIsCalls | OF-controller/opensrc/urcu/urcu/static/wfqueue.h:51-74 | The order of tail exchanges is the sequence of nodes passed to call_rcu after the dummy, and the log is the sequence of callbacks invoked, both taken from the actions of the run |
| CallRcu.RunsWhatWasCalled | OF-controller/opensrc/urcu/urcu-call-rcu-impl.h:247-277 | In every reachable state the callbacks invoked are a prefix of those passed to call_rcu |
| CallRcu.TurnRunsAll | OF-controller/opensrc/urcu/urcu-call-rcu-impl.h:248-278 | The worker does its work: everything passed to call_rcu before its look at the tail has run when it comes to test the stop flag |
| CallRcu.StoppedRanAll | OF-controller/opensrc/urcu/urcu-call-rcu-impl.h:248-299 | When STOPPED is set the worker has looked at the tail, and everything passed to call_rcu before any of its looks has run |
| CallRcu.FreeReturns | OF-controller/opensrc/urcu/urcu-call-rcu-impl.h:647-652 | call_rcu_data_free sets the stop flag and goes on only when the worker has stopped |
| CallRcu.WorkerAdvances | OF-controller/opensrc/urcu/urcu-call-rcu-impl.h:247-299 | While there is work or the stop flag is set, each step of the worker leaves less to detach, less of the batch or fewer steps, or goes to sleep, or waits for a producer's outstanding link |
| CallRcu.IdleWorkerSleeps | OF-controller/opensrc/urcu/urcu-call-rcu-impl.h:200-299 | With an empty queue and no stop flag the worker goes to sleep within finitely many steps, and its own steps keep the futex at 0 or -1 as the next sleep needs it |
| CallRcu.WorkerCanStep | OF-controller/opensrc/urcu/urcu-call-rcu-impl.h:247-299 | The worker can always step unless it sleeps, has exited or waits for a grace period |
| CallRcu.CallbackAfterGracePeriod | OF-controller/opensrc/urcu/urcu-call-rcu-impl.h:256-277 | Over whole runs: a reader that was in a section before the callback's tail exchange has been outside before the callback runs |
| CallRcu.Refines | OF-controller/opensrc/urcu/urcu-call-rcu-impl.h:222-299 | Every step of queue and worker is a step of the abstract reclaimer used by the hash table |
| DeferCodec.RecordRoundTrip | OF-controller/opensrc/urcu/urcu-defer-impl.h:69-75 | One call is stored as one to three words and read back whatever follows, for odd functions and data and the marker in either place |
| DeferCodec.RoundTrip | OF-controller/opensrc/urcu/urcu-defer-impl.h:225-239 | For every sequence of calls, decoding the stored words ends exactly at the last word and yields exactly these calls |
| DeferCodec.StoredDifferently | OF-controller/opensrc/urcu/urcu-defer-impl.h:343-358 | Different sequences of calls are stored as different words |
| DeferCodec.FirstWordTellsTheForm | OF-controller/opensrc/urcu/urcu-defer-impl.h:60-75 | The first word of a record tells its form: no stored function word is the marker, and a data word stored alone is neither, which is why the marker is the complement of the function bit |
| DeferCodec.BoundariesGrow | OF-controller/opensrc/urcu/urcu-defer-impl.h:343-358 | Record boundaries lie within the stored words and grow by at least a word per call |
| DeferCodec.WordsAt | OF-controller/opensrc/urcu/urcu-defer-impl.h:225-236 | At the boundary of a record the three forms read by the drain loop give that record's call and end at the next boundary |
| DeferRing.SlotOfWord | OF-controller/opensrc/urcu/urcu-defer-impl.h:55-56 | Masking a wrapped 64-bit index gives the slot of its position, and incrementing the word follows the position |
| DeferRing.Distance | OF-controller/opensrc/urcu/urcu-defer-impl.h:314-325 | The wrapped difference of two index words is the distance of their positions while that is below 2^64, and the words are equal only for equal positions |
| DeferRing.StoreHolds | OF-controller/opensrc/urcu/urcu-defer-impl.h:348-358 | Storing one word at the end overwrites no word the ring still has to hold |
| DeferRing.LoopTestIsExact | OF-controller/opensrc/urcu/urcu-defer-impl.h:225-241 | Between boundaries the ring holds, the test i != head fails exactly at the goal and the modular distance is the number of words left |
| DeferQueue.Queue.constructor | OF-controller/opensrc/urcu/urcu-defer-impl.h:421-442 | A newly registered queue is empty and valid |
| DeferQueue.Queue.MakeRoom | OF-controller/opensrc/urcu/urcu-defer-impl.h:314-325 | Both assertions of defer_rcu hold; afterwards three words fit, and the queue was emptied exactly when the threshold was reached |
| DeferQueue.Queue.PutCall | OF-controller/opensrc/urcu/urcu-defer-impl.h:343-358 | The in-place stores extend the words the ring holds by exactly the record of the call |
| DeferQueue.Queue.DeferRcu | OF-controller/opensrc/urcu/urcu-defer-impl.h:306-367 | The call joins the stream of calls behind all earlier ones; calls run only if the queue was too full, and then all earlier ones |
| DeferQueue.Queue.RunRecord | OF-controller/opensrc/urcu/urcu-defer-impl.h:226-239 | One turn of the loop over the array reads one record, runs exactly its call and ends at its last word |
| DeferQueue.Queue.Drain | OF-controller/opensrc/urcu/urcu-defer-impl.h:225-239 | The loop terminates exactly at the given head having run exactly the calls before it |
| DeferQueue.Queue.BarrierQueue | OF-controller/opensrc/urcu/urcu-defer-impl.h:213-242 | Runs the calls between tail and the given head, once and in order, and moves the tail there; at the end decoder and encoder agree on the function |
| DeferQueue.Queue.BarrierThread | OF-controller/opensrc/urcu/urcu-defer-impl.h:244-261 | On return everything deferred has run and the queue is empty |
| DeferStore.TestIsExact | OF-controller/opensrc/urcu/urcu-defer-impl.h:314-325 | Shared queue: head minus tail is the number of words in the ring, never above 4096, and zero exactly when all published calls were given up |
| DeferStore.StartKeepsInv | OF-controller/opensrc/urcu/urcu-defer-impl.h:314-358 | Passing the test with a tail that may be stale by the time of the stores still leaves room for any record |
| DeferStore.StoreKeepsInv | OF-controller/opensrc/urcu/urcu-defer-impl.h:348-358 | Each single store of the owner keeps the ring in order, whatever the drainer is doing |
| DeferStore.NeverOverwrites | OF-controller/opensrc/urcu/urcu-defer-impl.h:348-358 | No store of the owner hits the slot of a word the drainer may still load |
| DeferStore.PublishKeepsInv | OF-controller/opensrc/urcu/urcu-defer-impl.h:359-361 | Publishing the head makes exactly the stored record part of the stream |
| DeferStore.LoadsWhatWasStored | OF-controller/opensrc/urcu/urcu-defer-impl.h:227-236 | Every load of the drainer sees the word stored at its position |
| DeferStore.DrainKeepsInv | OF-controller/opensrc/urcu/urcu-defer-impl.h:225-241 | Each load of the drain loop, interleaved with the owner's stores, keeps the invariant and runs at most the next published call; the loop is left exactly when the goal is reached |
| DeferStore.LoopTest | OF-controller/opensrc/urcu/urcu-defer-impl.h:225-241 | Between record boundaries the ring holds, the loop test i != head fails exactly at the goal, although turns move by one, two or three words |
| DeferStore.DrainLoopEnds | OF-controller/opensrc/urcu/urcu-defer-impl.h:225-241 | Every load brings the loop one word closer to its head and it never steps over it |
| DeferStore.FunctionsAgree | OF-controller/opensrc/urcu/urcu-defer-impl.h:100-107 | When all published calls have run, last_fct_out equals last_fct_in and head equals tail |
| DeferPlaces.StepKeepsPlace | OF-controller/opensrc/urcu/urcu-defer-impl.h:421-459 | Every step keeps registration, unregistration and defer_thread_mutex consistent with where each thread is |
| DeferPlaces.StepKeepsLock | OF-controller/opensrc/urcu/urcu-defer-impl.h:301-367 | Every step keeps rcu_defer_mutex held by exactly the thread whose job is in progress |
| DeferPlaces.StepKeepsRun | OF-controller/opensrc/urcu/urcu-defer-impl.h:396-459 | Every step keeps: the defer thread runs exactly while the registry requires it, stop is set only by the thread stopping it, and the futex is 0 when it has exited |
| DeferGoals.StepKeepsQueues | OF-controller/opensrc/urcu/urcu-defer-impl.h:213-367 | Every step of all threads keeps every queue in order for its owner and its drainer, with every snapshotted head on a record boundary |
| DeferGoals.Reaches | OF-controller/opensrc/urcu/urcu-defer-impl.h:244-261 | A thread that drained only its own queue, in a flush or on unregistering, has run everything it ever published |
| DeferWakeup.StepKeepsWake | OF-controller/opensrc/urcu/urcu-defer-impl.h:162-208 | Every step keeps the wake-up invariant between the count of queued calls, the stop flag and the futex |
| DeferDelivery.StepKeepsInv | OF-controller/opensrc/urcu/urcu-defer-impl.h:162-459 | Every step keeps all invariants of the protocol and no assertion of the source fails |
| DeferDelivery.NothingFails | OF-controller/opensrc/urcu/urcu-defer-impl.h:314-325 | In every reachable state no assertion has failed: queue bound, empty after a flush, futex 0 after the join; no freed queue was touched and the thread was not started twice |
| DeferDelivery.RegisteringNeverFails | OF-controller/opensrc/urcu/urcu-defer-impl.h:421-442 | Registration starts the defer thread only when none runs |
| DeferDelivery.UnregisteringNeverFails | OF-controller/opensrc/urcu/urcu-defer-impl.h:403-419 | Joining the defer thread finds the futex at 0 |
| DeferDelivery.DeliveredInOrder | OF-controller/opensrc/urcu/urcu-defer-impl.h:225-242 | In every reachable state the calls of a thread that ran are the first ones it published, each once, in order, and all of them once it has unregistered |
| DeferDelivery.RunGrows | OF-controller/opensrc/urcu/urcu-defer-impl.h:213-367 | Along any run a queue only gains calls at its end and never takes back a call that ran |
| DeferDelivery.BarrierCompletes | OF-controller/opensrc/urcu/urcu-defer-impl.h:244-301 | Every call a thread published before the holder of rcu_defer_mutex loads that thread's head, for a barrier over all queues as for one over the caller's own, has run when the mutex is released |
| DeferDelivery.BarrierBegins | OF-controller/opensrc/urcu/urcu-defer-impl.h:276-301 | Taking the mutex for rcu_defer_barrier leaves the heads of all registered threads still to load, for a barrier over the own queue the caller's |
| DeferDelivery.CallAfterGracePeriod | OF-controller/opensrc/urcu/urcu-defer-impl.h:281-287 | Over whole runs: a reader that was in a section before a call was published has been outside before the call runs, whoever drains it |
| DeferDelivery.NoLostWakeup | OF-controller/opensrc/urcu/urcu-defer-impl.h:162-208 | In every reachable state, if the defer thread sleeps while a registered queue holds calls that have not run or stop is set, some thread has not finished waking it |
| DeferCalls.CallsAreDeferred | OF-controller/opensrc/urcu/urcu-defer-impl.h:306-367 | In every reachable state the calls published by a thread, followed by the one its defer_rcu has in hand, are exactly those it has passed to defer_rcu, by the actions of the run |
| DeferCalls.DeferReturns | OF-controller/opensrc/urcu/urcu-defer-impl.h:306-367 | When a thread is outside defer_rcu everything it has passed to it is in its queue, and what has run is a prefix of that |
| DeferCalls.BarrierReturns | OF-controller/opensrc/urcu/urcu-defer-impl.h:244-301 | From call to return: when a caller of rcu_defer_barrier is back where it called from, every call published before that by any thread then registered has run, also if that thread has unregistered since; likewise for rcu_defer_barrier_thread and its caller's calls |
| DeferCalls.UnregisterReturns | OF-controller/opensrc/urcu/urcu-defer-impl.h:443-459 | From call to return: a thread that unregisters goes on only when it is out of the registry and everything it ever passed to defer_rcu has run |
| DeferCalls.RegisterReturns | OF-controller/opensrc/urcu/urcu-defer-impl.h:421-441 | From call to return: a thread that registers goes on only with a queue and in the registry |
| DeferCalls.TurnRunsAll | OF-controller/opensrc/urcu/urcu-defer-impl.h:369-384 | The defer thread does its work: once it has found the registry not empty, it is back at the start of its loop only when every call the registered threads had published then has run |
| DeferCalls.WorkerAdvances | OF-controller/opensrc/urcu/urcu-defer-impl.h:162-208 | While a thread is registered or stop is set, each step of the defer thread brings it nearer to a barrier or to its exit, or to sleep |
| DeferCalls.WorkerKeepsCalm | OF-controller/opensrc/urcu/urcu-defer-impl.h:187-208 | The steps of the defer thread keep its futex at 0 or -1 as the next sleep needs it, setting it back to 0 when work was found, and it sleeps when it finds the futex at -1 |
| DeferCalls.JobAdvances | OF-controller/opensrc/urcu/urcu-defer-impl.h:213-301 | Each step under rcu_defer_mutex leaves less to do, by phase, queue and word, or unlocks it |
| DeferCalls.JobCanStep | OF-controller/opensrc/urcu/urcu-defer-impl.h:213-301 | Whoever holds rcu_defer_mutex can step, but for waiting on a grace period |
| DeferCalls.ThreadAdvances | OF-controller/opensrc/urcu/urcu-defer-impl.h:306-459 | Each step of a thread inside a function, but for waiting on others, brings it nearer to the function's end |
| DeferCalls.UnlockAdvances | OF-controller/opensrc/urcu/urcu-defer-impl.h:244-301 | Unlocking rcu_defer_mutex brings its holder nearer to the end of the function it is in, too |
| DeferCalls.ThreadCanStep | OF-controller/opensrc/urcu/urcu-defer-impl.h:306-459 | A thread inside a function can step unless it waits for the mutex, holds it, or waits for the defer thread to exit |
| BucketList.AppendLists | OF-controller/src/utils/mchash.c:112-131 | Inserting behind the head's back pointer, NULL or not, makes the bucket list the old nodes and the new one last, forwards and backwards |
| BucketList.UnlinkLists | OF-controller/src/include/mchash.h:437-447 | The unlinking stores leave exactly the other nodes in order, whichever of the two forms the back pointers have |
| BucketList.UnlinkKeepsNext | OF-controller/src/include/mchash.h:437-447 | An unlinked node keeps its next pointer |
| BucketList.OtherBucket | OF-controller/src/include/mchash.h:437-447 | Stores to one bucket leave other buckets alone |
| BucketList.ForwardWalk | OF-controller/src/include/mchash.h:496-500 | The forward chain is acyclic and NULL-terminated: walking it however far meets exactly the bucket's list |
| HashScan.UnlinkKeepsTable | OF-controller/src/include/mchash.h:433-447 | A delete keeps bucket, memory and history in order while deleted nodes stay readable |
| HashScan.AppendInMemory | OF-controller/src/utils/mchash.c:112-131 | An append touches only nodes that are still memory: the head and the node it points back to |
| HashScan.UnlinkInMemory | OF-controller/src/include/mchash.h:433-447 | A delete touches only nodes that are still memory: the node and both its neighbours |
| HashScan.UnlinkKeepsLead | OF-controller/src/include/mchash.h:433-464 | A delete keeps every deleted node leading on to a node appended and deleted later, skipping none that was there when it was deleted |
| HashScan.AdvancesInChain | OF-controller/src/include/mchash.h:496-500 | A scan step along the bucket keeps what the scan promises: no node that has been there since it began is left behind or met twice |
| HashScan.StepKeepsInv | OF-controller/src/include/mchash.h:291-328 | Every step of writers, readers, reclaimer and grace periods keeps the end-to-end invariant |
| HashScan.NeverTouchesFreed | OF-controller/src/include/mchash.h:496-500 | In every reachable state no reader has touched a freed node, and every scan stands on a node that is in memory |
| HashScan.ScanIsExact | OF-controller/src/include/mchash.h:496-500 | A complete scan inside a read-side section, interleaved with any appends, deletes and frees, visits every node that stays in the bucket, none twice, and only nodes that were in the bucket at some moment of the scan |
| HashScan.BucketIsHistory | OF-controller/src/include/mchash.h:291-469 | In every reachable state the bucket holds, in order, what the appends and deletes of the run have left in it |
| HashScan.ScanReturns | OF-controller/src/include/mchash.h:496-500 | A scan from its start to its end, in terms of the actions alone: the nodes visited include every node in the bucket throughout, none twice, and only nodes in the bucket at some moment |
| HashScan.InsideIsEntered | OF-controller/src/include/mchash.h:496-500 | A thread counts as inside a read-side section exactly if it has entered one last and not left it, by the actions of the run |
| HashScan.ScanAdvances | OF-controller/src/include/mchash.h:496-500 | Each step of a scan brings it nearer to its end, which only appends and deletes can move away |
| HashScan.ScanCanStep | OF-controller/src/include/mchash.h:496-500 | A scan in progress can always go on |
| HashScan.HandedAreFreed | OF-controller/src/include/mchash.h:464 | Deleted nodes are freed once each, in the order in which they were handed to call_rcu; those not freed yet are in the worker's batch or queued |
| HashScan.FreedAfterGracePeriod | OF-controller/src/include/mchash.h:464 | Between any moment a node is in its bucket and its being freed every thread has been outside a read-side section |
| HashScan.DeletedKeepsNext | OF-controller/src/include/mchash.h:433-464 | Over any stretch of a run in which a deleted node is not freed, it keeps its next pointer, through all appends, deletes and frees of other nodes |
| SlotQueue.PopQueues | OF-controller/src/include/mchash.h:306-312 | Taking the first free entry leaves the rest of the free queue in order |
| SlotQueue.PushQueues | OF-controller/src/include/mchash.h:449-461 | Putting an entry back makes it the last of the free queue, empty or not |
| McHash.NextMagicOf | OF-controller/src/include/mchash.h:313-315 | The magic counter, wrapping at 2^32 and skipping 0, gives append number a the number 1 + a mod (2^32 - 1) |
| McHash.MagicsRepeat | OF-controller/src/include/mchash.h:313-315 | Two appends use the same magic number exactly when their distance is a multiple of 2^32 - 1 |
| McHash.FilledOk | OF-controller/src/include/mchash.h:304-321 | An append keeps every slot either in the free queue with magic 0 or holding a node of a bucket |
| McHash.EmptiedOk | OF-controller/src/include/mchash.h:429-432 | A delete keeps the same |
| McHash.FilledLists | OF-controller/src/include/mchash.h:322-324 | After an append every bucket lists exactly its nodes |
| McHash.EmptiedLists | OF-controller/src/include/mchash.h:433-447 | After a delete every bucket lists exactly its nodes |
| McHash.RefMatches | OF-controller/src/include/mchash.h:340-349 | A reference matches a slot exactly when the slot is taken by an append a multiple of 2^32 - 1 away from the one that made it |
| McHash.SafeReference | OF-controller/src/include/mchash.h:340-349 | In any run of appends and deletes a returned reference yields its node while it is live, and matches after deletion only a non-zero multiple of 2^32 - 1 appends later |
| McHash.ReferenceMatchesAgain | OF-controller/src/include/mchash.h:304-349 | The bound is met: some run of a table of one slot reaches a state in which the reference to a deleted node matches again, 2^32 - 1 appends later, and yields another node |
| McHash.AppendKeepsOrder | OF-controller/src/include/mchash.h:291-328 | An append keeps every bucket in append order |
| McHash.DeleteKeepsOrder | OF-controller/src/include/mchash.h:417-469 | A delete keeps every bucket in append order |
| McHash.RunKeepsOrder | OF-controller/src/include/mchash.h:291-469 | After any run of appends and deletes of a new table every slot is consistent and every bucket is in append order |
| McHash.Table.constructor | OF-controller/src/utils/mchash.c:6-85 | The created table is valid and empty with all slots free in array order |
| McHash.Table.InitEntries | OF-controller/src/utils/mchash.c:44-64 | The loop threads all entries into one free queue with magic 0 and no node |
| McHash.Table.InitBuckets | OF-controller/src/utils/mchash.c:67-81 | The loops make every bucket empty, with count 0 and zero prefetch entries |
| McHash.Table.UpdatePrefetch | OF-controller/src/include/mchash.h:201-219 | The prefetch array becomes the first ten nodes of the bucket padded with zeros; other buckets' are unchanged |
| McHash.Table.InsertNode | OF-controller/src/utils/mchash.c:112-131 | The pointer stores, the prefetch update and the counter increment of the insertion, in place |
| McHash.Table.UnlinkNode | OF-controller/src/include/mchash.h:433-447 | The unlinking stores, the counter decrement and the prefetch update, in place |
| McHash.Table.TakeEntry | OF-controller/src/include/mchash.h:304-312 | Returns the entry that has been free longest and leaves the rest queued |
| McHash.Table.ReturnEntry | OF-controller/src/include/mchash.h:451-461 | Queues the entry last |
| McHash.Table.AppendNode | OF-controller/src/include/mchash.h:291-328 | Succeeds exactly when some slot holds no node; then the table is the old one with the node at the end of its bucket in the slot free longest under a fresh magic number, memory changes only by the insertion, and the table stays valid; otherwise nothing changes |
| McHash.Table.DeleteNode | OF-controller/src/include/mchash.h:417-469 | Succeeds exactly when the node is in the table; then it is gone from its bucket and slot, the slot is queued last, memory changes only by the unlinking, and the table stays valid; otherwise nothing changes |
| McHash.Table.DeleteByRef | OF-controller/src/include/mchash.h:363-415 | Deletes the node of the slot as above exactly when the slot's magic number matches and is not 0; a match of 0 with a free slot ends in following that slot's NULL pointer; otherwise nothing changes |
| McHash.Table.AccessNode | OF-controller/src/include/mchash.h:340-349 | Succeeds exactly when the magic numbers match, and yields the slot's node, which is in the table for every reference but 0, and NULL for 0 |
| McHash.Table.BucketNodeCount | OF-controller/src/include/mchash.h:275-286 | Returns the bucket's size plus the number of appends it has seen, modulo 2^32 |
| McHash.Table.TableDelete | OF-controller/src/utils/mchash.c:87-99 | Agrees to delete the table exactly when no bucket holds a node |
| McHash.CountIsRightIff | OF-controller/src/include/mchash.h:324-326 | The counter equals the number of nodes exactly when the bucket has seen a multiple of 2^32 appends |
| McHash.CountsTwo | OF-controller/src/include/mchash.h:322-326 | After one append to a new table the counter of its bucket says 2 |

## Left out

- Weak memory: the barriers are modelled as sequential consistency, and the signal, membarrier and incoherent-cache variants are not modelled.
- `futex_up_fair`, timeouts, `futex_await` and `futex_region` (`usersem.h:78-102`): the text of the fair release drops its wake call, and the others only wrap a system call. `ppc.h`, which reads the counter twice, and `pspsem.h`, which repeats the semaphore, are not modelled either.
- The semaphore, the lock, the grace periods and the queues shared by threads are state machines on values, not classes: their steps interleave, and a method could only say what one thread does alone. `DeferQueue.Queue` and `McHash.Table` have the form of the source.
- Waiting of `synchronize_rcu` on `gp_futex` and its timing: the writer scans the registry again and again, one reader a step, which is what every variant of the waiting loop does. Readers registering do so under the grace-period lock, as in the source.
- Who wins a lock and when a runnable thread runs: progress is stated as measures and as absence of stranded sleepers, not as fairness.
- `urcu-bp.c`: its grace period repeats that of `urcu.c`, and its arena resize does not record the new length (`urcu-bp.c:276-298`).
- Migration of leftover callbacks in `call_rcu_data_free` (`urcu-call-rcu-impl.h:653-667`): it exchanges the pointer to the default queue instead of that queue's tail, so callbacks are not conserved there. Only the STOP/STOPPED handshake is modelled.
- Real-time workers that never sleep, per-CPU tables, CPU affinity, fork handling and the queue-length counter of `call_rcu`.
- QsbrRcu.Refines: states the refinement of the 64-bit version for the first 2^63 increments, because it fails after that; `QsbrRcu.SectionsEnd` covers every run, reader by reader.
- A second registration of the same thread for deferral: `last_head` is never reset, so the assertion at `urcu-defer-impl.h:425` refuses it. `last_head` itself is the goal kept by the job that loads it.
- The sums of queued words in `rcu_defer_barrier` and `rcu_defer_num_callbacks` are unbounded; in the source they wrap only with 2^52 full queues.
- Allocation failure and the error exits of mutexes.
- HashScan.ScanIsExact: covers one bucket; buckets share no nodes (`McHash.Table.AppendNode` keeps the table valid), and a scan of the table is one scan a bucket.
- Links of heads and nodes are memory indexed by address in `McHash.Table`, since the macros reach them through casts; aliasing between a node's links in two tables is not modelled.
- Interleavings inside one table macro: each macro is atomic in `McHash.Table`, where it holds the lock of what it changes. `HashScan` interleaves readers with writers; slots and free queue do not take part in it.
- `MCHASH_INSERT_NODE_AFTER` and `MCHASH_INSERT_NODE_BEFORE`: they do not keep append order and do not count like an append.
- Racing deletions of the same reference: `MCHASH_DELETE_NODE_BY_REF` reads the node of its slot before it takes the lock of the bucket.
- Passive nodes of the table, logging and cache alignment.
- Thin wrappers (`wfqueue.c`, `wfstack.c`, `rculfqueue.c`, `rculfstack.c`, `urcu-pointer.c`), the compatibility futex and the interface headers: they add no behaviour to these layers.
