# pithread, verified

pithread is a small bare-metal kernel with cooperative threads.  This project models its core in Dafny and proves
what it is for:

- **Threads and semaphores** (`Sched*.dfy`, `Kernel.dfy`): `thread.c` as a step machine on values (`Sched`), one inductive
  invariant over all its steps (`SchedInv`), theorems about whole runs (`SchedRuns`), what each operation does to lists, threads and
  semaphores (`SchedOps`), and the same operations as methods of a class with the C program's globals as fields, each proved to be
  its step (`Kernel.Kernel`).
- **Channels** (`Channel*.dfy`, `Rendezvous.dfy`, `Channels.dfy`): `chan_send` and `chan_recv` cut where `sem_down` may switch threads.
  With one sender at a time a channel refines a synchronous rendezvous.  In general a return is faithful exactly when it is not
  `Premature`; a concrete run with two senders shows that this happens.
- **Locks and condition variables** (`Monitor*.dfy`, `Locks.dfy`): mutual exclusion and Mesa-style signalling.
- **The prime sieve** (`Primes.dfy`, `Sieve*.dfy`): the self-extending pipeline of `sieve_test.c` over rendezvous channels, for every number of primes
  per process and every limit: in each interleaving it never gets stuck, ends, and records exactly the primes.
- **`sieve_test` on the kernel** (`SieveThreads.dfy`, `SieveMoves.dfy`, `SieveCalls.dfy`, `SieveTalks.dfy`, `SieveSleep.dfy`, `SieveTest.dfy`,
  `SieveSpawn.dfy`, `SieveTestRuns.dfy`): the whole program over the modelled scheduler, semaphores and channels, a thread for each process
  and a channel for each slot.  Every step refines a step of the network or costs the kernel something; there is no deadlock, no premature
  return and no use of a freed thread, and `thread_join(NULL)` returns to the primes.
- **The parallel quicksort** (`Workers.dfy`, `SortSpec.dfy`, `Sort.dfy`): `sort_test.c` in place on an array, running on the verified
  `Kernel` object, for every range and cutoff.
- **The allocator** (`Bitmap.dfy`, `Palloc.dfy`, `Blocks.dfy`, `Heap*.dfy`, `Malloc.dfy`): a bitmap of 32-bit words, a first-fit page allocator
  on it, and `malloc`, `calloc`, `realloc` and `free` on that, each layer a class proved against a function of the old state.
- **Formatting** (`Format*.dfy`, `Parse.dfy`): `format_integer` with its 64-byte buffer, and `parse_conversion`.  What is printed is
  determined part by part: width, sign, `#`, grouping, precision, digits (`FormatParts`).

A blocking call ends where it calls `run`; what its thread does when it is switched back in is a step, and a method, of its own.
Bytes of list links and arena headers are not given values: an argument `noise` says what they become.

Where the code and its comments differ, the model follows the code:

- `sem_up` wakes the thread that has waited longest, not one of highest priority (`thread.c:308-325`).
- `bitmap_scan_and_flip` with a count of zero answers START, not 0 (`lib/bitmap.c:288-303`; `Bitmap.NoBitsAreFoundAtStart`).
- In `format_integer` the commas of the `'` flag count toward the precision, which section 7.21.6.1 of ISO C11 makes a number of
  digits, a precision above 63 is never met, and the zeros that fill it up carry no commas (`lib/stdio.c:281-303`;
  `FormatLaws.PrecisionIsMetIff`, `FormatLaws.NumberIsGroupedIff`).
- `malloc` promises a block of at least the size asked for, or none.  The page count of the largest requests wraps around: a request
  above 2^32 - 12 bytes gets a single page (`lib/malloc.c:111`; `HeapRuns.MallocPromiseIff`, `HeapRuns.WrapsToOnePage`).  The overflow test
  of `calloc` misses some products, which then get a block that is too small (`lib/malloc.c:167-172`; `HeapRuns.CallocPromiseIff`), and
  `realloc` to such a size copies past its page when the old block is larger (`lib/malloc.c:213-215`; `HeapRealloc.CopyFitsIff`).
- The comments of `lib/palloc.c` speak of a user pool and a kernel pool; there is one pool.

## Model

| member | source | states |
|---|---|---|
| SchedInv.StepKeepsInv | thread.c:40-325 | every operation keeps the scheduler invariant: lists without duplicates, `in_list` right, calls and places in agreement, counters right, no wake-up lost, tokens conserved |
| SchedRuns.EveryStateSatisfiesInv | thread.c:40-325 | so it holds in every state of every run |
| SchedRuns.EveryThreadHasOnePlace | thread.c:40-67 | a live thread is the running one and on no list, or on exactly one list, once, and that is not the free list |
| SchedRuns.ThreadsAreCounted | thread.c:158-194 | `num_thrs` is the number of live threads, which is one plus the ready plus the blocked ones |
| SchedRuns.OnlyTheExitedAreFreed | thread.c:69-78 | the free list has at most one element, an exited thread that is neither the root nor the running one |
| SchedRuns.NoLostWakeup | thread.c:264-325 | with waiters on a semaphore, its value is at most the number of threads it has woken that have not yet tested it again |
| SchedRuns.TokensAreConserved | thread.c:254-325 | value plus completed downs equals initial value plus ups |
| SchedRuns.JoinAllMeansAlone | thread.c:223-231 | `thread_join(NULL)` goes on only when the caller is the only live thread |
| SchedRuns.AllJoinerIsNotStranded | thread.c:182-194 | while a thread waits for all others, another one is alive to wake it |
| SchedInv.NobodyElseIsReady | thread.c:182-186 | the assertion in `thread_exit` holds: when two are left and one waits for all, none is ready |
| SchedRuns.JoinersAreNotStranded | thread.c:205-222 | a joiner of a live thread is on its join list; past that list it is ready or running and holds the exit code |
| SchedRuns.ExitReadiesJoinersInOrder | thread.c:163-195 | an exit readies all joiners in the order they came, with the code, then the one that waits for all, and runs the first ready thread |
| SchedRuns.JoinReturnsTheExitCode | thread.c:205-222 | over a whole run, a join that returns gives the code its thread exited with |
| SchedRuns.ExitCodesStayInRuns | thread.c:163-180 | an exit code, once set, never changes |
| SchedRuns.RoundRobin | thread.c:40-67 | the thread at index k of the ready list runs right after the (k+1)-th later call of `run`, whatever the others do |
| SchedOps.JoinWaits | thread.c:205-222 | `thread_join` of a live thread puts the caller last on its join list and runs the first ready thread, or is a deadlock without one; of an exited thread it changes nothing |
| SchedOps.JoinAllWaits | thread.c:223-231 | `thread_join(NULL)` waits on the global list exactly while another thread is alive |
| SchedOps.ResumeGoesOn | thread.c:214-231 | a thread that is back from its wait in a join is in no call any more; nothing else changes |
| SchedOps.PauseQueues | thread.c:236-243 | the caller goes behind the ready threads and the first of them all runs, the caller itself if it is alone |
| SchedOps.NewQueues | thread.c:100-161 | the exited thread is freed; with memory a new thread with the arguments is last on the ready list, without it nothing else happens |
| SchedOps.ExitEnds | thread.c:182-194 | an exit halts the machine exactly when the caller is the last live thread, and then the count is 0; it goes on exactly with a ready thread, a joiner of the caller, or the one that waits for all when two are left; else it is a deadlock |
| SchedOps.ExitBuriesTheCaller | thread.c:163-181 | exactly the caller dies; the previously exited thread is freed and the caller takes its place on the free list unless it is the root |
| SchedOps.InitSets | thread.c:254-260 | only the value of the semaphore changes |
| SchedOps.DownTakesOrWaits | thread.c:264-279 | takes one token, or without one waits last on the list of the semaphore while the first ready thread runs |
| SchedOps.TryDownNeverWaits | thread.c:286-306 | takes one token, or changes nothing |
| SchedOps.UpReadiesTheFirst | thread.c:310-325 | one more token, and the first waiter goes from the list of the semaphore to the end of the ready list |
| SchedEffects.StepEffect | thread.c:40-325 | no operation changes the blocking call of another live thread or the value of a semaphore it does not name |
| SchedEffects.StepLeavesSleepers | thread.c:264-325 | a thread asleep on a semaphore stays asleep unless that semaphore is upped |
| Kernel.Kernel.constructor | thread.c:80-98 | the initial state, which satisfies the invariant |
| Kernel.Kernel.Get | thread.c:40-49 | pops the head of a list whose `in_list` assertion holds |
| Kernel.Kernel.Put | thread.c:51-59 | appends a thread that is on no list |
| Kernel.Kernel.Run | thread.c:61-67 | the first ready thread becomes the running one |
| Kernel.Kernel.Release | thread.c:69-78 | the loop frees exactly the threads of the free list |
| Kernel.Kernel.ThreadNew | thread.c:100-161 | a fresh thread with its own copy of the arguments at the end of the ready list, or nothing but the freed threads without memory |
| Kernel.Kernel.ThreadExit | thread.c:163-195 | one exit step, through the loop that readies the joiners; the machine halts exactly when the caller was the last live thread, and goes on exactly when somebody is ready or is woken |
| Kernel.Kernel.WakesJoiners | thread.c:176-181 | the loop moves all joiners to the ready list in order and gives each the code |
| Kernel.Kernel.ThreadJoin | thread.c:205-222 | waits last on the join list of a live thread while the first ready thread runs; answers -1 at once for an exited one and changes nothing |
| Kernel.Kernel.ThreadJoinAll | thread.c:223-232 | returns at once, and changes nothing, exactly when the caller is the only live thread; else it waits for all |
| Kernel.Kernel.JoinReturns | thread.c:214-231 | after `run`, the exit code of the thread, or 0 with nobody else alive |
| Kernel.Kernel.ThreadPause | thread.c:236-243 | the caller goes to the end of the ready list and the first of that list runs |
| Kernel.Kernel.SemInit | thread.c:254-260 | sets the value of a semaphore nobody waits on |
| Kernel.Kernel.SemDown | thread.c:264-279 | one round of the loop: takes a token or goes to sleep |
| Kernel.Kernel.SemTryDown | thread.c:286-306 | takes a token if there is one, and says so |
| Kernel.Kernel.SemUp | thread.c:310-325 | adds a token and readies the first waiter |
| ChannelRuns.MoveKeepsInv | thread.c:483-534 | every segment of a channel call, and every other step, keeps the channel invariant unless it is a premature return |
| ChannelRuns.CallsCanGoOn | thread.c:497-534 | a thread switched back into a channel call can always go on with it |
| ChannelRuns.ReturnIsFaithfulIff | thread.c:497-508 | a send that finds a token returns after its message was copied and with the copied length if and only if it is not premature |
| ChannelRuns.OneSenderIsNeverPremature | thread.c:497-534 | with at most one thread in `chan_send` per channel no return is premature |
| ChannelRuns.RendezvousUpToPrematureReturns | thread.c:497-534 | in every run without a premature return, the i-th receive copies the first bytes of the i-th send, as many as fit, and every returned send reports the copied length |
| ChannelRuns.SingleSenderRendezvous | thread.c:497-534 | with one sender at a time, in every interleaving, moreover the i-th return belongs to the i-th send |
| ChannelRuns.MoveRefinesRendezvous | thread.c:497-534 | every move is one event of the rendezvous, offer, take or acknowledge, with the bytes and length it prescribes, or none |
| ChannelOps.InitMakesAChannel | thread.c:483-492 | an empty channel with semaphores 1, 0 and 0; no thread is touched |
| ChannelOps.CallSendPostsOrWaits | thread.c:497-505 | with the token of `send` the message is posted, with its length in the caller's own variable, and the first waiting receiver readied; without it the caller waits and the channel is as it was |
| ChannelOps.CallRecvReceivesOrWaits | thread.c:513-534 | with a message its first bytes are received, as many as fit, their number goes to the variable of the sender, and first a thread waiting for `sync`, then one waiting to send is readied; without a message the caller waits |
| ChannelOps.GoOnTestsAgain | thread.c:497-534 | a thread switched back into a channel call does the same once more for the wait it was in; with a token of `sync` the send returns the number in its variable |
| ChannelOverlap.OverlappingSendersFail | thread.c:502-507 | a run with two senders in which one returns although its message was never copied |
| Channels.ChannelKernel.ChanInit | thread.c:483-492 | three semaphores and an empty channel |
| Channels.ChannelKernel.Post | thread.c:497-505 | `chan_send` on the kernel object up to its second wait is the model's move |
| Channels.ChannelKernel.AwaitReceiver | thread.c:506-508 | the rest of it, with the result from the caller's own `size` variable |
| Channels.ChannelKernel.Receive | thread.c:513-534 | `chan_recv` on the kernel object is the model's move; what it copied is logged |
| MonitorRuns.MoveKeepsInv | thread.c:352-479 | every segment of a lock or condition call, and every other step, keeps the monitor invariant |
| MonitorRuns.MutualExclusion | thread.c:352-407 | in every run a lock's semaphore is 0 or 1, its holder is null exactly at 1, and at most the holder is between acquire and release |
| MonitorRuns.CallsReturnHolding | thread.c:363-447 | `lock_acquire` and `cond_wait` return with the caller as the holder |
| MonitorRuns.CallsCanGoOn | thread.c:363-447 | a thread switched back into a call can always go on with it |
| MonitorRuns.WaitersSleepAndSignalledRun | thread.c:434-465 | a thread on a condition's list sleeps in `cond_wait` with its semaphore at 0; a signalled one is off the list and awake |
| MonitorRuns.HoldersMaySignal | thread.c:452-479 | whoever holds the lock may signal and broadcast: the semaphores of all waiters are initialised |
| MonitorRuns.FirstComeFirstServed | thread.c:434-479 | in every run, those whom signals and broadcasts made ready, followed by those who still wait, are those who came to wait, in order |
| MonitorRuns.SignalServesTheNext | thread.c:452-465 | after i threads were served, the next signal makes ready the waiter that came as number i, whatever happened between, and nobody when all were served |
| MonitorRuns.SignalsRelease | thread.c:452-465 | k signals in a row release exactly the first min(k, n) of n waiters, in order |
| MonitorRuns.BroadcastReleasesAll | thread.c:469-479 | broadcast releases all waiters, in order |
| MonitorRuns.BroadcastIsAllSignals | thread.c:469-479 | broadcast is as many signals as there are waiters |
| MonitorOps.InitMakesAFreeLock | thread.c:352-358 | no holder, semaphore 1, nothing else changes |
| MonitorOps.InitMakesACondition | thread.c:412-417 | no waiters, nothing else changes |
| MonitorOps.AcquireOwnsOrWaits | thread.c:363-375 | a free lock becomes the caller's at once; for one that is held the caller waits last on the list of its semaphore |
| MonitorOps.TryAcquireOwnsOrNot | thread.c:379-393 | a free lock becomes the caller's; for one that is held nothing changes |
| MonitorOps.ReleaseFrees | thread.c:396-407 | the lock is free and the thread that waited longest for it last on the ready list |
| MonitorOps.WaitGivesUpTheLock | thread.c:434-446 | the caller is last on the list of the condition and asleep on a semaphore of its own, the lock is free, its longest waiter ready, and the first ready thread runs |
| MonitorOps.GoOnTestsAgain | thread.c:363-447 | a waiter that runs again has been signalled and goes on to the lock; a thread waiting for a lock tests it again |
| Locks.LockKernel.LockInit | thread.c:352-358 | a free lock |
| Locks.LockKernel.CondInit | thread.c:412-417 | a condition without waiters |
| Locks.LockKernel.Acquires | thread.c:363-375 | the test of the lock's semaphore and the setting of its holder are the model's move; with the token the caller is the holder |
| Locks.LockKernel.LockTryAcquire | thread.c:379-393 | succeeds exactly when the semaphore has a token |
| Locks.LockKernel.LockRelease | thread.c:396-407 | clears the holder, then ups the semaphore |
| Locks.LockKernel.CondWait | thread.c:434-446 | `cond_wait` up to its wait: private semaphore, list, release, sleep |
| Locks.LockKernel.WokenInWait | thread.c:446-447 | its wait is over exactly when the private semaphore has a token |
| Locks.LockKernel.CondSignal | thread.c:452-465 | ups the private semaphore of the first waiter |
| Locks.LockKernel.CondBroadcast | thread.c:469-479 | the loop of signals empties the list and readies all waiters in order |
| SieveSteps.StepKeepsInv | sieve_test.c:35-99 | every step of every process keeps the network invariant |
| SieveRuns.SomebodyCanGo | sieve_test.c:35-99 | until all processes have finished, one of them can go |
| SieveRuns.MeasureDrops | sieve_test.c:35-99 | every step lowers a nonnegative measure |
| SieveRuns.EveryRunEnds | sieve_test.c:35-109 | no schedule is longer than a bound that depends on the parameters only |
| SieveRuns.SieveIsCorrect | sieve_test.c:35-109 | in every schedule, when nobody can go, all have finished, all channels are empty, and `actual` holds exactly the primes up to LAST in ascending order |
| SieveRuns.PartialResult | sieve_test.c:80-84 | at every moment `actual` is an initial part of the primes and fits its array |
| SieveRuns.LevelsReceiveSurvivors | sieve_test.c:47-99 | sink k receives exactly the source numbers that none of the first (k-1)N primes divides, and as a filter holds the next N |
| SieveRuns.ChannelsOutliveTheirUsers | sieve_test.c:87-93 | a process that ended, and the channel on its stack, outlived the process at the other end |
| SieveRuns.NobodyRunsAway | sieve_test.c:35-64 | how far a process is ahead is limited by numbers that no process can stop |
| SieveInv.SinkKeeps | sieve_test.c:74-96 | a number that reaches the last sink is recorded exactly if it is the next prime up to LAST |
| SieveInv.UniversalSurvives | sieve_test.c:47-64 | above every bound there is a source number that no recorded prime divides |
| Primes.PrimesAreThese | sieve_test.c:10-33 | the specification: exactly the primes up to the limit |
| Primes.PrimesAscend | sieve_test.c:10-33 | in ascending order |
| SieveNet.FirstDivisor | sieve_test.c:54-55 | the inner loop stops at the first divisor, or at the terminating zero if there is none |
| SieveNet.Network.Step | sieve_test.c:35-99 | one step of a process in place is the model's step |
| SieveNet.Network.RunToEnd | sieve_test.c:101-109 | any order of steps ends with the primes in the array |
| SieveTestRuns.EveryMachineIsSound | sieve_test.c:35-109 | in every run of `sieve_test` on the kernel every state is sound and live, no return is premature, and every step is one of the network or puts a thread to sleep or ends it |
| SieveTestRuns.SomeStep | sieve_test.c:35-109 | until the root is back the running thread has a next step, and it is sound |
| SieveTestRuns.SieveTestIsCorrect | sieve_test.c:101-108 | a run that cannot go on has the root back in `thread_join(NULL)` as the only thread, all channels empty, and `actual` exactly the primes up to LAST |
| SieveTestRuns.SieveTestEnds | sieve_test.c:101-108 | there is such a run |
| SieveTestRuns.EveryTestEnds | sieve_test.c:101-108 | and every run ends: all are bounded by its length |
| SieveSleep.SomebodyIsReady | thread.c:61-67 | when no thread is ready and the running process cannot go, all processes have finished: the ready list is never empty when `run` is called |
| SieveTalks.ReturnNet | thread.c:497-534 | a channel call that returns is the network's step of that process, with the data and length it prescribes |
| SieveTest.BlockSteps | thread.c:497-534 | one that blocks leaves the network as it was |
| SieveCalls.DeadChild | sieve_test.c:91-93 | a process that joins finds its child dead and its handle not freed |
| SieveTest.LastToGo | sieve_test.c:87-99 | threads end in order: a live process whose child is gone is the parent of the one that ended last |
| SieveTest.ExitWakes | thread.c:163-195 | an exit finds a ready thread, or it is the last one and wakes the root |
| SieveSpawn.SpawnSteps | sieve_test.c:87-91 | a full sink makes an unused channel and a new thread, which is the network's spawning step |
| Workers.CrewNew | thread.c:100-161 | `thread_new` puts one more job at the end of the queue |
| Workers.CrewJoinAll | thread.c:223-232 | `thread_join(NULL)` returns at once without jobs, else starts the first |
| Workers.CrewExit | thread.c:163-195 | the exit of a worker starts the next job |
| Workers.CrewEnds | thread.c:182-194 | the exit of the last worker brings back the thread that waits for all |
| Sort.Swap | sort_test.c:19-25 | exchanges two elements |
| Sort.Partition | sort_test.c:27-47 | the range is rearranged, and parted where the pivot ends up; the position returned is that place if the pivot was the last element, and else only if an equal element takes it |
| Sort.Quick | sort_test.c:49-79 | rearranges its range into order up to the disjoint ranges it handed to new threads, all longer than the cutoff, though recursion overwrites `args` |
| Sort.Halves | sort_test.c:57-76 | the same for what follows `partition`; a half longer than the cutoff does go to a new thread |
| Sort.Half | sort_test.c:59-75 | a new thread with its own copy of the arguments, or recursion |
| Sort.Work | sort_test.c:49-79 | a worker from its start to its exit leaves the array ordered up to the ranges still pending |
| Sort.RunWorkers | sort_test.c:81-91 | the workers taking turns finish all pending ranges |
| Sort.Sort | sort_test.c:81-91 | when `thread_join(NULL)` returns, the range is sorted, a rearrangement of itself, the rest untouched, and the caller alone |
| SortSpec.Refine | sort_test.c:49-79 | sorting one of several pending ranges up to others leaves just those pending |
| Bitmap.MarkedHas | lib/bitmap.c:139-145 | setting a bit of a word sets that bit and no other |
| Bitmap.ClearedHas | lib/bitmap.c:148-154 | clearing it clears that bit and no other |
| Bitmap.ToggledHas | lib/bitmap.c:159-165 | toggling it toggles that bit and no other |
| Bitmap.Bitmap.constructor | lib/bitmap.c:83-93 | all bits are clear, whatever the buffer held |
| Bitmap.Bitmap.Mark | lib/bitmap.c:139-145 | one element of the sequence of bools becomes true |
| Bitmap.Bitmap.Reset | lib/bitmap.c:148-154 | one element becomes false |
| Bitmap.Bitmap.Flip | lib/bitmap.c:159-165 | one element is negated |
| Bitmap.Bitmap.Test | lib/bitmap.c:168-173 | reads one element |
| Bitmap.Bitmap.SetMultiple | lib/bitmap.c:186-198 | a stretch of elements gets the value, no other changes |
| Bitmap.Bitmap.Count | lib/bitmap.c:202-219 | how many elements of the stretch have the value |
| Bitmap.Bitmap.Contains | lib/bitmap.c:223-239 | false exactly when all elements of the stretch have the other value |
| Bitmap.Bitmap.Scan | lib/bitmap.c:268-286 | the lowest run of the value from START on, or an error exactly when there is none |
| Bitmap.Bitmap.ScanAndFlip | lib/bitmap.c:295-303 | finds that run and flips it and nothing else |
| Bitmap.NoBitsAreFoundAtStart | lib/bitmap.c:288-303 | a scan for no bits answers START |
| Palloc.GetPagesIsFirstFit | lib/palloc.c:76-115 | pages come from the lowest free run that is long enough; the request fails exactly when there is none, and then changes nothing |
| Palloc.PagesAreZeroed | lib/palloc.c:98-104 | with PAL_ZERO every byte of the pages handed out is 0; no other byte changes, and without it none does |
| Palloc.FreedPagesAreFilled | lib/palloc.c:129-147 | every byte of freed pages is 0xcc and their bits are clear; no other byte and no other bit changes |
| Palloc.HistoriesAreConsistent | lib/palloc.c:76-147 | over every history in which clients give back pages in use, whole extents or parts of them, what is handed out and not given back is disjoint extents whose union is exactly the set bits |
| Palloc.Pool.constructor | lib/palloc.c:157-173 | a pool with all pages free behind its bitmap, whose 32-bit words lie between the two words of its structure and the base |
| Palloc.BitmapFits | lib/palloc.c:161-165 | the pages reserved are the least that hold 8 + 4 * ceil(page_cnt / 32) bytes, and so hold the bitmap; there is no room exactly in a chunk without a page |
| Palloc.Pool.GetMultiple | lib/palloc.c:76-115 | the address of the pages, none, or a panic under PAL_ASSERT; zeros in exactly those pages on request |
| Palloc.Pool.FreeMultiple | lib/palloc.c:129-147 | pages in use are filled with 0xcc, exactly those, and given back, be they an extent or a part of some |
| Blocks.InitDescs | lib/malloc.c:69-82 | eight descriptors, from 16 to 2048 bytes, within their array |
| Blocks.SmallBlocks | lib/malloc.c:69-82 | block sizes double from 16 to 2048, and an arena has as many blocks as fit into its page behind the header |
| Blocks.BigPagesAreLeastIff | lib/malloc.c:111 | the page count is the least that holds size and header if and only if that is at most 2^32 - 4096; it is 0 exactly from there to 2^32, and 1 above |
| Blocks.BigPagesSufficeIff | lib/malloc.c:111 | the page count of a big block is 0 or enough exactly when size and header are at most 2^32; otherwise it is 1 |
| Blocks.CallocIsExactIff | lib/malloc.c:167-172 | `calloc` refuses or goes on with the exact product if and only if the product fits into 32 bits or wraps to less than a factor |
| Blocks.CallocMissesAWrap | lib/malloc.c:167-172 | two factors whose wrapped product passes the test |
| Blocks.BlockFacts | lib/malloc.c:271-296 | a block lies behind the header of its page, inside it, aligned as `block_to_arena` checks |
| HeapRuns.MallocKeeps | lib/malloc.c:86-158 | for every size, `malloc` keeps the heap invariant and every live block and its bytes, and returns a new block; it fails exactly for size 0, for a small size without a block on its list and without a free page, for a big one without a run of the least number of free pages that hold size and header, and where that number wraps around as `NoRoom` says |
| HeapReuse.SmallComesFrom | lib/malloc.c:129-157 | a small request gets the head of its list, or the first block of the first free page |
| HeapReuse.BigComesFrom | lib/malloc.c:107-121 | a big request gets the first run of the least number of pages that hold it, behind the header |
| HeapReuse.FreedIsNext | lib/malloc.c:241-257 | a freed small block is the next one handed out for its size, if another block of its page is live |
| HeapReuse.FreedIsOverwritten | lib/malloc.c:231-264 | after `free` all bytes of the block from the ninth on are 0xcc |
| HeapReuse.FreedLinkIsArbitrary | lib/malloc.c:55-59 | its first eight bytes may hold anything while it is on a free list, since the link lies there |
| HeapRuns.MallocPromiseIff | lib/malloc.c:84-121 | `malloc` returns a block of at least the size asked for, or none, if and only if size and header are at most 2^32 or no page is free |
| HeapRuns.WrapsToOnePage | lib/malloc.c:107-121 | a larger request gets one page, if one is free |
| HeapRuns.WrappedRequest | lib/malloc.c:107-121 | a call of `malloc` for 0xffffffff bytes that returns a block of 4084 |
| HeapRuns.CallocPromiseIff | lib/malloc.c:160-181 | `calloc` returns a block of at least a * b bytes, or none, if and only if product and header are at most 2^32 or the product is refused, wraps to 0 or cannot be served |
| HeapCalloc.CallocKeeps | lib/malloc.c:160-181 | `calloc` returns a new block of zeros, as many as the product has in 32 bits, and keeps all other blocks; it fails exactly when that number is below a factor, 0, or finds no room |
| HeapCalloc.ZeroFitsIff | lib/malloc.c:174-179 | its `memset` stays inside the block if and only if the product is refused, does not wrap as a size, or there is no page |
| HeapRuns.FreeKeeps | lib/malloc.c:223-268 | `free` keeps the invariant and every other live block and its bytes |
| HeapRealloc.ReallocKeeps | lib/malloc.c:200-219 | `realloc` moves the bytes, as many as both blocks have room for, keeps all other blocks, fails exactly for size 0 or without room, and changes nothing when it fails |
| HeapRealloc.CopyFitsIff | lib/malloc.c:208-215 | the copy of `realloc` stays inside the new block if and only if the new size does not wrap, the old block fits into a page, or there is no page |
| HeapSteps.LiveBlocksAreDisjoint | lib/malloc.c:86-158 | live blocks have no byte in common |
| HeapSteps.BlockLies | lib/malloc.c:86-158 | a live block is as large as requested, lies in the pages of its arena and avoids the header |
| HeapSteps.ScribbleKeepsBlocks | lib/malloc.c:145-155 | list links and headers written into memory change no byte of a live block |
| HeapRuns.FreeListsAreExact | lib/malloc.c:129-158 | a free list holds exactly the blocks of its arenas that are not live, each once |
| HeapRuns.UsedIffLive | lib/malloc.c:231-266 | the used pages are exactly those of arenas with a live block and of live big blocks |
| HeapRuns.NothingLeaks | lib/malloc.c:231-266 | with nothing live all pages are free and all lists empty |
| HeapInv.TakeBlockKeeps | lib/malloc.c:152-157 | taking a block off a list keeps lists, counters and live blocks in step |
| HeapSteps.TearDownKeeps | lib/malloc.c:246-257 | when the counter reaches its top all blocks of the arena are on the list, and taking them off and the page back keeps the invariant |
| HeapHistories.HeapStaysOk | lib/malloc.c:86-268 | the invariant holds over every history of requests, frees and writes by the client |
| HeapHistories.ContentsPersist | lib/malloc.c:86-268 | a block keeps its bytes for as long as it is live and its owner does not write to it |
| HeapHistories.FreeingAllFreesAll | lib/malloc.c:223-268 | once all blocks are freed, in any order, the heap is as at the start |
| Malloc.Allocator.constructor | lib/malloc.c:69-82 | an empty heap over an unused pool |
| Malloc.Allocator.FindDesc | lib/malloc.c:100-106 | the search finds the smallest descriptor that is large enough |
| Malloc.Allocator.AddArena | lib/malloc.c:129-150 | a new page, all of whose blocks go on the list |
| Malloc.Allocator.Malloc | lib/malloc.c:86-158 | `malloc` on lists and pool is the function on heap values, with all it keeps |
| Malloc.Allocator.Calloc | lib/malloc.c:160-181 | `calloc` is the function on heap values, with all it keeps |
| Malloc.Allocator.GiveBack | lib/malloc.c:231-243 | the block is filled with 0xcc and goes to the front of its list |
| Malloc.Allocator.TearDown | lib/malloc.c:246-257 | the loop takes all blocks of the arena off the list, then the page goes back |
| Malloc.Allocator.Free | lib/malloc.c:223-268 | `free` is the function on heap values, with all it keeps |
| Malloc.Allocator.Realloc | lib/malloc.c:200-219 | `realloc` is the function on heap values, with all it keeps |
| Format.BufferFits | lib/stdio.c:246-307 | at most 63 of the 64 bytes of the buffer are used, and at least as many as the precision asks for |
| Format.StoreDigits | lib/stdio.c:281-292 | the loop stores the digits from the last to the first, with commas where due |
| Format.FillBuffer | lib/stdio.c:281-307 | the loops fill the buffer within its bounds |
| Format.OutputDup | lib/stdio.c:68-74 | so many copies of the character |
| Format.FormatInteger | lib/stdio.c:241-342 | what is printed: padding, sign, prefix, zeros and the buffer from its end; `FormatParts` says what that text is |
| FormatLaws.TextReadsBack | lib/stdio.c:241-342 | for every value, base and conversion, evaluating the digits that were printed gives the value |
| FormatLaws.LengthIff | lib/stdio.c:309-341 | the length is the larger of width and body, except exactly when MINUS and ZERO are both set and there is padding |
| FormatLaws.MinusIffNegative | lib/stdio.c:256-271 | a minus sign is printed exactly for negative numbers in signed conversions |
| FormatLaws.DigitsAreGrouped | lib/stdio.c:283-292 | under the `'` flag commas stand after every group of the number's own digits, and nowhere else |
| FormatLaws.NumberIsGroupedIff | lib/stdio.c:281-303 | the printed number, with the zeros in front of it, is grouped if and only if those zeros stay within its first group |
| FormatLaws.PrecisionIsMetIff | lib/stdio.c:294-303 | for every precision, 1 if none is given, the printed number has that many digits if and only if the precision is below 64 and the number falls short of it without commas or has the digits by itself, the octal zero included |
| FormatLaws.PrecisionNotMet | lib/stdio.c:294-303 | 1234567 with precision 9 and grouping shows seven digits |
| FormatParts.WidthPads | lib/stdio.c:309-341 | a width adds to the text of width 0 what is missing: spaces before it, zeros after its sign and prefix, or spaces behind it, by the flags |
| FormatParts.SignLeads | lib/stdio.c:253-271 | the signed text is a minus, plus or space, the first that applies, and the unsigned text |
| FormatParts.PoundMarks | lib/stdio.c:273-307 | `#` puts 0x or 0X before a hexadecimal number other than 0 and a 0 before an octal one that does not begin with 0, and does nothing else |
| FormatParts.PlainNumber | lib/stdio.c:278-303 | what remains is digits of the base only, in the case of the letter, spells the value, and is as long as value or precision ask for, up to 63; a precision not given is 1 |
| FormatParts.EmptyIff | lib/stdio.c:294-307 | no digit is printed exactly for 0 under precision 0, unless `#` makes it an octal zero; without a precision 0 is "0" |
| FormatParts.FilledToPrecision | lib/stdio.c:299-303 | with commas, too, the number is filled up with zeros to its precision, 63 at most, and no further |
| FormatParts.GroupInserts | lib/stdio.c:281-292 | grouping changes no digit and inserts one comma for every three digits that others follow, every four in base 16 |
| FormatParts.GroupedText | lib/stdio.c:281-303 | so a number that its precision does not fill up is, commas aside, the number without grouping |
| Parse.ParseFlags | lib/stdio.c:79-121 | the loop collects the set of flags |
| Parse.ParseNumber | lib/stdio.c:141-144 | the loop reads a decimal number to its end |
| Parse.ParseConversion | lib/stdio.c:76-232 | the parser as a function of the format and of as many arguments as the format has stars, for any format |
| Parse.SpecParses | lib/stdio.c:76-232 | every well-formed specification, flags in any order and repetition, widths and precisions written or starred, parses to what it means, wherever in the format it stands; the parser stops at the letter and takes one argument per star |
| Parse.MeaningIsNormalIff | lib/stdio.c:123-178 | the result is in normal form except exactly for a negative width argument after a `0` flag without `-` or precision |
| Parse.RoundTrip | lib/stdio.c:76-232 | printing a normal conversion and parsing it gives it back, whatever the arguments |
| Parse.FlagAndLengthLetters | lib/stdio.c:76-232 | one conversion for each flag and each length, written out |
| Parse.StarsTakeArguments | lib/stdio.c:132-178 | `*.*` takes width and precision from the arguments in this order; negative ones mean `-` and none |

## Left out

- `boot.S`, `swtch.S`, `lib/halt.S`, `uart.c`, `rand.c`, `kernel_main.c`, interrupts: hardware and I/O. A switch changes which thread is current; interrupt levels play no role without preemption.
- The stack frame of a new thread (`thread.c:115-157`): only the copy of the arguments is kept.
- `list.h` is not part of this model: lists are sequences, and bytes of links are arbitrary.
- Reuse of thread identities and joins on released handles: identities are never reused, and a join names a thread that was not freed.
- Wrap-around of semaphore values and thread counts: both are unbounded.
- A call of `run` without a ready thread: a state of its own, `Deadlocked`, about which nothing more is claimed but that `sieve_test` does not get there.
- One machine with channels and monitors together: each of the two treats the operations of the other as operations on other semaphores.
- ChannelRuns.SingleSenderRendezvous: needs at most one thread in `chan_send` per channel, because with two the statement is false (`ChannelOverlap.OverlappingSendersFail`).
- Channels.ChannelKernel.AwaitReceiver: keeps the channel invariant for returns that are not premature; after a premature one only the kernel invariant is kept, and what becomes of the channel is not followed.
- Sieve: `thread_new` succeeds, ints do not overflow, messages are counted in ints, and the array of 256 divisors is unbounded, so N may be any number from 1 on.
- SieveNet.Network.RunToEnd: runs the network in place over rendezvous slots, in any order; the same program over the kernel's threads and channels is `SieveTestRuns`, on values.
- Sort.Sort: `thread_new` succeeds, and the caller, whichever thread it is, is the only one when it starts; other threads would take turns with the workers, and `thread_join(NULL)` would wait for them too.
- Locks around the pool and the descriptors: every allocator call runs as one step, since it never blocks.
- `palloc_init`: the sizes it computes from the memory tags; the pool starts from a page-aligned base and a page count.
- 32-bit wrap-around of indices and counts in `lib/bitmap.c` and `lib/palloc.c`: counts are unbounded.
- HeapRealloc.ReallocKeeps: says nothing when the copy would leave the new block, see `HeapRealloc.CopyFitsIff`.
- HeapCalloc.CallocKeeps: says nothing when the `memset` would leave the new block, see `HeapCalloc.ZeroFitsIff`.
- Parse.ParseConversion: does arithmetic on widths and precisions without overflow, and knows no argument fetching besides stars.
- Format.FormatInteger: the absolute value is given, so the negation of the least `intmax_t` does not occur.
- Text and character conversions, `vprintf` itself, `lib/string.c`, `lib/ctype.h`, `lib/debug.c`, `spin_test.c`, `atags.c`: easy, or I/O.
