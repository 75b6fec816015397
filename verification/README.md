# cio verification model

A Dafny model of the hard parts of cio, an M:N coroutine runtime: its lock-free
queues, the parking and waking of workers, select and channels, the waiter
primitives, the reactor's descriptor protocol, timers, the blocking pool, and two
sequential codecs (DNS messages and the buffered reader).

Every concurrent protocol is a step machine. A state holds the shared words and a
program counter per thread; one step is one atomic access, one system call or
one section under a lock; a run is any sequence of steps (`Traces`), so a statement
over all runs covers every interleaving of any number of threads. Atomics are
sequentially consistent. History fields record who did what (who reserved a
position, who cleared a bit, who chose a waiter), so that invariants name a witness
instead of asserting that one exists.

Code that runs under one lock, or on one thread, is imperative: classes with
fields, arrays and loops whose methods are proved against specification functions
or direct postconditions. `Channel` and `BlockingPool` tie every method to a
function on an abstract state; `ChannelHistory` and `BlockingPoolHistory` prove what
every run of those functions keeps. `TimerHeap` lets other threads arm and remove
timers wherever the shard is unlocked. `FrameMovement` is one closed machine of all
workers and foreign threads, whose steps are single container operations.

| module | protocol |
|---|---|
| `LocalRunQueue` | the work-stealing ring: owner push, pop and pop_half against any number of thieves |
| `RemoteInbox` | the bounded multi-producer queue |
| `StealablePublication` | publishing a ring as stealable, with the clear/publish epoch handshake |
| `Parking` | idle bits, wake tokens, wake coalescing, foreign pollers, the final park checks |
| `FrameMovement` | where a task frame can be while any number of threads push, spill, drain, steal and schedule |
| `Select`, `LockOrder` | multi-channel commit by one exchange; the locking order that precedes it |
| `Channel`, `ChannelHistory` | the ring, the two waiter queues, close |
| `RWMutex`, `WaitGroup` | word-plus-queue synchronisation |
| `OperationLock`, `Readiness` | the reactor descriptor: operation lock, readiness slot, deadline, generations, references |
| `TimerRace`, `TimerHeap` | fire against disarm; the indexed four-way heap and its expiry rounds |
| `BlockingPool`, `BlockingPoolHistory` | admission limits, threads, shutdown |
| `Framing`, `DnsCodec`, `DnsQuery` | the DNS wire format with a reference grammar |
| `BufferedReader` | the buffered window over a source |
| `Traces`, `Prelude` | runs of a step machine; shared value types |

## Where the code and its promises differ

* The operation lock can refuse a live operation. A task that captured the
  generation of an earlier incarnation may take the idle owner word for a moment
  before its validation fails; a task of the current incarnation that comes to wait
  in that moment is told the descriptor is closed.
  `OperationLock.StaleClaimRefusesLiveOperation` is such a run and
  `OperationLock.RefusedExactlyByStaleClaim` says that it happens exactly while the
  word carries an earlier generation, and that a task of that generation is then
  between taking the word and giving it back.
* A query for a name of more than 64 labels is built but not parsed back, because the
  pointer-hop bound of skip_name() counts labels. `DnsQuery.QueryParses` gives the
  exact condition and `DnsQuery.LongNamesAreRefused` a family of such names.
* Waking relies on the kernel accepting the wake token: wake() ignores a failed write
  of its eventfd. `Parking.ClaimStrandsExactlyWhenRefused` says that a claimed worker
  sleeps on without a token if and only if the latest write was refused, and
  `Parking.RefusedTokenStrandsWorker` is such a run.
* The comment at src/timer.cpp:220 says that a disarm() finding the node unlinked will
  see it firing or fired. `TimerRace.LoserReadsOutcome` says that it does if and only
  if the service popped the latest arming; otherwise it reads armed while an arm()
  that has stored its state has yet to take the lock, cancelled after another
  disarm(), or idle after an arm() that found no memory. `TimerRace.LoserMayReadArmed`,
  `TimerRace.LoserMayReadCancelled` and `TimerRace.LoserMayReadIdle` are such runs. The
  loop that follows handles all of them.

## Model

| member | source | states |
|---|---|---|
| `LocalRunQueue.ExactlyOnceInOrder` | include/cio/detail/queue.hpp:128-219 | in every run, what the owner and all thieves took, in order of taking, followed by the ring's contents is exactly what was pushed; the ring never exceeds 256 |
| `LocalRunQueue.RefinesFifo` | include/cio/detail/queue.hpp:132-219 | in every run each step leaves a bounded FIFO alone, appends the pushed frame, or removes a front batch, the very batch its taker uses |
| `LocalRunQueue.ExchangeKeeps` | include/cio/detail/queue.hpp:168-219 | a successful exchange of head proves that every slot copied before it held what was pushed there |
| `LocalRunQueue.RefusalsAreExact` | include/cio/detail/queue.hpp:132-161 | push() refuses exactly when all slots are occupied at that instant, pop() reports empty exactly when the ring is |
| `LocalRunQueue.WrapIsHarmless` | include/cio/detail/queue.hpp:125-127 | 32-bit wrap-around of head and tail changes neither slot index nor difference |
| `LocalRunQueue.StepKeeps` | include/cio/detail/queue.hpp:128-219 | the ring invariant is inductive over owner and thief steps |
| `RemoteInbox.DeliversInOrder` | include/cio/detail/queue.hpp:64-100 | every reserved position is delivered once, in order of reservation |
| `RemoteInbox.RefinesFifo` | include/cio/detail/queue.hpp:64-100 | in every run each step leaves a bounded FIFO alone, appends the frame of a won exchange, or takes the front frame |
| `RemoteInbox.FailsOnlyWhenFull` | include/cio/detail/queue.hpp:64-85 | in every run try_push gives up exactly when, as it loads the sequence, its position is current and a full capacity of positions is unreleased; giving up reserves nothing |
| `RemoteInbox.NoHole` | include/cio/detail/queue.hpp:64-100 | whenever no producer is between its exchange and its sequence store, the next reserved position is published and pop() returns its frame |
| `RemoteInbox.MatchMeansRoom` | include/cio/detail/queue.hpp:67-79 | a matching slot sequence proves that fewer than a capacity of positions are unreleased |
| `RemoteInbox.StepKeeps` | include/cio/detail/queue.hpp:64-100 | the inbox invariant is inductive over producer and consumer steps |
| `StealablePublication.PublishedWorkIsVisible` | src/scheduler.cpp:1034-1108 | in every run, with no publish or repair under way, a ring holding an item a completed publish covers has its stealable bit set, although publishers skip the bitmap when the clear epoch is unchanged |
| `StealablePublication.StepKeeps` | src/scheduler.cpp:1034-1108 | the handshake invariant is inductive for the owner's publishes and any number of repairs |
| `Parking.InboxWakeNotLost` | src/scheduler.cpp:992-1136 | a worker blocked with a consumable inbox item, with no waker under way and its producer past the wake, sleeps on if and only if the kernel refused its latest token |
| `Parking.GlobalWakeNotLost` | src/scheduler.cpp:992-1032 | if all workers are blocked while the global size is nonzero and neither a wake nor a scan is under way, one of them is claimed, and its token is pending unless it was refused |
| `Parking.SleepMeansNoWork` | src/scheduler.cpp:1540-1580 | if all workers sleep without a token and no producer is under way, no ring or runnext holds a frame, and a frame in an inbox or in the global queue means a refused token |
| `Parking.FlagNeverStuck` | src/reactor_epoll.cpp:279-300 | the coalescing flag is never left set with no token and no writer behind it, even after a refused write |
| `Parking.ClaimStrandsExactlyWhenRefused` | src/reactor_epoll.cpp:279-300 | a blocked, claimed worker with no waker under way has no token if and only if the kernel refused the latest write |
| `Parking.RefusedTokenStrandsWorker` | src/reactor_epoll.cpp:279-300 | a run in which a refused token leaves a worker asleep on a consumable item |
| `Parking.StepKeeps` | src/scheduler.cpp:1540-1580 | the parking invariant is inductive over workers, their polls outside park, producers and foreign pollers |
| `FrameMovement.Conservation` | src/scheduler.cpp:498-798 | in every run of any number of workers and foreign threads, each frame is in rings, runnexts, inboxes, hands and the global queue together exactly as often as it was submitted and not resumed |
| `FrameMovement.EachFrameInOnePlace` | src/scheduler.cpp:498-798 | a frame submitted once more than resumed is in one named place of one thread, once, and in no other place |
| `FrameMovement.ResumedFrameIsNowhere` | src/scheduler.cpp:498-798 | a frame resumed as often as submitted is in no place |
| `FrameMovement.NothingLeftBehind` | src/scheduler.cpp:498-798 | with all threads between operations and all containers empty, every submitted frame was resumed |
| `FrameMovement.OverflowSpillsOlderHalf` | src/scheduler.cpp:508-520 | whatever thieves take meanwhile, an overflow takes nothing or the older half of what they left of the full ring, in order, and the ring keeps a suffix |
| `FrameMovement.FrameIsDelivered` | src/scheduler.cpp:498-533 | a frame in hand to be put away stays there until a step appends it to the ring, to the target's inbox while that has room, or to the global queue, or stores it in runnext |
| `FrameMovement.SelectedFrameIsResumed` | src/scheduler.cpp:540-798 | the frame a worker selected stays selected through drains and spills until the worker resumes it or stages it in runnext |
| `FrameMovement.SelectionTakesFront` | src/scheduler.cpp:540-798 | every selected frame was runnext or the front of the place it left, and the ring's front only with runnext empty |
| `FrameMovement.OnlyOwnerAddsToRing` | src/scheduler.cpp:684-732 | over any stretch of other threads' steps a worker keeps its hand, its runnext, a suffix of its ring and a prefix of its inbox |
| `FrameMovement.HandsAndBounds` | src/scheduler.cpp:540-554 | a thread between operations holds no frame, one about to resume exactly one; a drain takes at most 32, ring and inbox hold at most 256 |
| `FrameMovement.StepKeeps` | src/scheduler.cpp:498-798 | the account and the shape of every hand and container are inductive over every step of every thread |
| `Select.WinnerIsFinal` | include/cio/select.hpp:369-500 | in every run the winning case and its claimant, once decided, never change |
| `Select.MovesOnlyOnWinner` | include/cio/select.hpp:369-500 | in every run at most one value moves, and the channel it moved on is that of the winning case |
| `Select.LocksInAddressOrder` | include/cio/select.hpp:374-412 | a select waiting for a channel's lock holds exactly the channels before it in strict address order, as LockOrder.NoDeadlock requires |
| `Select.ResumedExactlyOnce` | include/cio/chan.hpp:115-134 | a select goes on at most once, exactly once if it registered and finished, and while suspended with a winner exactly one claimant owes it the resume |
| `Select.EarlyWinnerLeavesResumeToSetup` | include/cio/chan.hpp:130-134 | a claimant that wins before publication leaves the resume to the select's own setup |
| `Select.FinishedLeavesNothing` | include/cio/select.hpp:255-282 | after finish() no waiter of the select is queued in any channel and no timer or peer refers to it |
| `Select.StepKeeps` | include/cio/select.hpp:369-500 | the select invariant is inductive over its own steps, channel peers, close and its timers |
| `LockOrder.Sort` | include/cio/select.hpp:381-389 | the in-place insertion sort yields a sorted permutation and touches nothing else |
| `LockOrder.Dedup` | include/cio/select.hpp:390-398 | the in-place deduplication yields a strictly increasing prefix with the same members |
| `LockOrder.LockOrder` | include/cio/select.hpp:370-398 | every channel of the cases exactly once, in increasing address order |
| `LockOrder.NoDeadlock` | include/cio/select.hpp:374-376 | selects that lock in this order never wait for each other in a circle of any length |
| `Channel.Ring.Push` | include/cio/chan.hpp:307-312 | the buffered values grow by the value at the back, across the wrap of the ring |
| `Channel.Ring.Pop` | include/cio/chan.hpp:320-325 | the oldest buffered value leaves, across the wrap of the ring |
| `Channel.Chan.AcquireFirst` | include/cio/chan.hpp:115-128 | the first waiter whose claim can still be won is acquired and the dead ones before it are dropped |
| `Channel.Chan.TrySend` | include/cio/chan.hpp:291-315 | refines the abstract send: live receiver, else ring, else blocked; refused when closed |
| `Channel.Chan.TryRecv` | include/cio/chan.hpp:317-356 | its three branches refine one rule: admit the first live sender's value behind the ring, then take the oldest value |
| `Channel.Chan.TryRecvNow` | include/cio/chan.hpp:358-370 | the shortcut refines the same rule as the full receive |
| `Channel.Chan.Close` | include/cio/chan.hpp:372-401 | refines the abstract close: every waiter still to be won is failed and returned once for waking |
| `Channel.Chan.Send` | include/cio/chan.hpp:433-455 | parks exactly when the send blocks, otherwise reports its outcome |
| `Channel.Chan.Recv` | include/cio/chan.hpp:475-495 | parks exactly when the receive blocks |
| `ChannelHistory.DeliversInOrder` | include/cio/chan.hpp:291-370 | in every run, values delivered followed by the ring are the completed sends in completion order, and plain parked senders complete in queue order |
| `ChannelHistory.WaitsOnlyWhenBlocked` | include/cio/chan.hpp:291-401 | a live receiver implies an empty ring, a live sender a full one; a live sender and a live receiver wait together, buffered or not, only as cases of one select; a closed channel has no waiter |
| `ChannelHistory.ClosedDrains` | include/cio/chan.hpp:317-401 | after close nothing more is sent and the buffered values drain in order |
| `ChannelHistory.CloseWakesAll` | include/cio/chan.hpp:372-401 | close wakes every plain waiter, leaves every select parked here with a winner, overwrites no claim and wakes nobody twice |
| `ChannelHistory.StepKeeps` | include/cio/chan.hpp:291-401 | the channel invariant is inductive over its operations, parked selects and claims won elsewhere |
| `RWMutex.MutualExclusion` | include/cio/sync.hpp:503-726 | in every run a writer excludes every reader and every other writer |
| `RWMutex.NoStrandedWaiter` | include/cio/sync.hpp:577-644 | with the queue lock free, somebody waits exactly if pending is set, and then the lock is held or a last reader is on its way to hand off |
| `RWMutex.DefensiveBranchUnreachable` | include/cio/sync.hpp:597-601 | the last reader always finds a writer, so the defensive branch never runs |
| `RWMutex.PendingAdmitsNoReader` | include/cio/sync.hpp:646-657 | while pending is set only a writer's hand-off admits readers, and only when no writer waits |
| `RWMutex.GrantedIsWokenOnce` | include/cio/sync.hpp:609-644 | a task handed the lock is on exactly one wake list, that of the task that handed it over |
| `RWMutex.StepKeeps` | include/cio/sync.hpp:503-726 | the invariant is inductive over readers, writers and hand-offs |
| `WaitGroup.WaitSeesZero` | include/cio/sync.hpp:168-227 | in every run wait() returns only if stable zero was published since it began, or the state it acted on was stable zero |
| `WaitGroup.StableZeroHasNoWaiter` | include/cio/sync.hpp:124-227 | stable zero leaves no task parked, across reused generations |
| `WaitGroup.TakenIsWokenOnce` | include/cio/sync.hpp:143-165 | a task taken off the list is in the batch of exactly one last done() |
| `WaitGroup.ParkedWaitsForFinal` | include/cio/sync.hpp:195-227 | while the last done() is under way every parked task is still in the list it will take |
| `WaitGroup.ZeroIsPublishedLast` | include/cio/sync.hpp:146-165 | while the state is stable zero no done() is before its last access to the group |
| `WaitGroup.DestroyedIsUntouched` | include/cio/sync.hpp:152-165 | once the owner destroyed a group it saw at stable zero with no wait() inside, every step still possible is a wake, and neither reads nor writes the group |
| `WaitGroup.StepKeeps` | include/cio/sync.hpp:124-246 | the invariant is inductive over adds, dones and waits |
| `OperationLock.OneHolder` | src/reactor_common.cpp:104-330 | at most one task holds the lock for the current generation |
| `OperationLock.ReferencesAccounted` | src/reactor_common.cpp:96-330 | the low tag bit is set exactly when pinned, every reference is accounted for, and waiters are served in FIFO order |
| `OperationLock.FreeAssertsHold` | src/reactor_common.cpp:51-85 | when the slot is freed it is unpinned, has no waiter and no reference |
| `OperationLock.SlowReleaseFindsOwnTag` | src/reactor_common.cpp:292-330 | a slow release of a live generation finds its own pinned tag, as the source asserts |
| `OperationLock.StaleTaskIsInert` | src/reactor_common.cpp:162-330 | no step of a task of an earlier generation touches references, pins, queue or holder; at most it takes the idle word under its own old tag and gives it back |
| `OperationLock.ChosenIsResumedOnce` | src/reactor_common.cpp:292-330 | a chosen waiter is in the hands of exactly one releasing task |
| `OperationLock.EncodingIsFaithful` | include/cio/detail/reactor.hpp:320-323 | the integer comparisons on the tagged word decide exactly the comparisons of the model |
| `OperationLock.RefusedExactlyByStaleClaim` | src/reactor_common.cpp:188-261 | in every run a live contender is refused if and only if the owner word carries the tag of an earlier generation, and then a task of that generation is between its claim and its release |
| `OperationLock.StaleClaimRefusesLiveOperation` | src/reactor_common.cpp:162-261 | a run in which that happens |
| `OperationLock.StepKeeps` | src/reactor_common.cpp:51-330 | the invariant is inductive over claims, waits, releases, close, free and attach |
| `Readiness.StaleTokenIsInert` | src/reactor_common.cpp:390-473 | a poller, canceller, deadline or closer about to change the slot for generation g, or carrying a waiter, finds generation g: what an earlier incarnation left never reaches a recycled slot |
| `Readiness.CallbackIsCurrent` | src/reactor_common.cpp:432-457 | an entered deadline callback belongs to the current incarnation and the current configuration, because replacing and closing wait it out; its sequence check fails only while closing |
| `Readiness.DisarmedStaysDisarmed` | src/reactor_epoll.cpp:155-168 | an armed deadline is that of the current configuration, and once detach has disarmed it none is armed or running |
| `Readiness.WaiterIsWokenOnce` | src/reactor_common.cpp:334-388 | a parked waiter is in the slot, and one taken out is carried by exactly one thread |
| `Readiness.EdgeIsKept` | src/reactor_common.cpp:334-388 | a readiness edge stays recorded until an awaiter takes exactly that edge without parking, or the descriptor is recycled |
| `Readiness.UnblockIsDelivered` | src/reactor_common.cpp:334-388 | an unblock leaves an edge behind or the parked waiter in the caller's hands |
| `Readiness.CloseStrandsNobody` | src/reactor_epoll.cpp:155-182 | once detach has passed the slot nobody is parked and nobody parks again in the incarnation |
| `Readiness.FreeFindsNobody` | src/reactor_common.cpp:51-92 | a slot is recycled only when no awaiter, poller, deadline or closer of its incarnation is left |
| `Readiness.StepKeeps` | src/reactor_common.cpp:334-656 | the invariant is inductive over awaiters, pollers, cancellation, deadline setters and callbacks, close, free and attach |
| `TimerRace.EachArmingEndsOnce` | src/timer.cpp:114-227 | every decided arming is removed by one disarm that returns true, fired once, or failed for memory, never two of these |
| `TimerRace.DecisionIsExclusive` | src/timer.cpp:196-227 | no two threads remove, fire or arm the node at once, and none removes what another fires |
| `TimerRace.UnlinkFindsArmed` | src/timer.cpp:281-301 | a node unlinked by the service or a disarm was armed, as the source asserts |
| `TimerRace.ReturnMeansQuiet` | include/cio/detail/timer.hpp:93-106 | when disarm returns, the node is unlinked, terminal and nobody will write to it |
| `TimerRace.QuietUntilRearmed` | src/timer.cpp:261-334 | and it stays so until its owner arms it again |
| `TimerRace.LoserReadsOutcome` | src/timer.cpp:220-225 | in every run a disarm that finds the node unlinked under the lock reads firing or fired if and only if the service popped the latest arming, armed if and only if an arm has yet to take the lock, cancelled after another disarm and idle after a failed arm |
| `TimerRace.LoserMayReadArmed` | src/timer.cpp:133-142 | a run in which such a disarm reads armed |
| `TimerRace.LoserMayReadCancelled` | src/timer.cpp:208-225 | a run in which it reads cancelled |
| `TimerRace.LoserMayReadIdle` | src/timer.cpp:142-151 | a run in which it reads idle |
| `TimerRace.StepKeeps` | src/timer.cpp:114-334 | the invariant is inductive over arm, disarm and expiry |
| `TimerHeap.RootIsEarliest` | src/timer.cpp:38-72 | in an ordered heap no timer is due before the root |
| `TimerHeap.Shard.SiftUp` | src/timer.cpp:38-49 | restores order and back-pointing indices, keeps the members, and changes the root only for a strictly earlier timer |
| `TimerHeap.Shard.LeastChild` | src/timer.cpp:56-63 | the first of the earliest-due children |
| `TimerHeap.Shard.SiftDown` | src/timer.cpp:51-72 | restores order and indices and keeps the members |
| `TimerHeap.Shard.PopRoot` | src/timer.cpp:74-85 | exactly the root leaves an ordered, indexed heap |
| `TimerHeap.Shard.RemoveAt` | src/timer.cpp:87-106 | exactly the member at the position leaves, with the sift direction chosen by one comparison |
| `TimerHeap.Shard.Arm` | src/timer.cpp:114-164 | the timer joins the heap, the published minimum is right, and the poller is nudged exactly if the timer is due before all others |
| `TimerHeap.Shard.Remove` | src/timer.cpp:199-219 | true exactly if the timer was linked; then it alone left and the published minimum is right |
| `TimerHeap.Shard.TakeBatch` | src/timer.cpp:277-303 | one locked batch takes up to 64 due timers in order and republishes the minimum |
| `TimerHeap.Shard.RunExpired` | src/timer.cpp:261-334 | while others arm and remove between its locked rounds: every batch is due, in order and due no later than what stays; every firing and removal answers one arming; every timer that was due has fired or was removed; at the last release none is due; no node is left firing |
| `TimerHeap.UndisturbedRounds` | src/timer.cpp:276-334 | when nobody arms or removes in between, the batches together are the due timers in nondecreasing order of deadline, each once |
| `BlockingPool.BlockingPool.Submit` | src/blocking_pool.cpp:95-130 | with every counter equal to what it counts, refines the abstract submission |
| `BlockingPool.BlockingPool.EnqueueLocked` | src/blocking_pool.cpp:45-67 | queues the job, with a new thread if wanted and possible, or refuses it when no thread could ever run it |
| `BlockingPool.BlockingPool.Promote` | src/blocking_pool.cpp:69-93 | the first waiter of the class takes the freed slot |
| `BlockingPool.BlockingPool.Wake` | src/blocking_pool.cpp:154-173 | an idle thread takes a job, waits again or retires |
| `BlockingPool.BlockingPool.Finish` | src/blocking_pool.cpp:170-190 | a finished job's slot is passed on and its thread re-enters the loop |
| `BlockingPool.BlockingPool.Shutdown` | src/blocking_pool.cpp:192-227 | every job awaiting admission is failed exactly once |
| `BlockingPoolHistory.BoundsHold` | src/blocking_pool.cpp:45-130 | in every run no class exceeds its limit, the pool not its bounds, a job waits only for a full class, and queued work has a thread |
| `BlockingPoolHistory.StartsInOrder` | src/blocking_pool.cpp:45-227 | every accepted job is in exactly one place and jobs of a class start in acceptance order; only shutdown fails jobs |
| `BlockingPoolHistory.ShutdownSettlesAll` | src/blocking_pool.cpp:192-227 | a stopped pool without threads has run or failed every job it accepted |
| `BlockingPoolHistory.OnlyShutdownFails` | src/blocking_pool.cpp:69-227 | in every run no step but the first shutdown fails a job, and that one fails exactly those awaiting admission |
| `BlockingPoolHistory.FailedIsFinal` | src/blocking_pool.cpp:192-227 | after a shutdown no job ever fails again |
| `BlockingPoolHistory.StepKeeps` | src/blocking_pool.cpp:45-227 | the pool invariant is inductive |
| `DnsCodec.SkipName` | src/dns.cpp:45-61 | the loop computes the skip function, whatever the bytes |
| `DnsCodec.SkipIsSound` | src/dns.cpp:45-61 | whatever is skipped is a name of the grammar within the label bound |
| `DnsCodec.SkipIsComplete` | src/dns.cpp:45-61 | a name of the grammar is skipped exactly to its end if and only if it has at most 64 labels |
| `DnsCodec.TopBits` | src/dns.cpp:52-57 | the bit tests on a length octet are the ranges used in the model |
| `DnsCodec.FlagBits` | src/dns.cpp:149-151 | the bit tests on the flags are the arithmetic used in the model |
| `DnsCodec.ParseResponse` | src/dns.cpp:142-192 | the loops compute the parse function, with every access in bounds |
| `DnsCodec.ParseIsSound` | src/dns.cpp:142-192 | whatever parses is a message of the grammar of section 4.1 of RFC 1035 and the answer is the one it carries |
| `DnsCodec.ParseIsComplete` | src/dns.cpp:142-192 | every message of the grammar parses, to the addresses it carries |
| `DnsCodec.ParseIsExact` | src/dns.cpp:142-192 | both directions as one equivalence |
| `DnsQuery.EncodeText` | src/dns.cpp:64-86 | accepts exactly the names of at most 253 octets with labels of 1 to 63 and appends their encoding |
| `DnsQuery.NameFitsTheWire` | src/dns.cpp:64-86 | an accepted name takes at most 255 octets and its labels join to the text |
| `DnsQuery.SplitOfJoin` | src/dns.cpp:70-83 | splitting finds exactly the labels a text was joined from |
| `DnsQuery.BuildQuery` | src/dns.cpp:124-140 | a query is the encoding of its message in the grammar |
| `DnsQuery.QueryParses` | src/dns.cpp:124-192 | a query parses as a response, walked to its last octet, if and only if its name has at most 64 labels |
| `DnsQuery.LongNamesAreRefused` | src/dns.cpp:59-59 | names of 65 to 127 one-letter labels are built and not parsed |
| `BufferedReader.Reader.Compact` | include/cio/bufio.hpp:172-182 | the window moves to the front of the storage unchanged |
| `BufferedReader.Reader.Fill` | include/cio/bufio.hpp:171-190 | new bytes go behind the window, none means end of stream or a full window, an error changes nothing |
| `BufferedReader.Reader.Read` | include/cio/bufio.hpp:69-82 | the bytes handed out continue what was consumed; what is consumed plus the window is what was taken from the source |
| `BufferedReader.Reader.ReadString` | include/cio/bufio.hpp:91-117 | a chunk ends at the first delimiter or at end of stream and has at most limit + capacity bytes; on an error the bytes lost are counted exactly |
| `BufferedReader.Reader.ReadLine` | include/cio/bufio.hpp:120-130 | a line without its end, which is one of the four the source strips; a trailing carriage return is always stripped once; on an error the bytes lost are counted exactly |
| `BufferedReader.Reader.Peek` | include/cio/bufio.hpp:137-149 | shows the next bytes and consumes none; EMSGSIZE exactly beyond the capacity |
| `BufferedReader.Reader.Discard` | include/cio/bufio.hpp:153-168 | skips the count returned, less than asked only at end of stream |

## Left out

- Memory orderings weaker than sequential consistency: a step machine over one shared state cannot express them.
- Wrap-around of positions, epochs and generations over a full cycle: counters are unbounded; LocalRunQueue.WrapIsHarmless covers the ring's 32-bit counters.
- Liveness and fairness: nothing is claimed about when a step is taken, only about what every reachable state satisfies.
- Select: intrusive waiter lists are sequences and channels hold no values; the random poll order is a free choice of the steps.
- Channel.Chan.AcquireFirst: the doubly linked waiter list is a sequence, so pointer repair in remove() is not modelled; another channel may win a claim between operations but not inside one.
- TimerHeap.Shard.RunExpired: other threads' requests are a finite script of any length, and a node armed again keeps its deadline.
- TimerRace.EachArmingEndsOnce: the owner re-arms a node only when it is at rest and no other disarm is inside; shards other than the node's are not represented.
- FrameMovement.Conservation: container operations are single steps, which LocalRunQueue and RemoteInbox justify, and which operation a free worker starts next is left open, so tick counters, the fairness cursor and the global size counter are absent; publishing and waking are the subject of StealablePublication and Parking.
- FrameMovement.HandsAndBounds: a drain may stop early at any point, as it does at a reserved position that is not yet published.
- BlockingPool.BlockingPool.Finish: the condition variables are not modelled; a wake may happen at any time, timed out or not.
- BufferedReader.Reader.ReadString: coroutine suspension is a plain call, and the source is a finite script of replies of any length.
- Readiness.StepKeeps: one direction of a descriptor; reads and writes have identical, independent slots and deadlines.
- OperationLock.OneHolder: I/O waits, dispatch and deadline setters appear only as references they hold.
- Mutex, Once, Cond, groups, contexts and the worker bitmap searches: they would add simpler members of the same kinds.
- The bitmap's word and bit arithmetic: Parking visits the bits in cyclic order one by one.
- TimerService::drain_all: runs after the workers are joined.
- Sockets, dialing, resolver policy, hosts-file parsing, files, processes, signals and TLS: system behaviour outside the sources.
- The monitor thread, I/O budgets, metrics and tuning constants: time-based behaviour.
- Coroutine frames, memory pools and exceptions: language mechanics.
