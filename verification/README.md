# Verified model of the kernel of a mini RTOS

This project models the kernel of a small real-time operating system for Cortex-M
(`kernel/*.c`) and proves what its design promises: that its five blocking objects lose no
wake-up and no resource, that its wait lists stay separate and in order, that a blocking
call ends in a grant or a timeout and never both, that the scheduler runs the right task,
that priority inheritance keeps its bounds, and that deferred work is never stranded.

It has two layers.

**Step layer.** `Kernel.dfy` is the whole kernel as one state machine. Every critical region
(`rtos_enter_critical` to `rtos_exit_critical`) is one atomic action; a tick and a context
switch are further actions; they interleave arbitrarily, and wake-ups come from any context,
interrupts included. A blocking call is several actions: the region that tries and parks, the
region that runs when the task is scheduled again, and for queues, mutexes and pools the retry.
Each task carries a control point (`Free`, `Waiting`, `Retrying`), and `log` is the history of
the calls that returned, over which the conservation laws are stated. The regions themselves
are functions on values (`QueueSpec`, `MutexSpec`, `SemSpec`, `EventSpec`, `PoolSpec`,
`NotifySpec`, `SchedSpec`, `TaskSpec`, over the shared `WaitQueue`). Task counts, capacities and
priorities are arbitrary; `uint32_t` arithmetic wraps where the C code lets it wrap.

The proof goes through a small vocabulary of effects: every region changes the wait state in
one of eight ways (`Separation.dfy`, `Effects.dfy`), each effect moves tasks between roles
(parked, late, woken: `Roles.dfy`), and an action of one object leaves the lists, the state and
the history of every other object alone (`Roles.dfy`, `ObjectFrame.dfy`, `Steady.dfy`). The
object invariants (`QueueRuns`, `SemRuns`, `PoolRuns`, `EventRuns`, `MutexRuns`, `NotifyRuns`,
`SchedRuns`, `Inheritance`, `Succession`, `Preemption`, `WaitOrder`, `Timing`) are kept by every action, and
`Runs.dfy` draws the conclusions for every run from a freshly started kernel. `Answers.dfy` says
what each call answers, hands out and leaves behind; `Histories.dfy` reads those answers off the
history of a run alone, as an abstract queue, mutex, semaphore and pool would give them, and
`EventLedger.dfy` says where every event bit goes. `SchedLocks.dfy` is about the scheduler lock and
`Lifetimes.dfy` about creation and exit. `WorkRuns.dfy`
runs the deferred-work protocol on top of that machine, and `RoundRobin.dfy` follows the
context switches of a run.

**Imperative layer.** `Tasks.dfy` has task control blocks as heap objects and the wait list
threaded through their `waitNext` links, and `Heaps.dfy` the lists of all objects at once; `Queues`, `Mutexes`, `Sems`, `Events`, `Pools`,
`TaskTables`, `Timers`, `WorkRings` and `Traces` are the objects with the fields the C structs
have, updated in place with the loops the C code has. The contract of each region's method
equates the new state with the function the step layer uses for that region, so what is proved
about runs is about these methods. Their precondition that the calling task is in no wait list
is the separation theorem (`Effects.CallerIsUnlinked`).

Three places where the code does less than its documentation or its users may expect are
stated exactly: `Base.MsToTicksExact` (the conversion of long timeouts wraps),
`EventWalk.WakesEveryEligibleIff` (`docs/architecture.md` says that setting flags wakes every
waiter whose condition is satisfied; a clearing waiter ahead can take the bits, as
`ClearingScenario.dfy` shows on a run from boot), and `Inheritance.AcquireInheritsIff` (taking
a free mutex inherits nothing from the waiters left behind). The last one does no harm as long
as the free mutex is not locked again before the context switch that an unlock requests is
taken (`Preemption.dfy`). The scheduler lock, which turns the switch into a mere request, may
be held over the unlock; locking again under it does harm (`RelockScenario.dfy`, again a run
from boot). A fourth,
`MutexRuns.LockKeepsOwnedIffCounted`, is the overflow of the lock counter.
The same document still calls the wait lists FIFOs in places; the code, and a later paragraph,
order them by priority, which is what is modelled.

Check everything with `dafny verify dfyconfig.toml`.

## Model

The main results come first, then what leads to them, subject by subject.

| member | source | states |
|---|---|---|
| Runs.ListsAreSeparate | kernel/queue.c:5-77 | in every reachable state a task is linked in at most one list, once; a linked task that is not blocked has timed out; a blocked one is linked exactly in the list of its own call |
| Runs.QueueIsFifo | kernel/queue.c:118-241 | over every run values sent with OK equal values received with OK followed by the buffer, within capacity; a parked receiver means no more messages than woken receivers, a parked sender no more free slots than woken senders |
| Histories.SendOkIff | kernel/queue.c:127-165 | over every run a send succeeds at once if and only if fewer messages than the capacity were sent and not received; else it times out at once or blocks, and no object changes |
| Histories.RecvOkIff | kernel/queue.c:192-230 | over every run a receive succeeds at once if and only if more was sent than received, and delivers the oldest message not received yet |
| Runs.SemConserves | kernel/sem.c:99-174 | over every run initial count plus successful posts equals count plus successful waits plus tokens on their way; count is at most the maximum and positive only while the list is empty, stale nodes included |
| Histories.SemWaitOkIff | kernel/sem.c:109-128 | over every run a wait succeeds at once if and only if a token is left: initial plus successful posts exceed successful waits plus tokens on their way; else it times out at once or blocks |
| Histories.PostOkIff | kernel/sem.c:151-166 | over every run a post succeeds if and only if a task is parked or fewer tokens than the maximum are left; it adds one to those left exactly if it succeeds with nobody parked |
| Runs.PoolConserves | kernel/mempool.c:134-215 | over every run each block of the storage is on the free list, in a caller's hands or in flight to a released waiter, in one of them and once, and no other address ever is; a nonempty free list means an empty wait list |
| Histories.AllocOkIff | kernel/mempool.c:146-171 | over every run an allocation succeeds at once if and only if some block of the pool is in no caller's hands and on its way to nobody, and hands out such a block |
| Runs.NobodyOversleeps | kernel/event.c:171-232 | in every reachable state no task is parked on event flags that satisfy it |
| EventWalk.WakesEveryEligibleIff | kernel/event.c:101-137 | all waiters satisfied at the start are released if and only if none of them needs bits a clearing one ahead of it takes |
| EventLedger.EachSetServesOnce | kernel/event.c:89-190 | over every run each rise of a bit from 0 to 1 ends in exactly one clearing wait, is cleared by hand or is still set; clearing waits that received a bit are no more than its sets (and one if it was set at the start) |
| EventLedger.ResumedWaitIsServed | kernel/event.c:217-231 | over every run a resumed wait reports its timeout, or the bits its waker gave it: nonempty, part of what its call asked for, all of it for wait-all |
| Runs.MutexExcludes | kernel/mutex.c:121-217 | over every run, of any length, in which no step overflows the counter: owned exactly while counted, the count is the owner's unmatched locks, nobody else has any, and a free mutex with a valid waiter has a woken one about to retry |
| Histories.LockOkIff | kernel/mutex.c:132-160 | over every such run a lock succeeds at once if and only if no other task has unmatched locks; else it times out at once or blocks |
| Histories.UnlockOkIff | kernel/mutex.c:187-198 | over every such run an unlock succeeds if and only if the caller has unmatched locks; it matches one, and frees the mutex exactly with the last |
| Histories.UnlocksMatchLocks | kernel/mutex.c:176-217 | a task with n unmatched locks that locks no more, whatever others do in between: each of its next n unlocks matches one, it owns the mutex until the n-th and not after it |
| Runs.OwnerInheritsAlways | docs/architecture.md:120-124 | over every run with one mutex in which nobody goes for the free mutex between an unlock that releases a waiter and the switch it requests, scheduler lock or not, and no owner exits: every acquirer is at least as high as the waiters left behind, the owner stays within its priority bounds, all others are at base, the waiters are in priority order, and while the mutex is free a task at least as high as each parked one is on its way |
| Runs.ListsStaySorted | docs/architecture.md:187-191 | over every run, with any number of mutexes, in which no task blocks in a wait list while it owns a mutex: every list is in priority order, and a wake-up goes to the highest valid waiter, the earliest among equals, if there is one |
| Timing.FateIsFinal | kernel/task.c:251-254 | over every run, the tick of one task being one step, a granted call is never timed out and a timed-out one is never granted, even while still linked |
| TickSplit.SplitKeepsTokensIff | kernel/task.c:248-252 | with any action between the decrement and the two stores of the tick of a task about to time out, the semaphore's tokens stay accounted for if and only if that action does not release the task |
| TickSplit.SplitKeepsBlocksIff | kernel/task.c:248-252 | the same for the blocks of a pool |
| Timing.BlockingCallIsOnTime | kernel/queue.c:157-173 | every blocking call times out on the tick its timeout converts to and no earlier, and never with FOREVER |
| Histories.GrantReachesTheCaller | kernel/event.c:217-231 | whatever happens between its release and its second region, a task is answered with the token, the bits or the block its waker gave it, or goes round its loop |
| Runs.NoBitIsLost | kernel/task.c:297-394 | over every run each bit sent is in the word unless a successful wait reported it or asked to discard it on entry, each bit in the word was sent, the flag is set exactly with a nonzero word, and a task blocked on a notification has none |
| Runs.ReportsAreFair | kernel/task.c:337-394 | over every run each wait that returned OK, at once or after blocking, reported all the bits owed to its task then but those it asked to discard, and no bit that was not sent |
| Runs.AssertionCannotFire | kernel/sched.c:118-121 | over every run in which some task, like idle, never blocks (it may make calls that return at once) or exits, each context switch leaves the current task, and no other, running |
| SchedLocks.LockKeepsTheProcessor | kernel/sched.c:97-100 | over every run, while a task holds the scheduler lock and neither blocks nor exits, no other task runs |
| SchedLocks.UnlockAsksIffOwed | kernel/sched.c:41-58 | over every run an unlock asks for a switch if and only if it is the outermost one and a switch the lock deferred has not been taken since |
| RoundRobin.EachRunsOnce | kernel/sched.c:93-125 | from any reachable state with the scheduler unlocked, whatever steps come between the switches, while the ring, the runnable tasks and the priorities stay fixed, the next n switches run each of the n top-priority runnable tasks exactly once |
| WorkRuns.WorkIsNeverStranded | kernel/work.c:18-83 | over every run a worker blocked with items pending has a submitter between its enqueue and its notify; accepted items are executed, in hand or in the ring, once and in order; rejected ones are counted |
| WorkRuns.SubmitOkIff | kernel/work.c:64-83 | over every run a submission is accepted if and only if fewer items than the ring holds were accepted and not begun; else it is counted as rejected |
| Timers.ReloadFires | kernel/timer.c:81-94 | a reload timer of period P has fired exactly n / P times n ticks after its start |
| Tasks.WaitList.Push | kernel/queue.c:5-30 | the linked list after an insertion is the specified sequence, with tail and links in order and no control block changed |
| Tasks.WaitList.Pop | kernel/queue.c:32-51 | the linked list after a pop, and the task returned, are the specified ones |
| Tasks.WaitList.Remove | kernel/queue.c:53-77 | the linked list after a removal is the specified sequence |
| Events.EventFlags.Walk | kernel/event.c:102-137 | the in-place walk is the greedy fold over the waiters in list order: flags, control blocks and the remaining list |
| TaskTables.TaskTable.ScheduleNext | kernel/sched.c:91-129 | the context switch on the heap is the specified one, and it fails exactly when nobody is left running |
| RelockScenario.RelockMissesAWaiter | kernel/sched.c:97-100 | a legal run of ten steps from boot: an owner takes the scheduler lock, unlocks, has its switch deferred and locks again, and runs below a valid waiter |
| ClearingScenario.ClearingWaiterTakesTheBit | docs/architecture.md:167-168 | a legal run of four steps from boot: two tasks wait for a bit, the first one clearing it; it is set, and the second stays asleep |
| DisorderScenario.BlockedOwnerIsMisplaced | docs/architecture.md:187-191 | a legal run of ten steps from boot: an owner of priority 1 waits on an event group behind a task of priority 2, a task of priority 3 locks its mutex, and the group's list is out of order |
| TickSplit.TokenIsLost | kernel/task.c:248-252 | a task waits for a token for one tick; a post between the parts of that tick grants it one, the stores mark it timed out, and the token is lost |
| Base.MsToTicksZero | kernel/tick.c:30-44 | zero ticks, which means no timeout, is produced for the FOREVER constant and for nothing else |
| Base.MsToTicksExact | kernel/tick.c:38-41 | the conversion waits at least the requested time if and only if it is at most 4294966 ms, and is then exact apart from 0 becoming one tick |
| WaitQueue.PushIsStableInsertion | kernel/queue.c:5-30 | insertion is stable by descending priority: ahead stand exactly those of at least the newcomer's priority, the others keep their order, a sorted list stays sorted |
| WaitQueue.PopTakesTheBest | kernel/queue.c:32-51 | a pop of a sorted list takes the highest-priority valid waiter, the earliest among equals, drops no valid one, and finds none only if there is none |
| WaitQueue.PopMembers | kernel/queue.c:36-50 | only stale waiters and the one returned leave the list, and a pop that finds nobody empties it |
| WaitQueue.RemoveMembers | kernel/queue.c:53-77 | exactly the given task leaves the list |
| WaitQueue.RemoveKeepsOrder | kernel/queue.c:53-77 | the others keep their priority order |
| Separation.WakesKeeps | kernel/queue.c:137-141 | releasing the first valid waiter, discarding stale ones on the way, keeps the separation of all wait lists |
| Separation.ParksInKeeps | kernel/queue.c:157-162 | so does blocking in the list of the call's own object |
| Separation.UnlinksKeeps | kernel/queue.c:167-173 | so does a timed-out task leaving its list |
| Separation.WakesManyKeeps | kernel/event.c:104-137 | so does a walk that releases some waiters and keeps the rest |
| Effects.SepStep | kernel/task.c:243-257 | every action of the kernel keeps the separation of the wait lists |
| Effects.SetFlagsWakesMany | kernel/event.c:89-146 | setting flags changes tasks and lists only by releasing valid waiters of its own list |
| Roles.OthersLeftAlone | kernel/sem.c:99-140 | an action of one object leaves every list of every other object as it was: contents, parked tasks, released tasks and what they were handed |
| ObjectFrame.ActionApart | kernel/queue.c:118-176 | an action changes the state and the history of its own object only |
| Steady.ActionSteady | kernel/mutex.c:148-152 | apart from a context switch, a creation (which sets up its slot anew) and an exit: no action starts or stops a task, only a mutex region changes a priority, only a notification region changes a notification word |
| Runs.BootIsInit | kernel/sched.c:9-23 | a kernel booted with any tasks, queues, mutexes, semaphores, event groups and pools is a legal start |
| Runs.SafeStep | kernel/queue.c:118-241 | every action keeps separation, ring, queue, semaphore, event and pool invariants of all objects together |
| QueueRuns.QueueStep | kernel/queue.c:118-241 | every action keeps the queue's FIFO equation and its no-lost-wake-up invariant |
| QueueRuns.DeliveryCounts | kernel/queue.c:132-149 | a successful call adds a released task on the other side or finds nobody parked there, and consumes at most one on its own |
| QueueRuns.QuietQueue | kernel/queue.c:192-215 | with no woken task outstanding, receivers wait only on an empty queue, senders only on a full one, never both |
| Answers.SendAnswers | kernel/queue.c:127-165 | a send with room answers OK and appends the message; without, it answers the timeout at once or blocks, and no object changes |
| Answers.RecvAnswers | kernel/queue.c:192-230 | a receive answers OK with the oldest message, which leaves the queue; on an empty one it answers the timeout at once or blocks |
| Answers.SendIsrAnswers | kernel/queue.c:113-116 | a send from an interrupt succeeds under the same condition, and otherwise changes neither tasks nor lists |
| Histories.SizesRun | kernel/queue.c:99-104 | the capacity of a queue and the maximum of a semaphore never change |
| SemRuns.SemStep | kernel/sem.c:99-174 | every action keeps the token equation of the semaphore |
| Answers.SemAnswers | kernel/sem.c:109-128 | a wait answers OK and takes one off the count if and only if that is positive; else it answers the timeout at once or blocks |
| Answers.PostAnswers | kernel/sem.c:151-166 | a post succeeds if and only if a linked task is a valid waiter or there is room; the count goes up exactly when it succeeds with nobody there |
| PoolRuns.PoolStep | kernel/mempool.c:134-215 | every action keeps the block equation of the pool |
| Answers.AllocAnswers | kernel/mempool.c:146-171 | an allocation answers a block if and only if the free list is nonempty: one of it, which alone leaves it; else it is refused at once or blocks with no block in hand |
| PoolRuns.AllocNeverRetries | kernel/mempool.c:200-206 | a woken allocation always carries a block, so its retry loop is never taken |
| PoolRuns.EveryBlockInOnePlace | kernel/mempool.c:85-102 | each block is on the free list, held by a caller, or carried by one released task, in exactly one of them |
| EventWalk.MatchesMonotone | kernel/event.c:58-74 | a wait condition that holds under some flags holds under more |
| EventWalk.FinalFlags | kernel/event.c:99-139 | the flags after the walk are those before it minus the union of what the clearing waiters received |
| EventWalk.GrantIsSound | kernel/event.c:108-131 | every task released was a valid waiter, its bits are a part of what it asked for, nonempty, and all of it for wait-all |
| EventWalk.ClearedBitsAreDisjoint | kernel/event.c:129-131 | clearing waiters released by one call receive pairwise disjoint bits |
| EventWalk.NobodySatisfiedIsLeft | kernel/event.c:104-137 | no waiter left in the list is satisfied by the final flags |
| EventWalk.ReleasedIff | kernel/event.c:108-110 | a waiter is released if and only if it is valid and satisfied by the flags its predecessors left |
| EventWalk.ReleasedGetsAll | kernel/event.c:121-131 | a released waiter reports every bit it asked for that is set and was not taken by a clearing waiter ahead of it |
| EventWalk.DocsSentenceFails | docs/architecture.md:167-168 | setting bit 0 with two waiters for it, the first clearing: both conditions hold then, and the second waiter stays linked and blocked |
| EventRuns.ReleasedIsRewarded | kernel/event.c:121-126 | a waiter the walk releases carries a nonempty part of what it asked for, all of it for wait-all |
| EventRuns.EventStep | kernel/event.c:89-232 | every action keeps: no parked waiter is satisfied, and every released one carries what it asked for |
| EventRuns.ClearOk | kernel/event.c:158-169 | clearing flags leaves no satisfied waiter asleep and no released one with less than it was given |
| Answers.EventAnswers | kernel/event.c:186-215 | a wait for nothing is refused; one whose condition holds reports all bits both set and asked for, nonempty, all of them for wait-all, and clears just these if asked to; else it times out at once or blocks with no bits in hand |
| Answers.SetAnswers | kernel/event.c:95-97 | setting no flags is refused and changes nothing; anything else succeeds |
| EventLedger.WalkTakesOnce | kernel/event.c:104-137 | a bit set before the walk is set after it or was taken by exactly one clearing waiter |
| EventLedger.BitStep | kernel/event.c:89-190 | every action of the kernel balances each bit: set before, or by it, means set after, taken once or cleared by hand |
| EventLedger.AskedRun | kernel/event.c:199-210 | the control block of every waiter, parked or released, says what its call asked for |
| MutexRuns.LockKeepsOwnedIffCounted | kernel/mutex.c:138-142 | a lock keeps "owned exactly while counted" if and only if the 32-bit counter has room |
| MutexRuns.OverflowLocksForever | kernel/mutex.c:138-142 | after the overflow the owner's unlock is refused with the mutex still held |
| MutexRuns.OthersAreLockedOut | kernel/mutex.c:132-147 | while a task has unmatched locks no other task's lock succeeds |
| MutexRuns.MutexStep | kernel/mutex.c:121-217 | every action that does not overflow the counter keeps ownership, count and no-lost-wake-up |
| Answers.LockAnswers | kernel/mutex.c:132-160 | a lock of a free mutex or of one's own answers OK and leaves the caller the owner; else it answers the timeout at once or blocks, and no object changes |
| Answers.UnlockAnswers | kernel/mutex.c:187-198 | an unlock succeeds if and only if the caller owns the mutex with a positive count; it takes one off and frees the mutex with the last; refused, it changes nothing |
| Inheritance.ParkInherits | kernel/mutex.c:149-158 | a task that blocks passes its priority on and the bounds hold |
| Inheritance.RecomputeInherits | kernel/mutex.c:79-100 | recomputing the owner's priority establishes the bounds whatever it was before |
| Inheritance.AcquireInheritsIff | kernel/mutex.c:132-136 | taking a free mutex keeps the priority bounds if and only if the new owner is at least as high as every valid waiter left behind |
| Inheritance.InheritStep | kernel/mutex.c:121-217 | with one mutex every action keeps: max(base, valid waiters) <= owner <= max(base, linked waiters) and everybody else at base, given the guard on acquirers |
| Succession.ReleasePicksTheBest | kernel/mutex.c:199-206 | the waiter an unlock releases is at least as high as every valid one |
| Runs.GuardedOwnerInherits | kernel/mutex.c:121-217 | the same bounds over every run, whatever the scheduling, in which each acquirer of the free mutex is at least as high as the valid waiters left behind and no owner exits |
| Preemption.SwitchSettles | kernel/sched.c:91-129 | a context switch that is taken leaves a running task at least as high as every waiter of the mutex on its way |
| Preemption.SettledCovers | kernel/mutex.c:132-136 | then its attempt on the free mutex leaves no higher waiter behind: the guard follows from the scheduler |
| Preemption.PreemptStep | kernel/mutex.c:176-217 | every action of the scheduling discipline keeps the bounds, the order of the waiters and that state |
| Succession.SuccessionStep | kernel/mutex.c:121-217 | every guarded action keeps the order of the waiters, and while the mutex is free a woken task at least as high as each parked one |
| WaitOrder.SortedStep | docs/architecture.md:187-191 | every action that changes no linked task's priority keeps every wait list of every object in priority order |
| WaitOrder.OthersSpareLinked | kernel/mutex.c:99-99 | only a mutex region can change the priority of a linked task |
| Runs.SortedRun | docs/architecture.md:187-191 | over every run in which no step changes the priority of a linked task, every wait list of every object stays in priority order |
| WaitOrder.OwnersSpareLinked | kernel/mutex.c:149-151 | while no mutex owner is linked in a wait list, no action changes the priority of a linked task |
| WaitOrder.OwnersStep | kernel/mutex.c:132-158 | and as long as no owner blocks in a wait list, no owner is linked in one |
| Timing.SettledStep | kernel/queue.c:44-47 | once a call's outcome is decided, no action but its own task's next region changes it, or anything the task was handed |
| Timing.ResumeReports | kernel/sem.c:130-139 | a timed-out call returns the timeout and a granted one returns OK or retries, for every blocking call |
| Answers.ResumeAnswers | kernel/queue.c:167-174 | the second region answers exactly the timeout, or what the task was handed: the token, its bits, its block, its word; a queue or mutex call goes round its loop |
| Timing.AsleepStep | kernel/task.c:248-248 | apart from a tick an action leaves a blocked task with its remaining ticks or releases it with OK |
| TickSplit.SplitUndoesAGrant | kernel/task.c:247-255 | with any action between the decrement and the stores the task times out, as after a whole tick unless the action released it with a grant, which is then undone |
| Timing.OnTimeRun | kernel/task.c:243-257 | over every run, n ticks after parking with d to wait: still blocked with d - n left and n < d, or timed out with n >= d >= 1, or granted |
| NotifyRuns.WaitOne | kernel/task.c:345-369 | the first region of a notification wait keeps flag and word in agreement and succeeds if and only if the word is not empty; it reports all of it but what is discarded on entry, and leaves what is not cleared on exit |
| NotifyRuns.ResumeOne | kernel/task.c:374-393 | the second region reports the timeout, or exactly the word, and leaves of it what is not cleared on exit |
| Answers.NotifyWaitAnswers | kernel/task.c:345-369 | with a notification pending a wait reports the word without the bits discarded on entry and leaves of it what is not cleared on exit; else it times out at once or blocks |
| Answers.NotifyAnswers | kernel/task.c:297-325 | a notification is refused for no bits only; else all its bits reach the word and a task waiting for one is ready |
| NotifyRuns.NotifyOne | kernel/task.c:305-317 | a notification of some bits succeeds and adds them all, of none is refused and changes nothing; it wakes the task exactly if that waits for one, and never leaves it blocked with bits in its word |
| NotifyRuns.NotifyStep | kernel/task.c:297-394 | every action keeps the accounting of notification bits of a task whose slot is not reused |
| NotifyRuns.FairStep | kernel/task.c:337-394 | no action adds a report that misses a bit owed or makes one up |
| SchedRuns.PickIsBest | kernel/sched.c:108-116 | the scan chooses the first ready task of highest priority in ring order after the old task |
| SchedRuns.ScanCoversRing | kernel/sched.c:94-116 | the scan visits every task of the ring exactly once |
| SchedRuns.SwitchPicks | kernel/sched.c:91-129 | a context switch runs exactly that task |
| SchedRuns.SwitchRunsTheBest | kernel/sched.c:91-129 | afterwards one task runs and no runnable one outranks it |
| SchedRuns.SchedStep | kernel/task.c:125-133 | every action keeps the ring one cycle over exactly the tasks of the table and only the current task running |
| Answers.SleepAnswers | kernel/sched.c:70-89 | a sleep of 0 returns at once, any other blocks the caller; no object changes |
| Lifetimes.CreateAnswers | kernel/task.c:57-141 | creation takes a fresh slot, else the first of a stopped task, and is refused if and only if there is neither; the new task is ready at its own priority with nothing pending, and no other slot changes |
| Lifetimes.FreshTaskIsNext | kernel/task.c:125-133 | a fresh task is the next one in scan order, the rest of which stays as it was |
| Lifetimes.ExitAnswers | kernel/task.c:266-273 | an exit stops the current task and changes no other task, no list and no object |
| Lifetimes.ExitIsFinal | kernel/sched.c:108-116 | over every run a task that exited stays stopped until its slot is given to a new one |
| SchedLocks.PendingStep | kernel/sched.c:97-102 | every action keeps the request flag equal to whether a deferred switch is owed |
| RoundRobin.OneSwitch | kernel/sched.c:93-125 | a switch runs the first of the top-priority runnable tasks in ring order and moves it to the end of the turn |
| RoundRobin.ChosenInTurn | kernel/sched.c:93-125 | the tasks chosen are those of the turn, in ring order after the current one |
| SchedSpec.OutermostAsks | kernel/sched.c:34-58 | n unlocks undo n locks; a switch requested meanwhile is kept by the inner ones and requested again by the outermost one alone, once |
| WorkRuns.EnterWaitOk | kernel/work.c:37-37 | the worker goes to sleep on a nonempty ring only while a submitter has still to notify it |
| WorkRuns.AnnounceOk | kernel/work.c:78-80 | a notification never leaves the worker asleep with a bit pending, wherever it is in its loop |
| WorkRuns.WorkStep | kernel/work.c:18-83 | every action of the kernel, the submitters and the worker keeps this |
| Rings.PushBack | kernel/work.c:70-73 | writing at the tail of a ring buffer appends to its contents |
| Rings.PopFront | kernel/work.c:24-26 | advancing the head removes the oldest entry |
| Rings.SlotsDiffer | kernel/trace.c:23-24 | entries less than the length apart fall into different slots |
| Tasks.WaitList.FindPlace | kernel/queue.c:7-15 | the scan stops behind every waiter of at least the given priority |
| Tasks.WaitList.FindTask | kernel/queue.c:58-76 | the search ends at the task or, if it is not linked, at the end |
| Heaps.SeparateIffBeside | kernel/queue.c:5-77 | the wait lists of a heap are separate (each a chain with its tail, no task in two) if and only if any one of them is a chain that shares no task with the others, and those are separate |
| Heaps.Push | kernel/queue.c:5-30 | an insertion into one list of a heap of separate lists leaves every other one a chain with the same tasks, and no task in two |
| Heaps.Pop | kernel/queue.c:32-51 | so does a pop, and the task it returns is in none of them |
| Heaps.Remove | kernel/queue.c:53-77 | so does a removal |
| Heaps.SetFlags | kernel/event.c:89-146 | so does the walk of setting flags |
| Queues.Queue.TailIsModulo | kernel/queue.c:133-135 | tail is (head + count) modulo the capacity |
| Queues.Queue.TrySend | kernel/queue.c:127-165 | the first region of a send on the heap is the specified one: contents, both lists, every control block and the outcome |
| Queues.Queue.EndSend | kernel/queue.c:167-174 | the second region of a send is the specified one |
| Queues.Queue.TryRecv | kernel/queue.c:192-230 | the first region of a receive is the specified one |
| Queues.Queue.EndRecv | kernel/queue.c:232-239 | the second region of a receive is the specified one |
| Mutexes.Mutex.TryLock | kernel/mutex.c:129-160 | the first region of a lock on the heap is the specified one, inheritance included |
| Mutexes.Mutex.HighestWaiter | kernel/mutex.c:88-97 | the scan finds the highest priority among the floor and the valid waiters |
| Mutexes.Mutex.EndLock | kernel/mutex.c:162-172 | the second region, with the owner's priority recomputed after a timeout, is the specified one |
| Mutexes.Mutex.Unlock | kernel/mutex.c:176-217 | the unlock is the specified one: refusal, recursion, and release of the best waiter |
| Sems.Sem.TryWait | kernel/sem.c:99-128 | the first region of a semaphore wait is the specified one |
| Sems.Sem.EndWait | kernel/sem.c:130-139 | the second region is the specified one |
| Sems.Sem.Post | kernel/sem.c:142-174 | the post is the specified one: direct handoff, else count up to the maximum, else refusal |
| Events.FlagsMatch | kernel/event.c:58-74 | the verdict and the matched bits are the specified ones |
| Events.EventFlags.Set | kernel/event.c:89-146 | setting flags is the specified fold after the or, and refused for no flags |
| Events.EventFlags.TryWait | kernel/event.c:171-215 | the first region of an event wait is the specified one |
| Events.EventFlags.EndWait | kernel/event.c:217-232 | the second region is the specified one |
| Pools.AlignWordIff | kernel/mempool.c:6-9 | the block size is rounded up to words if and only if the sum does not wrap |
| Pools.BlocksApart | kernel/mempool.c:120-123 | blocks do not overlap |
| Pools.Pool.constructor | kernel/mempool.c:104-127 | initialisation takes the aligned size as stride and threads every block onto the free list once, the last one first, all within the storage |
| Pools.Pool.PopFree | kernel/mempool.c:85-95 | the head of the acyclic free list is taken, null exactly when it is empty |
| Pools.Pool.PushFree | kernel/mempool.c:97-102 | a block of the pool is put in front and the chain through memory stays acyclic and counted |
| Pools.Pool.WriteHeld | kernel/mempool.c:97-102 | whatever a caller writes into a block it holds, the free list is untouched |
| Pools.Pool.TryAlloc | kernel/mempool.c:143-171 | the first region of an allocation is the specified one |
| Pools.Pool.EndAlloc | kernel/mempool.c:168-182 | the second region is the specified one |
| Pools.Pool.Free | kernel/mempool.c:185-215 | a freed block goes to the first valid waiter, else to the free list, as specified |
| Pools.AlignedStride | kernel/mempool.c:108-113 | for storage of a 32-bit address space that holds the blocks, the aligned size is the size rounded up to words |
| TaskTables.TaskTable.Tick | kernel/task.c:243-257 | the tick over the task table is the specified one for every control block |
| TaskTables.TaskTable.FindSlot | kernel/task.c:37-55 | a fresh slot while there is one, else the first stopped one, else none |
| TaskTables.TaskTable.Create | kernel/task.c:57-141 | creation fills the specified slot, links a fresh one behind the current task and leaves a reused one in its place; the ring stays one cycle over exactly the slots in use |
| TaskTables.TaskTable.Scan | kernel/sched.c:108-116 | the do-while scan over the `next` links ends and makes the specified choice |
| TaskTables.TaskTable.SchedUnlock | kernel/sched.c:41-58 | the outermost unlock asks for a switch exactly when one was requested meanwhile, and clears the request |
| TaskTables.TaskTable.Sleep | kernel/sched.c:70-89 | the current task is blocked for the ticks of its sleep; a sleep of 0 changes nothing |
| TaskTables.TaskTable.Notify | kernel/task.c:297-325 | a notification on the heap is the specified one |
| TaskTables.TaskTable.TryNotifyWait | kernel/task.c:345-369 | the first region of a notification wait is the specified one |
| TaskTables.TaskTable.EndNotifyWait | kernel/task.c:374-393 | the second region is the specified one |
| TaskTables.PickSnoc | kernel/sched.c:109-113 | scanning one more task replaces the choice exactly if it is ready and strictly higher |
| Timers.OneShotFires | kernel/timer.c:81-94 | a one-shot timer fires once, on tick P, and is then inactive |
| Timers.StoppedIsSilent | kernel/timer.c:64-75 | a stopped timer never fires |
| Timers.TimerList.Link | kernel/timer.c:7-16 | linking is idempotent: every timer is in the list once |
| Timers.TimerList.Init | kernel/timer.c:18-47 | a zero or endless period is refused; otherwise the timer is set up, inactive, and linked once |
| Timers.TimerList.Start | kernel/timer.c:49-62 | starting reloads and activates the timer and links it if it was not |
| Timers.TimerList.Tick | kernel/timer.c:77-98 | one tick counts every timer of the list once and runs exactly the callbacks that are due, each once |
| Timers.RestartIsFresh | kernel/timer.c:49-75 | a reload timer stopped in the middle of its period is silent, and started again fires n / P times in n ticks as if new |
| WorkRings.WorkRing.Enqueue | kernel/work.c:64-76 | a submission is appended while there is room, else it is refused and counted |
| WorkRings.WorkRing.Dequeue | kernel/work.c:18-28 | the oldest item is taken; none exactly when the ring is empty |
| WorkRings.WorkRing.Drain | kernel/work.c:39-49 | the inner loop of the worker, with arbitrary submissions between the items: it runs what was in the ring and all that is accepted meanwhile, once and in order |
| Traces.Trace.Record | kernel/trace.c:8-30 | recording appends to the history and keeps the ring holding its last entries |
| Traces.Trace.HoldsTheLast | kernel/trace.c:17-28 | read from the oldest slot on, the ring is the last min(total, length) entries in order |

## Left out

- Checks of null arguments and of parameters that an init function refuses (`-1`, `RTOS_ERR_INVALID`), the object registry (`kernel/object.c`), debug snapshots (`kernel/debug.c`) and assertions' fault records: they add only easy members. Initial states of objects are those a successful init leaves.
- Stack fill, guard and watermark checks, names, `switch_count`, `run_ticks`, the idle hook and `tick_count`: they influence no other part of the model.
- Startup, assembly, registers and the stack frame of a new task: of the processor port two things are used, the atomicity of critical regions with respect to interrupts and context switches, and that nothing which wakes tasks preempts the tick.
- Timing.FateIsFinal: the tick of one task is one step of the model, while `kernel/task.c:247-255` is in no critical region and `port/cortex_m4/port.c:42` gives SysTick the lowest priority. No interrupt above it exists as shipped: the vector table ends at SysTick (`startup/startup_stm32f4.c:41`). With one that wakes tasks, the outcome of a call and the conservation laws hold exactly while it does not release the task in the middle of its timeout, as `TickSplit.dfy` states; Runs.SemConserves and Runs.PoolConserves rest on the same assumption.
- `uint32_t` words of flags and notifications are sets of bit numbers; or, and, and-not are union, intersection and difference. Addresses and task handles are indices.
- The step layer keeps wait lists, the ring and the free list as sequences; their links, tails, aliasing and in-place update are in the imperative layer. The two layers meet region by region in the method contracts; all wait lists together on one heap are in `Heaps.dfy`, the rest of the objects one at a time.
- Inheritance.InheritStep: one mutex only, as the documentation says; inheritance through several mutexes is not modelled. The guard on acquirers is an assumption here and derived from the scheduler in Preemption.YieldingIsDisciplined.
- Runs.OwnerInheritsAlways: that a free mutex is not locked again before the switch its unlock requested is a condition on the tasks, met by itself when the processor port takes the switch at once; whatever else they do meanwhile, `rtos_sched_unlock` included, is covered. RelockScenario.RelockMissesAWaiter shows that the bounds need it.
- Runs.ListsStaySorted: an owner that blocks on another object and then inherits leaves that object's list out of order, as DisorderScenario.BlockedOwnerIsMisplaced shows; such runs are excluded, by the stated condition, which a caller can meet.
- Runs.NoBitIsLost: a slot given to a new task starts with an empty word, so bits sent to a stopped task are not accounted for beyond the reuse.
- Runs.MutexExcludes: an owner that exits keeps the mutex, and a new task in its slot inherits ownership, as in the code.
- Freeing a block that the caller does not hold, and storage too small for the pool, are excluded as in the interface description; a valid free is assumed.
- WorkRuns.WorkIsNeverStranded: submissions before the worker exists (a null handle) are excluded; a handler may do anything but exit.
- Timers.ReloadFires: the callback leaves timers alone; callbacks that start or stop timers inside the tick are not modelled.
- Progress while the scheduler lock is held across a block, and a bound on the total wait of queue and mutex calls that are woken and lose the race: the code gives none, since each retry waits the full timeout again.
- `rtos_tick_handler` only sequences the operations modelled here; task creation from an interrupt is excluded by the interface description.
