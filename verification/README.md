# Verified model of the mcast runtime

mcast is a C++ runtime for stackful coroutine services: worker threads share a run queue of
services, services exchange messages and synchronous calls, a timer thread drives a hierarchical
timing wheel, and a few lock-free or per-thread data structures and a small RPC codec sit
underneath. This project models the parts whose correctness depends on interleaving or on
arithmetic, and proves what they are for.

The models come in two layers. A state machine of pure steps (one step for each critical section
and for each unlocked write in between) carries the theorems, which are about every state of every
run, for any number of threads, services, timers, nodes or buffers. Beside it a class has the
mutable fields and methods of the original, and each method is proved to perform the step, or to
satisfy the specification, that the theorems speak about.

| file | content |
|---|---|
| `Scheduler.dfy` | workers, services, run queue, the park/switch/resume handshake, messages and calls as a transition system |
| `SchedulerInvariant.dfy`, `SchedulerSteps.dfy`, `SchedulerCalls.dfy` | its inductive invariant, kept by each step |
| `SchedulerTheorems.dfy`, `SchedulerHistory.dfy`, `SchedulerEffects.dfy` | what holds in every reachable state, what no step takes back, and what single steps achieve |
| `SchedulerFields.dfy` | for each field of a service, the run queue and the workers: which step changes it, and to what |
| `CallClosures.dfy`, `LateClosures.dfy` | calls whose closure is in the hands of user code, and a run that goes wrong |
| `System.dfy` | the methods of `System` over mutable fields, each keeping the scheduler's invariant |
| `TimerWheel.dfy`, `WheelPlacement.dfy`, `WheelInvariant.dfy`, `WheelTheorems.dfy` | the timing wheel, its slot arithmetic, its invariant, and its refinement of a plain set of deadlines |
| `TimerService.dfy` | the methods of `TimerService` over an array of lists, with masks and shifts, up to the loop of `Run` |
| `TimerDeletion.dfy` | deletions in three steps, any number of them in flight |
| `MpscQueue.dfy` | the multi-producer queue: push as three interleaved steps, node recycling, the queue object |
| `MemCache.dfy`, `ObjectSizes.dfy` | the object allocator across threads, and its size arithmetic |
| `CircularBuffer.dfy`, `Bits.dfy` | the growable ring over raw storage, bit operations, and `PowOfTwo` |
| `RpcFraming.dfy` | partial transfers on a socket, the frame header, and reading frames back |
| `RpcSessions.dfy` | client and server at the two ends of a connection |
| `Options.dfy`, `Runs.dfy` | optional values, and induction over runs |

Words of 32 and 64 bits are natural numbers with the wrap-around written out. Shifts, masks and
bitwise or are recursive functions on numbers, proved equal to division and remainder where the
code relies on it. History fields (`place`, `accepted`, `births`, `order`, `trace`, ...) record what
happened and are read by no step.

Six findings are stated as theorems about the code as it is:

- A timer added between the advance of the clock and the splice of the current slot, with a timeout
  that rounds to exactly 255 ticks, fires at once instead of 256 ticks later; no other timer is ever
  early or late (`WheelTheorems.DueTickIsDeadline`, with a run in `WheelTheorems.EarlyTimerRun`).
- `DeleteTimer` does not clear the slot of the timer it erases, and keeps the timer alive until it has
  returned. An erase goes through a dangling iterator exactly if another deletion has erased the node
  before (`TimerDeletion.DanglesExactly`). That happens when a second deletion locks the handle before
  the first has erased (`TimerDeletion.OverlapRun`), and also when it locks after the erase but before
  the first has returned (`TimerDeletion.LateLockRun`).
- `Push` does not reset the `next` pointer of its node, and every node that `Pop` returns still has
  one. Push a free node onto a queue at rest and pop everything: one more `Pop` then finds a node, and
  takes the size below zero, exactly if the pointer was not null (`MpscQueue.PushNeedsNullNext`, with a
  run in `MpscQueue.RecycledNodeRun`).
- With `CallMethodWithClosure`, responses stay matched with calls exactly if every closure is run while
  its call is outstanding or another response is pending; running none twice is enough
  (`CallClosures.RunMatchedExactly`, with a run that fails in `LateClosures.LateClosureRun`).
- The codec writes the second length byte from bit 16 and reads it from bit 8, so that the decoded
  length is the payload length modulo 256; frames read back exactly if every payload has 1 to 255
  bytes (`RpcFraming.ReadsBackExactly`).
- `AlignedObjectSize` rounds to a multiple of the alignment exactly if the alignment is a power of
  two, which its static assertion does not ask for (`ObjectSizes.AlignmentMustBePowerOfTwo`).

## Model

| member | source | states |
|---|---|---|
| `SchedulerTheorems.RunIsSafe` | src/System.cpp:173-238 | In every state of every run, with any number of workers and services: single ownership, no resume of a half-saved context, no lost wakeup, sticky stop, the code's own CHECKs, message delivery and call matching, all together |
| `SchedulerTheorems.InvSingleOwnership` | src/System.cpp:592-607 | A live service is held by at most one worker or queued exactly once with status Ready, never both; one that is in neither place is saved, off its stack and Blocked or Dead |
| `SchedulerTheorems.InvNoHalfSavedResume` | src/System.cpp:177-209 | The context a worker is about to jump into has had its registers saved |
| `SchedulerTheorems.InvWakeups` | src/System.cpp:497-516 | A Blocked service carries the wakeup signal exactly if an awaited event is pending, and has none pending once it is off its stack; after a stop request nobody stays parked on a mask with kServiceStop |
| `SchedulerTheorems.InvSelfChecks` | src/System.cpp:443-481 | The CHECKs of OnResume and of the wait and message loops hold, a wait always really switches, and the spurious-wakeup and wakeup_signal branches are never reached |
| `SchedulerTheorems.InvDelivery` | src/System.cpp:335-381 | Accepted messages are those handled, the one in hand and those queued, in order; a parked unsignalled service has an empty queue; a dead one has handled all it accepted |
| `SchedulerTheorems.InvCallMatching` | src/System.h:331-354 | A call that returned was dispatched by its destination, each call is at one position of one queue, and a response is pending only for the caller's one outstanding dispatched call |
| `SchedulerTheorems.DeadAnswersExactly` | src/System.cpp:297-376 | A dead destination has completed an accepted call exactly if it is message-driven; a caller still in such a call has its response, and one in a call to another service has none and never the signal |
| `SchedulerTheorems.OnlyLoopsAnswer` | src/Service.h:143-150 | Only message-driven services complete calls |
| `SchedulerHistory.RunContinues` | src/System.cpp:388-411 | Between any two states of a run accepted and handled messages only grow at their end, a stop request stays, and a dead message-driven service accepts and handles nothing more |
| `SchedulerFields.NextFields` | src/System.cpp:173-516 | For every step and every service, each field afterwards from the fields before: events, status, awaited events, wakeup signal, swap flag, stop flag, queue, message in hand, outstanding call, frame and saved registers, and that nothing else changes |
| `SchedulerFields.LaunchedExactly` | src/System.h:313-324 | A launched user thread is Ready and queued with kServiceStart; a message-driven service is Blocked on exactly kMessage and kServiceStop |
| `SchedulerFields.QueueExactly` | src/System.cpp:592-607 | Only GetReadyService takes from the run queue, from its front; a step appends at most the one service it makes Ready |
| `SchedulerFields.LedgerExactly` | src/System.cpp:173-210 | A step moves its own worker only, as its table says, and the calls recorded are those accepted, dispatched and returned |
| `SchedulerCalls.RunInv` | src/System.cpp:439-516 | The invariant behind these theorems holds in every state of every run |
| `SchedulerCalls.NextKeepsStruct` | src/System.cpp:177-238 | Each step keeps the ownership, handshake and message half of the invariant |
| `SchedulerCalls.NextKeepsCalls` | src/Service.h:143-150 | Each step keeps the half of the invariant that matches calls with responses |
| `SchedulerCalls.NextCallEffect` | src/System.h:331-354 | Any step but the end of a handler leaves calls alone, or returns the one call of its service by consuming its response, or sends one |
| `SchedulerSteps.WakeupKeepsStruct` | src/System.cpp:497-516 | A wakeup at any moment, inside the park/switch window too, keeps the handshake and the ownership of its target |
| `SchedulerSteps.StopKeepsStruct` | src/System.cpp:132-140 | A stop request keeps the handshake, whether or not the service is parking |
| `SchedulerSteps.ResumePrevKeepsStruct` | src/System.cpp:215-225 | Releasing the predecessor keeps the ownership, handshake and message half of the invariant |
| `SchedulerSteps.WaitLockedKeepsStruct` | src/System.cpp:439-469 | Parking on any mask keeps the invariant |
| `SchedulerSteps.LoopKeepsStruct` | src/System.cpp:337-376 | One pass of the message loop, its end included, keeps the invariant |
| `SchedulerSteps.SendKeepsStruct` | src/System.cpp:388-411 | Sending to a service in any state keeps the invariant |
| `SchedulerCalls.WakeupEffect` | src/System.cpp:497-516 | A wakeup adds its event to its target and changes no other service's events, messages or calls |
| `SchedulerCalls.CallSendKeepsCalls` | src/System.h:341-354 | Sending a call, accepted or not, keeps calls and responses matched |
| `SchedulerCalls.HandlerDoneKeepsCalls` | src/Service.h:143-150 | Completing a message keeps calls and responses matched |
| `SchedulerEffects.ResumePrevRequeuesExactly` | src/System.cpp:215-225 | The predecessor goes to the back of the run queue, where it was not before, exactly if it was signalled while Blocked |
| `SchedulerEffects.JumpEntersSavedAlone` | src/System.cpp:195-203 | The context a worker jumps into has been saved and is in no queue, and no other worker holds it or the one it leaves |
| `SchedulerEffects.ResumeFindsEvent` | src/System.cpp:226-235 | A resumed service is Running, awaits nothing, and finds an event it waited for |
| `SchedulerEffects.PickedIsReady` | src/System.cpp:592-600 | The successor chosen is Ready, off its stack, no longer queued, and never the waiting service itself |
| `SchedulerEffects.EventStays` | src/System.cpp:456-481 | In every run a pending event stays pending until its own service waits with a mask that has it |
| `SchedulerEffects.EveryWorkerMoves` | src/System.cpp:173-210 | In every reachable state every worker has a next step until its idle service has returned |
| `SchedulerEffects.AnyTime` | src/System.cpp:485-516 | The steps leave it open when others wake, interrupt, stop or send to a service, and on what it waits |
| `SchedulerEffects.LoopAwaits` | src/System.cpp:354-357 | A message-driven service that is Blocked with nothing in hand awaits exactly kMessage and kServiceStop |
| `SchedulerEffects.StopReaches` | src/System.cpp:132-140 | After a stop request the service accepts nothing, and if it is still Blocked on kServiceStop it is signalled and about to be requeued |
| `SchedulerEffects.StopWakesLoop` | src/System.cpp:132-140 | A stop request makes a message-driven service that waits for messages Ready and queued, or leaves it the signal if it is still being switched out |
| `SchedulerEffects.DeadIsOut` | src/System.cpp:369-381 | No wakeup brings a dead service back to the run queue or to life, and a message-driven one has handled all it accepted |
| `SchedulerEffects.CallIsOnlyOutstanding` | src/System.h:341-354 | An accepted call becomes its caller's only outstanding one, with no response pending |
| `SchedulerEffects.DispatchWakesExactlyCaller` | src/Service.h:143-150 | Completing a dispatched call posts kResponse to its caller, who waits for this very call, for the first time, and to nobody else |
| `CallClosures.RunMatchedExactly` | src/System.h:375-399 | Over every run, with user code running closures at any time and any number of times: responses are matched with calls in every state exactly if every closure is run while its call is outstanding or its caller has a response pending |
| `CallClosures.TimelyExactly` | src/System.h:387-387 | The same for a single closure: running it keeps responses matched exactly if it is in time |
| `CallClosures.OnceIsMatched` | src/System.h:375-399 | If no closure is run twice, responses are matched, however late closures are run |
| `LateClosures.LateClosureRun` | src/System.h:375-399 | A run in which a closure is run again after its call has returned, which leaves its caller with a response to no call |
| `SystemMethods.System.constructor` | src/System.cpp:240-265 | n workers, each in its own idle service, form a valid object |
| `SchedulerTheorems.InvSafe` | src/System.cpp:173-238 | Every state that satisfies the invariant, and so every valid System object, has all the properties of a reachable state |
| `SystemMethods.System.WakeupLocked` | src/System.cpp:497-516 | Updating the fields in the code's order performs the wakeup step; the result says whether the event was awaited |
| `SystemMethods.System.WakeUp` | src/System.cpp:492-495 | Keeps the object valid; an awaited wakeup requeues a parked service at once and leaves the signal for one still being switched out |
| `SystemMethods.System.PutReadyService` | src/System.cpp:602-607 | Any service but the idle one goes to the back of the run queue |
| `SystemMethods.System.StopService` | src/System.cpp:132-140 | Keeps the object valid; a first stop request sets the flag and posts kServiceStop, waking a service that awaits it; a second changes nothing; nobody stays parked, unsignalled, on kServiceStop |
| `SystemMethods.System.InterruptService` | src/System.cpp:142-153 | Keeps the object valid; a Blocked service that awaits kInterrupt gets it and is Ready and queued, or signalled while being switched out; otherwise nothing changes |
| `SystemMethods.System.OnIoReady` | src/System.cpp:568-577 | Keeps the object valid; a service that awaits kIO_Operation gets it with its poll events and is Ready and queued, or signalled while being switched out; otherwise nothing changes |
| `SystemMethods.System.SendMessage` | src/System.cpp:388-411 | Performs the send step; it succeeds exactly if the service is neither stopping nor just created |
| `SystemMethods.System.SendStringMessage` | src/System.cpp:413-422 | Keeps the object valid; accepted exactly if the service is neither stopping nor created, and then appended and, if awaited, woken for; what is refused changes nothing |
| `SystemMethods.System.LaunchService` | src/System.h:284-328 | Keeps the object valid; fails exactly in a stopped system or without a context; a user thread is queued at once, a message-driven service is parked on kMessage and kServiceStop |
| `SystemMethods.System.WaitLocked` | src/System.cpp:439-469 | Performs the parking step; returns at once exactly if stopped on a mask with kServiceStop or if an awaited event is pending, with those events |
| `SystemMethods.System.Wait` | src/System.cpp:433-481 | Keeps the object valid; a stop returns at once and leaves the events, a pending awaited event is returned and exactly the awaited ones are consumed, and otherwise the service blocks on exactly the mask with its events unchanged |
| `SystemMethods.System.WaitIo` | src/System.cpp:545-567 | Forgets the poll events of earlier waits; waits if the descriptor was added and otherwise returns, changing nothing else |
| `SystemMethods.System.WaitReturn` | src/System.cpp:470-479 | Always returns awaited events, and consumes those of the mask and no others: the spurious-wakeup branch cannot be reached |
| `SystemMethods.System.GetReadyService` | src/System.cpp:592-600 | The front of the run queue or the idle service; it is Ready, off its stack, in no queue any more, and not the waiting service itself |
| `SystemMethods.System.SwitchTo` | src/System.cpp:177-200 | Keeps the object valid; only an idle service can find itself as its successor, so that a wait always switches |
| `SystemMethods.System.Jump` | src/System.cpp:202-203 | The context entered had been saved and is nobody else's; the one left is saved from now on, and no other worker holds it |
| `SystemMethods.System.OnResumePrev` | src/System.cpp:215-225 | The predecessor is requeued exactly if it was signalled while Blocked |
| `SystemMethods.System.OnResumeCur` | src/System.cpp:226-235 | The service runs, awaits nothing and, out of a wait, finds an event it waited for |
| `SystemMethods.System.LoopStep` | src/System.cpp:337-376 | Takes the messages in order of acceptance, dies only when all accepted ones are handled, waits on exactly kMessage and kServiceStop, and never takes the signal branch |
| `SystemMethods.System.HandlerDone` | src/Service.h:143-150 | Leaves kResponse with exactly the caller of the dispatched call |
| `SystemMethods.System.CallSend` | src/System.h:341-347 | An accepted call is its caller's outstanding one, without a response yet; acceptance is as for any message |
| `SystemMethods.System.FinishMain` | src/System.cpp:290-297 | From the end of Main on the service, still Running and with no call outstanding, accepts nothing |
| `SystemMethods.System.Die` | src/System.cpp:298-315 | The service is in no queue, and no later wakeup brings it back to the queue or to life |
| `WheelTheorems.FiresExactlyWhenDue` | src/TimerService.cpp:92-113 | In every run with adds and deletes at any point, a timer fires only at its due tick, never after a deletion, and has fired once that tick is spliced unless it was deleted |
| `WheelTheorems.FiresOnce` | src/TimerService.cpp:99-108 | A splice takes no timer twice and none that has fired before |
| `WheelTheorems.FiresInOrder` | src/TimerService.cpp:95-112 | The callbacks of a tick are called in the order in which their timers came to the slot |
| `WheelTheorems.AlwaysReady` | src/TimerService.cpp:88-113 | The timer thread always has its next step, pending timers can be deleted, and timers added in any phase |
| `WheelTheorems.DueTickIsDeadline` | src/TimerService.cpp:18-22 | The due tick is the deadline, except exactly for a timer added between the clock's advance and the splice with a timeout of 255 ticks |
| `WheelTheorems.EarlyTimerFiresAtOnce` | src/TimerService.cpp:18-22 | Added in that window with 2545 to 2554 ms, before or during the cascades or the splice, a timer fires in the tick in progress, 256 ticks before its deadline, unless it is deleted, whatever else happens in the run |
| `WheelTheorems.EarlyTimerRun` | src/TimerService.cpp:18-22 | A concrete run in which that happens |
| `WheelTheorems.StepRefines` | src/TimerService.cpp:74-113 | Every step of the wheel is a step of a plain set of deadlines: adding, cancelling and firing what is due change it, ticking and cascading do not |
| `WheelTheorems.RunMonotone` | src/TimerService.cpp:9-36 | What was added, fired or deleted stays so, with its deadline and tick, for the rest of the run |
| `WheelTheorems.DeletedNeverFires` | src/TimerService.cpp:27-36 | A timer deleted while pending never fires later |
| `WheelTheorems.PendingOccursOnce` | src/TimerService.cpp:56-72 | In every run a pending timer is in exactly one list, exactly once, where its slot and pos point |
| `WheelTheorems.InlineExactly` | src/TimerService.cpp:12-16 | A timeout runs its callback inline exactly below 5 ms or in the last 5 ms of the 32-bit range; otherwise it is rounded to the nearest tick |
| `WheelPlacement.SlotForIsTrueSlot` | src/TimerService.cpp:38-54 | The 32-bit distance and masks find the slot of the true deadline, across a wrap of the clock too |
| `WheelPlacement.AssertHoldsUnlessWrapped` | src/TimerService.cpp:39-39 | The debug assertion of DoAdd holds exactly if the sum of clock and timeout does not wrap |
| `WheelPlacement.NewTimerPlaced` | src/TimerService.cpp:38-54 | A new timer's slot will be spliced at its due tick or cascaded before it, at every level |
| `WheelPlacement.BeginTickPlaced` | src/TimerService.cpp:127-129 | Advancing the clock leaves no timer behind |
| `WheelPlacement.CascadeMoves` | src/TimerService.cpp:74-84 | A timer of the slot being cascaded goes to a right slot that is neither the same one nor one of a level already cascaded |
| `WheelPlacement.CascadeLeaves` | src/TimerService.cpp:92-97 | Timers outside the cascaded slot stay rightly placed, whichever level comes next |
| `WheelPlacement.SpliceExact` | src/TimerService.cpp:99-108 | The spliced slot has exactly the timers due at this tick |
| `WheelPlacement.DueUp` | src/TimerService.cpp:83-97 | The next level is due exactly if this level's index has come round to zero |
| `WheelInvariant.AddTimerKeepsInv` | src/TimerService.cpp:9-25 | Adding a timer in any phase keeps lists, back-pointers, placements and fates |
| `WheelInvariant.DeleteTimerKeepsInv` | src/TimerService.cpp:27-36 | Cancelling keeps the invariant and touches no other timer |
| `WheelInvariant.EraseRemoves` | src/TimerService.cpp:33-34 | Erasing by position removes that node and no other |
| `WheelInvariant.AddAllKeepsLists` | src/TimerService.cpp:78-81 | Re-adding a whole list conserves its timers, with deadlines unchanged and back-pointers renewed |
| `WheelInvariant.TickSection2KeepsInv` | src/TimerService.cpp:74-84 | Cascading a level keeps the invariant |
| `WheelInvariant.SpliceKeepsInv` | src/TimerService.cpp:99-108 | Splicing detaches exactly the due timers and records each as fired at this tick |
| `WheelInvariant.RunInv` | src/TimerService.cpp:92-134 | The invariant of the wheel holds in every state of every run |
| `TimerServices.TimerService.constructor` | src/TimerService.h:93-96 | An empty wheel at any start time |
| `TimerServices.TimerService.AddSection1` | src/TimerService.cpp:56-63 | The masked index is the deadline modulo 256; the timer goes to the back with back-pointers to its node |
| `TimerServices.TimerService.AddSection2` | src/TimerService.cpp:65-72 | The same for the levels of 64 slots |
| `TimerServices.TimerService.GetSection2Index` | src/TimerService.cpp:86-90 | Shift and mask are division by the level's unit and remainder by 64 |
| `TimerServices.TimerService.DoAdd` | src/TimerService.cpp:38-54 | The comparison chain picks the slot of the specification |
| `TimerServices.TimerService.AddTimer` | src/TimerService.cpp:9-25 | Adds exactly one deadline to the plain set, or runs inline exactly when the timeout rounds to nothing |
| `TimerServices.TimerService.DeleteTimer` | src/TimerService.cpp:27-36 | A pending timer leaves the plain set for good; any other call changes nothing |
| `TimerServices.TimerService.EraseTimer` | src/TimerService.cpp:32-35 | Performs the deletion step on a timer that is in a list |
| `TimerServices.TimerService.MoveAll` | src/TimerService.cpp:78-81 | The loop over a list that is growing elsewhere ends, moves every entry, and clears only entries that have moved |
| `TimerServices.TimerService.TickSection2` | src/TimerService.cpp:74-84 | Performs the cascade step; the result is whether the index is zero |
| `TimerServices.TimerService.DetachAll` | src/TimerService.cpp:102-104 | Clears the back-pointers of the list's timers and no others |
| `TimerServices.TimerService.Splice` | src/TimerService.cpp:99-108 | Performs the splice step |
| `TimerServices.TimerService.Update` | src/TimerService.cpp:92-113 | One undisturbed tick fires and releases exactly the timers whose deadline it is, each once, and keeps all others |
| `TimerServices.TimerService.DetachDue` | src/TimerService.cpp:92-108 | Up to the callbacks: exactly the due timers are detached, each once |
| `TimerServices.TimerService.EndBatch` | src/TimerService.cpp:110-113 | The end of the batch releases its timers and leaves the pending ones as they are |
| `TimerServices.TimerService.Run` | src/TimerService.cpp:127-130 | Over any number of ticks each tick fires exactly the timers with that deadline, in order of deadlines, each once; timers with other deadlines stay |
| `TimerServices.TimerService.FetchAdd` | src/TimerService.cpp:127-129 | Advances the 32-bit clock and hands out the tick in progress |
| `TimerServices.TimerService.Cascade` | src/TimerService.cpp:93-97 | Up to four cascades leave the set of deadlines as it was |
| `TimerServices.StayOut` | src/TimerService.cpp:78-80 | No entry of the list being cascaded goes back to that list |
| `TimerDeletion.DanglesExactly` | src/TimerService.cpp:27-36 | With any number of deletions in flight, the iterator of a deletion that has not erased yet designates its timer's own node or is unused, except exactly when another deletion, which is over or still on its way out, has erased that node |
| `TimerDeletion.EraseEndangersExactly` | src/TimerService.cpp:32-34 | An erase makes exactly the other waiting deletions of its timer dangle, if the timer was pending |
| `TimerDeletion.LateLockDanglesExactly` | src/TimerService.cpp:28-30 | The handle can be locked for as long as any deletion of the timer is in flight, one that has erased included, and the new deletion dangles exactly if the node is erased |
| `TimerDeletion.OthersEndangerNone` | src/TimerService.cpp:27-36 | No other step, of the wheel or of a deletion, makes a waiting deletion dangle |
| `TimerDeletion.OverlapRun` | src/TimerService.cpp:27-36 | A run in which two deletions have locked one timer and the second to erase dangles |
| `TimerDeletion.LateLockRun` | src/TimerService.cpp:27-36 | A run in which the second deletion locks after the first has erased, and dangles |
| `TimerDeletion.ApartIsSafe` | src/TimerService.cpp:27-36 | If no two deletions of one timer are ever in flight together, from lock to return, no erase dangles |
| `TimerDeletion.FiresWhenDueAmongDeletions` | src/TimerService.cpp:27-36 | Timers fire at their due ticks among deletions in three steps as well |
| `MpscQueue.OutputsFollowExchangeOrder` | src/util/MPSCQueue.h:52-68 | Under every interleaving what Pop has returned is the beginning of the exchange order, each value once |
| `MpscQueue.HistoryGrows` | src/util/MPSCQueue.h:52-68 | The exchange order and the outputs only grow at their end |
| `MpscQueue.NoPushHoldsReturnedNode` | src/util/MPSCQueue.h:54-55 | No push in flight holds as old tail a node that Pop has returned or is returning |
| `MpscQueue.FreeNodesUntouched` | src/util/MPSCQueue.h:52-68 | No step of the queue writes to a node that belongs to a caller |
| `MpscQueue.ReturnedNodeIsFree` | src/util/MPSCQueue.h:64-67 | A node Pop returns belongs to the caller, who may recycle it |
| `MpscQueue.SizeIsExact` | src/util/MPSCQueue.h:77-79 | The size is started pushes less finished pops and never underflows; at rest it is the number of elements |
| `MpscQueue.PopFindsNodeExactly` | src/util/MPSCQueue.h:58-61 | Pop returns null exactly if the queue is empty or the push behind the head has not linked yet |
| `MpscQueue.EveryPushMoves` | src/util/MPSCQueue.h:52-56 | No push waits for another thread: its next step is always possible |
| `MpscQueue.CallersAreFree` | src/util/MPSCQueue.h:52-68 | Whatever pushes are in flight, free nodes can be recycled and pushed, and Pop takes a linked node |
| `MpscQueue.ReturnedNodeStaysLinked` | src/util/MPSCQueue.h:63-67 | A returned node still points to the new head |
| `MpscQueue.PushNeedsNullNext` | src/util/MPSCQueue.h:52-68 | In every run, pushing any free node onto the queue at rest and popping it empty delivers everything; one more Pop finds a node, and takes the size to -1, exactly if the node's next was not null |
| `MpscQueue.RecycledNodeRun` | src/util/MPSCQueue.h:52-68 | A run after which a free node has its next set, and pushing it takes the size to -1 |
| `MpscQueue.NextKeepsInv` | src/util/MPSCQueue.h:52-68 | Every step keeps the chain of live nodes with one gap for each unlinked push |
| `MpscQueue.MpscQueue.constructor` | src/util/MPSCQueue.h:43-43 | A queue around a stub whose next is null |
| `MpscQueue.MpscQueue.Register` | src/util/MPSCQueue.h:26-41 | A node object the queue has not seen, as its constructor leaves it, is free to be pushed |
| `MpscQueue.MpscQueue.BeginPush` | src/util/MPSCQueue.h:53-53 | Performs the counting step |
| `MpscQueue.MpscQueue.Exchange` | src/util/MPSCQueue.h:54-54 | Performs the exchange and returns the old tail |
| `MpscQueue.MpscQueue.Link` | src/util/MPSCQueue.h:55-55 | Performs the link step |
| `MpscQueue.MpscQueue.Push` | src/util/MPSCQueue.h:52-56 | The three steps in a row |
| `MpscQueue.MpscQueue.Pop` | src/util/MPSCQueue.h:58-68 | Null changes nothing; otherwise the old head comes back carrying the next value of the exchange order |
| `MpscQueue.MpscQueue.TakeHead` | src/util/MPSCQueue.h:63-67 | The update of the linked nodes once a successor has been found |
| `MpscQueue.MpscQueue.Empty` | src/util/MPSCQueue.h:77-77 | Whether tail and head are the same node |
| `MpscQueue.MpscQueue.Size` | src/util/MPSCQueue.h:79-79 | The exact count, never negative |
| `MpscQueue.MpscQueue.Clear` | src/util/MPSCQueue.h:70-75 | With no push in flight everything pushed is delivered, and size and queue are empty |
| `MemCache.EverySlotInOnePlace` | src/util/ObjectCache.h:196-272 | Conservation: under every interleaving each slot of each buffer is at exactly one place |
| `MemCache.OnlySlotsAnywhere` | src/util/ObjectCache.h:196-272 | Nothing else is ever in a cache, a list or a hand |
| `MemCache.LiveChangesExactly` | src/util/ObjectCache.h:196-272 | A get returns an object that is not live and makes only it live; a put takes back only its own; nothing else, the exit of a thread included, changes what is live |
| `MemCache.SlotsMoveExactly` | src/util/ObjectCache.h:112-272 | Over every step of every run, where each slot goes: a get takes the last object of a cache, a full cache goes to the end of the list whole and in order, the last listed cache goes to one thread |
| `MemCache.OnlyExitDiscards` | src/util/ObjectCache.h:112-120 | A slot is discarded exactly when the thread in whose cache it is exits |
| `MemCache.EveryThreadMoves` | src/util/ObjectCache.h:194-272 | No thread is ever stuck inside get or put; between them it can get, put any live object, or exit |
| `MemCache.TakenCachesAreFull` | src/util/ObjectCache.h:219-227 | A cache from the list is full and replaces an empty one, so the assertion holds and nothing is lost |
| `MemCache.BuffersArePrivate` | src/util/ObjectCache.h:229-248 | A buffer being carved belongs to one thread; retired buffers are carved out completely |
| `MemCache.ObjectsFitExactly` | src/util/ObjectCache.h:39-44 | A buffer is carved into exactly as many objects as fit |
| `MemCache.ObjectsDisjoint` | src/util/ObjectCache.h:71-73 | Distinct objects share no byte and lie inside their buffers |
| `MemCache.NextKeepsInv` | src/util/ObjectCache.h:112-272 | Every step keeps the invariant behind these theorems |
| `MemCache.MemCache.constructor` | src/util/ObjectCache.h:122-123 | An allocator without buffers, and threads without caches |
| `MemCache.MemCache.Get` | src/util/ObjectCache.h:194-247 | The object comes from the own cache, else from the listed cache, else from the own buffer, else from a new one after listing a full one, with exactly the fields of that path changed; and it was not live |
| `MemCache.MemCache.Put` | src/util/ObjectCache.h:249-272 | The object goes to the end of the own cache while that has room; else the full cache goes to the end of the list as it is and the object starts a new one; nothing else changes |
| `MemCache.MemCache.OnThreadExit` | src/util/ObjectCache.h:112-120 | The cache is gone and its objects are discarded; the buffer, the lists and every live object stay |
| `ObjectSizes.AlignedIsLeastMultiple` | src/util/ObjectCache.h:22-27 | For a power of two the result is the least multiple of the alignment that holds the object |
| `ObjectSizes.AlignmentMustBePowerOfTwo` | src/util/ObjectCache.h:22-27 | The result is a multiple of the alignment for every object exactly if the alignment is a power of two |
| `ObjectSizes.BufferSizeSuffices` | src/util/ObjectCache.h:29-37 | A buffer is whole pages with room for sixteen objects at least |
| `ObjectSizes.BufferSizeFitsInt` | src/util/ObjectCache.h:29-37 | The computation stays within int exactly up to an explicit object size |
| `ObjectSizes.DefaultConfigIsValid` | src/util/ObjectCache.h:274-283 | The default template parameters satisfy the static assertions, and every object offset is aligned |
| `CircularBuffers.CircularBuffer.constructor` | src/util/CircularBuffer.h:118-122 | An empty ring whose capacity is the least power of two that suffices |
| `CircularBuffers.CircularBuffer.GetIndex` | src/util/CircularBuffer.h:203-203 | Masking is the remainder by the capacity |
| `CircularBuffers.CircularBuffer.Front` | src/util/CircularBuffer.h:171-175 | The first element, from any wrapped position |
| `CircularBuffers.CircularBuffer.Back` | src/util/CircularBuffer.h:165-169 | The last element, where end - 1 wraps too |
| `CircularBuffers.CircularBuffer.PushBack` | src/util/CircularBuffer.h:143-163 | Appends to the FIFO sequence, doubling exactly when full |
| `CircularBuffers.CircularBuffer.PopFront` | src/util/CircularBuffer.h:177-183 | Removes the first element and destroys exactly its object |
| `CircularBuffers.CircularBuffer.Clear` | src/util/CircularBuffer.h:191-199 | Destroys every object and leaves only raw storage |
| `CircularBuffers.CircularBuffer.Grow` | src/util/CircularBuffer.h:226-242 | Keeps the sequence, from any wrapped position, in new storage; the old storage is released with its moved-from objects not destroyed |
| `CircularBuffers.CircularBuffer.MoveTo` | src/util/CircularBuffer.h:230-233 | The copying loop puts element i into slot i and leaves exactly the elements' old cells moved from |
| `CircularBuffers.WrapKeepsMod` | src/util/CircularBuffer.h:203-203 | Free-running positions may wrap at 2^64 without changing slots |
| `Bits.PowOfTwoIsLeast` | src/util/util.h:15-25 | For every x from 1 to 2^63 the result is the least power of two that is at least x |
| `Bits.PowOfTwoOverflows` | src/util/util.h:15-25 | For 0 and above 2^63 the result is zero |
| `Bits.MaskAndShift` | src/util/CircularBuffer.h:203-203 | Masking and shifting by powers of two are remainder and quotient |
| `RpcFraming.TcpConnection.Read` | src/TcpConnection.cpp:10-33 | Whatever the chunks, the buffer receives the next bytes of the stream in order, all of them exactly on success; else the first error, failed wait or empty receive ends the call, gives its status, and nothing behind it is used up |
| `RpcFraming.TcpConnection.Write` | src/TcpConnection.cpp:58-82 | Whatever the chunks, a prefix is sent in order, all of it exactly on success; else the first error or failed wait ends the call, gives its status, and nothing behind it is used up |
| `RpcFraming.ReceivingEnds` | src/TcpConnection.cpp:10-33 | How many outcomes a Read uses up, which one ends it and with what status |
| `RpcFraming.SendingEnds` | src/TcpConnection.cpp:58-82 | The same for Write, where an empty transfer is tried again |
| `RpcFraming.NoiseIsIrrelevant` | src/TcpConnection.cpp:16-30 | Interruptions and waits for readiness change neither the result nor the bytes moved |
| `RpcFraming.ChunksAddUp` | src/TcpConnection.cpp:16-30 | On an open connection a call succeeds exactly if the chunks add up, whatever they are |
| `RpcFraming.LastingSucceeds` | src/TcpConnection.cpp:10-33 | On a connection that stays open and ready for n chunks both calls move n bytes, even one at a time |
| `RpcFraming.DecodedLength` | src/RpcCodec.cpp:61-78 | The length read from a written header is the payload length modulo 256 |
| `RpcFraming.DecodeFrame` | src/RpcCodec.cpp:7-32 | What the reader makes of any written frame, whatever follows it |
| `RpcFraming.ReadsBackExactly` | src/RpcCodec.cpp:7-78 | A sequence of frames reads back as written exactly if every payload has 1 to 255 bytes |
| `RpcFraming.RpcCodec.WriteMessage` | src/RpcCodec.cpp:61-78 | Sends exactly the frame, or fails or aborts without sending |
| `RpcFraming.RpcCodec.ReadMessage` | src/RpcCodec.cpp:7-32 | Over any chunks the outcome is what decoding the stream gives: a message only if its first byte is the wanted type, a type error exactly if not; a transport error strikes only inside the message, with the status of that transfer, and not at all on a connection that lasts |
| `RpcSessions.CallMethod` | src/RpcChannel.cpp:55-69 | Over any chunks a reply is the handler's answer to what it heard, each cut to its length modulo 256, and both went over as frames of types 1 and 2; the two ends stay in sync exactly if neither was cut; and there is a reply if the handler answers and the connections last |
| `RpcSessions.Session` | src/RpcServer.cpp:108-135 | Over one connection the k-th reply is the answer to the k-th request as long as requests and answers have 1 to 255 bytes, and all are answered if the connections last |

## Left out

- `Service::Yield`: it switches out without making the service Ready or Blocked, and is not a step of the scheduler.
- Liveness, fairness and termination of calls; `System::Start`, `Stop` and `StopAllService`; thread joining; the `OnServiceStart` and `OnServiceStop` hooks.
- Weak memory: atomics are sequentially consistent and critical sections atomic.
- The context switch itself: a jump is one step that saves one context and enters another; stacks are not part of this model.
- Service lookup (`FindService`, `AddService`, `RemoveService`, handles): any launched service may be woken, stopped or sent to at any time, dead ones included.
- `CallMethod` and `CallMethodWithClosure` from threads that are not services (condition variable).
- CallClosures.RunMatchedExactly: a call by `CallMethod` appears as one whose closure is run once, just before its handler returns; that the dispatcher does so is in SchedulerCalls, not here.
- Sleeping, waiting for I/O and signals are waits with arbitrary masks, and their wakers arbitrary wakeups, so that what a wait returns is covered but not why. Only call closures send kResponse, and service code waits for kMessage and kResponse only inside the message loop and `CallMethod`. Sleeps below 5 ms, whose callback would run under the service's own mutex, are excluded.
- SystemMethods.System.WakeupLocked: a service's context is a value in a map of the system object rather than an object of its own, and so it is in all methods of that class; updates to its fields are in the code's order, but aliasing between contexts is not modelled.
- SystemMethods.System.OnIoReady: the poll events are recorded, but what WaitIO makes of them after its wait is not modelled.
- MessageDriven services are method-call services; other subclasses' handlers are not part of this model.
- WheelInvariant.DeleteTimerKeepsInv: takes obtaining the timer from its handle and erasing its node as one step; the steps of a deletion are in TimerDeletion, where a run ends before an erase by a dangling iterator, whose effect is undefined.
- TimerServices.TimerService.DoAdd: has the release behaviour, which is right when the 32-bit clock wraps; the debug assertion then fails (WheelPlacement.AssertHoldsUnlessWrapped).
- TimerServices.TimerService.Run: ticks without callbacks that add or delete timers; with them the runs of the transition system apply.
- The tick count in `TimerService::Run` and real time; `SetCurrentTime`, which only a test uses to jump the clock.
- MpscQueue.MpscQueue.Pop: values are integers, and a moved-from value keeps its value.
- MemCache.MemCache.Get: runs without another thread between its steps; the interleaved steps are those of the transition system. The unlocked emptiness check has an arbitrary result.
- `MemCache::singleton` and destruction at process exit; constructors and destructors of the cached objects; alignment of the buffers themselves.
- CircularBuffers.CircularBuffer.PushBack: needs fewer than 2^63 elements, as the doubled capacity would not fit in 64 bits and the assertion in the code would fail.
- `CircularBuffer` iterators and `IsPowOfTwo`, which do not do what their names say; `Queue.h`, whose `Front` does not cross a block boundary as `Pop` does.
- RpcSessions.Session: a request is written, answered and read before the next one; protobuf, service and method names, and the codec object that the sessions of one server share are not modelled.
- Sockets, epoll, acceptors, connectors and logging: a socket is a stream with a script of outcomes. Status texts are not modelled, and payloads are opaque bytes that are not parsed.
- `ReadSome`, `ThreadSafeQueue`, `BlockingQueue`, `ThreadPool`, `Status`, `Result` and address parsing: they would only add easy members. The run queue is a sequence.
