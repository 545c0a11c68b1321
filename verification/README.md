# Proofs about the scheduling and concurrency kernels of pushmi

This project models seven kernels of pushmi and proves what they guarantee for every interleaving,
every run or every re-entrant call tree. `dafny verify dfyconfig.toml` checks everything.

| area | modules |
|---|---|
| the entangled pair lock (`entangle.h`) | `Entangle`, `EntangleInvariant`, `EntangleTheorems`, `EntangleOperations`, `EntangleObject` |
| the time scheduler (`time_source.h`) | `TimeSource`, `TimeSourceFlags`, `TimeSourceWake`, `TimeSourceHistory`, `TimeSourceTheorems`, `TimeSourceProgress`, `TimeSourceObject` |
| the concurrent bulk reduce (`reduce_2.cpp`) and its sequential counterpart (`reduce_3.cpp`) | `BulkReduce`, `BulkReduceInvariant`, `BulkReduceTheorems`, `BulkReduceObject` |
| the trampoline (`trampoline.h`) | `Trampoline`, `TrampolineTheorems`, `TrampolineObject` |
| the pull-based flow (`from.h`, `for_each.h`) | `Flow`, `FlowTheorems`, `FlowDemand`, `FlowObject` |
| quiescence detection in `blocking_submit` (`submit.h`) | `Quiescence`, `QuiescenceTheorems`, `QuiescenceLives`, `QuiescenceObject` |
| chains of receivers (`receiver.h`, `transform.h`, `filter.h`, `tap.h`, `switch_on_error.h`) | `SignalChain`, `SignalTheorems`, `SignalClosedForms`, `SignalObject` |

Every area has the same layout. A module of plain functions says what one step, or one call, does to
the state; concurrent code is a machine whose steps are the single shared accesses (`entangle.h`,
`reduce_2.cpp`, `submit.h`) or the sections that hold the lock (`time_source.h`), re-entrant
single-threaded code is a set of mutually recursive functions. The theorem modules prove invariants
and whole-run properties of these functions. The `Object` module has the imperative code: a class with
the source's fields, updated in place, each method proved to change the state exactly as the function
of the same role, loops and re-entrant calls included. Some methods are only a few field updates that
others share: `CountDown` (the decrement in `stepDone`), `Enqueue` and `GiveBack` (the writes of `insert`
and of a queue's `done`), `Join`, `SetDone` (a guarded `done`), `FailTask` and `Touch` (a nested task's
error, an access to `lock_state`).

User code, clocks and executors are parameters or free choices of the environment: an executor may run
a task at any time, a clock may show any later time, a compare-exchange that is allowed to fail
spuriously may do so, functions passed to the library may throw where the source provides for it.

Results worth knowing:

- The protocol of `entangle.h`, whose own comment (line 69) says it was not thought through, is
  correct under sequential consistency: mutual exclusion, no access to a dead object, mutual
  pointers, no data race on `dual`, no deadlock and no livelock, with moves and destruction at any time;
  a finished move has handed over its end and a finished destruction has removed its object.
- The concurrent reduce signals exactly what the sequential driver signals over some order of the
  indices, and every order occurs. So it agrees with `std::accumulate` for all inputs if and only if
  `op(op(a, x), y) == op(op(a, y), x)`; `std::plus` is fine, and an associative operation need not be.
- When `blocking_submit` returns, no user code of the submission is running or to come, as long as kept
  nested executors are not used once the waiter's condition holds (`EscapeBreaks` is a run that does).
- But a nested task notifies after it has decremented the counter and without the mutex (lines 153-155
  and 164-166 of `submit.h`), so the waiter can return in between and `lock_state`, its local variable,
  is gone when the task notifies (`NotifyAfterReturn`). Once `done` is set this can happen if and only if
  `nested` is not zero or a task is about to notify (`LifetimeExact`); in such runs no other access is late
  (`OnlyNotifyFaults`).
- The trampoline defers work if and only if some path of the task tree has more than 100 delegations;
  otherwise the tasks start in preorder.
- A flow whose consumer never cancels delivers exactly the elements up to the first one that the callbacks
  so far have not asked for: the outcome is a function of the consumer alone, whatever nests or is deferred.
- From every state after `join` the time source can be brought to its end without more work.

## Model

| member | source | states |
|---|---|---|
| EntangleInvariant.InitInv | include/pushmi/entangle.h:221-228 | a pair made by `entangle` satisfies the protocol invariant |
| EntangleInvariant.StepInv | include/pushmi/entangle.h:95-204 | every atomic step of either thread, with any operation, move target or spurious failure, keeps the protocol invariant |
| EntangleTheorems.MutualExclusion | include/pushmi/entangle.h:142-164 | in no run are both threads between a successful `lockBoth` and the first store of `unlockBoth` on the pair |
| EntangleTheorems.HolderHasBothLocks | include/pushmi/entangle.h:95-140 | between a successful `lockBoth` on the pair and the first store of `unlockBoth`, moves and destruction included, the thread's end and the end's dual are both locked; until it rewrites pointers the dual points back; a visited dual is the other side's end |
| EntangleTheorems.WritesUnderBothLocks | include/pushmi/entangle.h:96-99 | every write of a `dual` happens with the written object and the object it points to locked |
| EntangleTheorems.LossOnlyOnWinner | include/pushmi/entangle.h:124-139 | the value 2 is only in the lower-address object, while its owner is inside `tryLockBoth` and the loser is back at its start |
| EntangleTheorems.MemorySafety | include/pushmi/entangle.h:95-204 | in every reachable state no step dereferences a dead object; a thread touches only its own objects and the other side's current end |
| EntangleTheorems.PointersMutual | include/pushmi/entangle.h:173-204 | outside critical sections all live `dual` pointers are mutual, and an end's `dual` is null exactly when the other end is gone |
| EntangleTheorems.NoDataRace | include/pushmi/entangle.h:88-109 | the plain field `dual` is never written by one thread while the other reads it, repeated reads included, or writes it; payloads are not used concurrently, and freed objects are not about to be touched |
| EntangleTheorems.DeadlockFreedom | include/pushmi/entangle.h:101-139 | while a thread is trying to lock, some thread inside an operation has a step that is neither a failed compare-exchange nor a spin read |
| EntangleTheorems.StuckMeansBusyPartner | include/pushmi/entangle.h:124-139 | a thread that spins does so only because the other thread is inside an operation and not itself spinning |
| EntangleTheorems.LockingStepProgress | include/pushmi/entangle.h:95-140 | an effective locking step gets both locks or uses up a bounded budget of the race, and never refills the other thread's |
| EntangleTheorems.NoLivelock | include/pushmi/entangle.h:95-151 | from any reachable state, two contending threads make at most 16 effective locking steps before one has both locks |
| EntangleOperations.DestroyRemoves | include/pushmi/entangle.h:198-204 | when a thread that began to destroy an object is idle again, for every interleaving, the object is gone from memory and from both threads, and with it the end if it was that; the thread's other objects stay |
| EntangleOperations.MoveHandsOver | include/pushmi/entangle.h:173-196 | when a thread that began a move is idle again, it has one more object, which is its end if the old one was, and the old object is unlocked with a null dual |
| EntangleOperations.VisitKeeps | include/pushmi/entangle.h:207-214 | a visit leaves the thread's objects and end as they were |
| EntangleOperations.LookReachesPartner | include/pushmi/entangle.h:207-210 | a visit that holds the locks reaches the other side's end, unless that has been or is being destroyed |
| EntangleOperations.OutOfTheLocks | include/pushmi/entangle.h:153-204 | a thread that has the locks is idle after at most nine more steps, none of which can be held up |
| EntangleOperations.OperationCompletes | include/pushmi/entangle.h:95-204 | after any run that leaves both threads idle, any operation on any owned object can be carried through in at most 18 steps |
| EntangleObject.Pair.constructor | include/pushmi/entangle.h:221-228 | makes two unlocked objects that point at each other |
| EntangleObject.Pair.CompareExchange | include/pushmi/entangle.h:100-115 | succeeds exactly on an unlocked object, which it locks |
| EntangleObject.Pair.TryLockBothStep | include/pushmi/entangle.h:95-140 | the accesses of `tryLockBoth`, in place |
| EntangleObject.Pair.UnlockBothStep | include/pushmi/entangle.h:153-164 | the accesses of `unlockBoth`, local store first, in place |
| EntangleObject.Pair.CriticalStep | include/pushmi/entangle.h:173-214 | the accesses of a visit, of the move constructor's body and of the destructor's body, in place |
| EntangleObject.Pair.Step | include/pushmi/entangle.h:95-214 | any scheduled step of either thread; an access to a dead object is recorded as a fault |
| EntangleObject.Pair.Execute | include/pushmi/entangle.h:95-214 | executing any schedule in place reaches the state the theorems speak about |
| TimeSource.TopWhen | include/pushmi/time_source.h:89-100 | the time of the heap's top is the time of one of its items and no later than any |
| TimeSourceFlags.SelectQueues | include/pushmi/time_source.h:251-270 | partitioning changes only the flags of the queues it visits, each as the predicate says, and no heap |
| TimeSourceFlags.SelectLists | include/pushmi/time_source.h:345-359 | after the partition a queue is kept exactly if its `pending_` is set and is ready exactly if its `dispatching_` is set; both lists keep each queue once |
| TimeSourceFlags.SelectEarliest | include/pushmi/time_source.h:263-267 | the new `earliest_` is no later than the top of any kept queue |
| TimeSourceFlags.SelectEarliestAttained | include/pushmi/time_source.h:263-267 | the new `earliest_` is the initial bound or the top of a kept queue |
| TimeSourceFlags.WorkerSelects | include/pushmi/time_source.h:338-359 | for any order in which the partition visits the deque, the due queues are dispatched, the others stay, the empty ones leave |
| TimeSourceFlags.SelectAnyOrder | include/pushmi/time_source.h:345-356 | any order that the partition may give to the kept and to the ready queues comes out of the selection for some visiting order |
| TimeSourceFlags.FlagsStep | include/pushmi/time_source.h:126-223 | every locked section of every thread keeps the placement of queues: flags, deque, ready list and receivers agree |
| TimeSourceWake.NoInsertAfterJoin | include/pushmi/time_source.h:413-417 | an insert allowed by the contract of `join` never finds `joined_` set |
| TimeSourceWake.CountedStep | include/pushmi/time_source.h:326-374 | every section keeps `items_` equal to queued plus in-flight items and keeps a notification pending when the exhausted source's worker waits |
| TimeSourceWake.AwakeStep | include/pushmi/time_source.h:330-347 | every section keeps the worker notified or `earliest_` no later than the top of every queue in the deque |
| TimeSourceHistory.HistoryStep | include/pushmi/time_source.h:153-163 | every section keeps the account of items: each is in the heap of its queue once, or popped once, in time order, and started by the receiver that popped it |
| TimeSourceTheorems.NeverTerminates | include/pushmi/time_source.h:144-146 | in no error-free run does a terminate guard of `insert`, `value` or `done` fire: `insert` finds `joined_` clear, a receiver finds its queue dispatching and not pending |
| TimeSourceTheorems.PendingFlagExact | include/pushmi/time_source.h:205-216 | a queue is in the deque once if its `pending_` flag is set and otherwise not at all; `dispatching_` excludes it |
| TimeSourceTheorems.OneDrainPerQueue | include/pushmi/time_source.h:257-269 | at most one receiver works on a queue at a time |
| TimeSourceTheorems.NothingStranded | include/pushmi/time_source.h:345-371 | a non-empty queue is in the deque of a worker that has not left, about to be dispatched, or being drained |
| TimeSourceTheorems.JoinIsSafe | include/pushmi/time_source.h:330-374 | `items_` is always the sum of the heap sizes and the items in flight; once `joined_` is set both are zero |
| TimeSourceTheorems.NoMissedWakeup | include/pushmi/time_source.h:330-347 | when an item of a queue in the deque is due, the waiting worker can run and its next section picks that queue |
| TimeSourceTheorems.NoLostJoin | include/pushmi/time_source.h:316-336 | a worker waiting on a joined, exhausted source has a notification and can run |
| TimeSourceTheorems.ShutdownProgress | include/pushmi/time_source.h:316-374 | after `join`, while no receiver is at work, the source has joined, or the worker can run now, or it holds an item and runs as soon as any queued item is due |
| TimeSourceTheorems.TimeOrder | include/pushmi/time_source.h:89-93 | over whole runs, an item inserted before a later-due item of its queue is popped starts before that item |
| TimeSourceTheorems.StartsAreSound | include/pushmi/time_source.h:153-163 | each start is of an inserted item, in its queue, not before its time, and is its only start |
| TimeSourceTheorems.ExactlyOnceWhenJoined | include/pushmi/time_source.h:330-374 | once `joined_` is set every inserted item has started exactly once |
| TimeSourceProgress.ReturnsWhenDrained | include/pushmi/time_source.h:153-155 | each loop test of a receiver either returns, and then nothing left in the queue is due in the window, or pops the queue's earliest item, which is due |
| TimeSourceProgress.WindowServed | include/pushmi/time_source.h:140-163 | in every run, when a receiver's `value` returns, every item of its queue inserted so far that is due in the window has started |
| TimeSourceProgress.ItemsAreInsertions | include/pushmi/time_source.h:403-420 | the items of a run are, in order, those of its calls of `insert`, with their queues and times |
| TimeSourceProgress.StartsOnTime | include/pushmi/time_source.h:157-159 | an item starts exactly in the section in which its receiver wakes up, not before its time |
| TimeSourceProgress.WorkerSleeps | include/pushmi/time_source.h:336-347 | after a selection no notification is left, and the worker sleeps exactly until the earliest item of the kept queues, at most a day |
| TimeSourceProgress.InsertNotifiesExactly | include/pushmi/time_source.h:428-432 | an insertion notifies the worker exactly if the queue then holds an item due before the worker would wake |
| TimeSourceProgress.LoopTestJoins | include/pushmi/time_source.h:330-374 | the worker's loop test sets `joined_` and exits exactly on a source with `done_` set and nothing left |
| TimeSourceProgress.ExhaustedJoins | include/pushmi/time_source.h:330-374 | in every run, a source with `done_` set and `items_` zero joins by at most three sections of the worker itself |
| TimeSourceProgress.CanAlwaysJoin | include/pushmi/time_source.h:325-374 | from every state after `join`, whatever is queued, in flight, dispatched or selected, some continuation without new work sets `joined_` |
| TimeSourceProgress.AnyWorkload | include/pushmi/time_source.h:325-433 | for any items in any queues some run inserts exactly these, joins, and has started each exactly once, none before its time |
| TimeSourceObject.Top | include/pushmi/time_source.h:97-100 | finds an item of minimal time |
| TimeSourceObject.Partition | include/pushmi/time_source.h:345-356 | one pass over the deque gives the flags, kept queues, ready queues and `earliest` of the selection |
| TimeSourceObject.TimeSourceShared.constructor | include/pushmi/time_source.h:288-293 | nothing queued, nothing done, `earliest_` a day ahead |
| TimeSourceObject.TimeSourceShared.Insert | include/pushmi/time_source.h:403-433 | `insert` in place, its terminate guard included |
| TimeSourceObject.TimeSourceShared.WorkerSection | include/pushmi/time_source.h:330-359 | the worker's loop test, wait test and selection in place |
| TimeSourceObject.TimeSourceShared.EnterSection | include/pushmi/time_source.h:142-155 | the start of the queue's `value`, with its terminate guard |
| TimeSourceObject.TimeSourceShared.DrainSection | include/pushmi/time_source.h:153-168 | pops the top item if it is due in the window, else returns, notifying when the heap is empty |
| TimeSourceObject.TimeSourceShared.FinishSection | include/pushmi/time_source.h:160-162 | counts the finished item and continues the loop |
| TimeSourceObject.TimeSourceShared.LeaveSection | include/pushmi/time_source.h:205-222 | the queue's `done`, with an arbitrary value for the top of an empty heap |
| BulkReduceInvariant.InvStep | examples/reduce/reduce_2.cpp:66-110 | every atomic step of the spawner or of a task keeps the invariant: counter, tally of indices, folds, slot, ending |
| BulkReduceTheorems.AccumulatorIsFold | examples/reduce/reduce_2.cpp:87-99 | in every reachable state the accumulator is the fold of the step function over the committed indices, each once, in commit order |
| BulkReduceTheorems.CompletesOnce | examples/reduce/reduce_2.cpp:63-110 | `pending` is the number of unfinished parties, zero only when every index has ended; nothing is signalled before that; a complete run has signalled one error thrown by a step if any step threw, otherwise the selected value and done, or the selector's exception as the one error; the exception slot has one writer, which has finished before anybody reads it |
| BulkReduceTheorems.Terminates | examples/reduce/reduce_2.cpp:87-110 | no party ever blocks, and every run over n indices has at most n(2n + 12) + 4 atomic steps, compare-exchange retries included |
| BulkReduceTheorems.RunIsSequential | examples/reduce/reduce_2.cpp:66-110 | a complete run signals what the sequential driver signals over some order of all the indices, failing runs included |
| BulkReduceTheorems.SequentialIsRun | examples/reduce/reduce_2.cpp:87-110 | every order of the indices is realised by some complete run |
| BulkReduceTheorems.OutcomesAreOrders | examples/reduce/reduce_2.cpp:44-116 | the outcomes of complete runs are exactly the sequential outcomes over all orders; a throwing init gives one error |
| BulkReduceTheorems.Refines | examples/reduce/reduce_3.cpp:34-44 | if any two indices can be swapped, complete runs signal exactly what `inline_bulk_target` signals, errors included |
| BulkReduceTheorems.FoldAccumulates | examples/reduce.h:30-32 | the fold of `acc = op(acc, *cursor)` over the indices is the accumulation over the elements |
| BulkReduceTheorems.ReduceAccumulates | examples/reduce/reduce_2.cpp:126-133 | with op(op(a, x), y) = op(op(a, y), x) every complete concurrent `reduce` signals the value of `std::accumulate` and then done |
| BulkReduceTheorems.LawIsExact | examples/reduce/reduce_2.cpp:126-133 | that law is necessary and sufficient for agreement on all inputs |
| BulkReduceObject.InlineBulkTarget | examples/reduce/reduce_3.cpp:26-46 | the sequential loop signals the selected fold over 0..n and done, or one error: the exception of init, of the first throwing step, or of the selector |
| BulkReduceObject.SharedState.constructor | examples/reduce/reduce_2.cpp:47-64 | the shared tuple starts with the initial accumulator, one pending party and no exception |
| BulkReduceObject.SharedState.SignalResult | examples/reduce/reduce_2.cpp:69-84 | signals the first exception if there is one, otherwise the selected accumulator and done, or the selector's exception as an error |
| BulkReduceObject.SharedState.SpawnerStep | examples/reduce/reduce_2.cpp:87-110 | the spawn loop's atomic steps, in place |
| BulkReduceObject.SharedState.CompareExchange | examples/reduce/reduce_2.cpp:98-99 | commits if the accumulator equals the value read, else takes the current value for the next round |
| BulkReduceObject.SharedState.TaskStepOf | examples/reduce/reduce_2.cpp:90-107 | the atomic steps of a task, in place |
| Trampoline.Body | include/pushmi/trampoline.h:154-155 | running a task leaves depth, owner and active count as they were and defers at most its descendants |
| Trampoline.Delegate | include/pushmi/trampoline.h:143-163 | a delegated submit on an owned thread restores the depth |
| Trampoline.Nest | include/pushmi/trampoline.h:215-240 | a nested submit on an owned thread returns with the queue empty and the depth restored |
| Trampoline.Drain | include/pushmi/trampoline.h:234-239 | draining terminates with the queue empty |
| TrampolineTheorems.ExactlyOnce | include/pushmi/trampoline.h:165-200 | the outermost submit of any finite task tree starts every task exactly once, leaves the queue empty, the depth zero, the thread unowned, and no terminate guard fires |
| TrampolineTheorems.SiblingsInOrder | include/pushmi/trampoline.h:143-163 | the children of every task start in submission order, however delegator, nester and deferral are mixed |
| TrampolineTheorems.NestWaits | include/pushmi/trampoline.h:217-239 | a nested submit returns after its own task and all deferred work has started, each exactly once |
| TrampolineTheorems.TakeoverRuns | include/pushmi/trampoline.h:165-200 | taking over a thread, whatever it ran before, runs the new submission's tasks, each once, and leaves the thread free and its state clean |
| TrampolineTheorems.StackBounded | include/pushmi/trampoline.h:148-156 | in any tree at most 101 task bodies plus one for each nester submission are active at once; with the delegator alone, 101 |
| TrampolineTheorems.ShallowTreesRunInPreorder | include/pushmi/trampoline.h:148-156 | in any tree, the queue is never used if and only if no path has more than 100 delegations, and then tasks start in preorder, nested as deep as the tree |
| TrampolineTheorems.DeferralFillsStack | include/pushmi/trampoline.h:148-156 | a tree that defers has had at least 101 bodies active, with the delegator alone exactly 101 |
| TrampolineObject.Thread.constructor | include/pushmi/trampoline.h:94-97 | a thread that no trampoline owns |
| TrampolineObject.Thread.Run | include/pushmi/trampoline.h:154-155 | a task body that submits its children in a loop |
| TrampolineObject.Thread.SubmitDelegator | include/pushmi/trampoline.h:138-201 | the delegator's submit in place, owned or not |
| TrampolineObject.Thread.SubmitNester | include/pushmi/trampoline.h:205-240 | the nester's submit in place: the repeat loop, the deferral, the drain |
| TrampolineObject.Thread.DrainQueue | include/pushmi/trampoline.h:234-239 | the drain loop in place, over work that defers more work |
| Flow.Loop | include/pushmi/o/from.h:113-116 | the task's loop keeps the delivered values equal to the elements before the cursor under any re-entrant demands |
| Flow.DoWork | include/pushmi/o/from.h:105-120 | a task that ends with the cursor at the end, or that answers a cancellation, has signalled done |
| Flow.Submit | include/pushmi/o/from.h:105-107 | a task submitted from inside the flow runs or is deferred, and depth and active count are restored |
| Flow.RunFlow | include/pushmi/o/from.h:149-159 | the flow terminates for every consumer with nothing deferred and all invariants kept |
| FlowTheorems.LoopConserves | include/pushmi/o/from.h:107-120 | no request is lost: requested = delivered + deferred, except at the end or after a cancellation |
| FlowTheorems.RequestsConserved | include/pushmi/o/from.h:100-121 | elements are delivered in cursor order, none twice, never more than accepted requests; uncancelled, exactly as many as accepted, or all |
| FlowDemand.CancelledExactly | include/pushmi/o/from.h:122-134 | a flow is cancelled exactly if the consumer cancelled in a callback that ran |
| FlowDemand.Backpressure | include/pushmi/o/from.h:100-121 | with R the sum of the positive requests in the consumer's callbacks that ran: every element is delivered in order and only while more were asked for than delivered, never more than R; uncancelled, exactly min(N, R) |
| FlowDemand.DoneByDemand | include/pushmi/o/from.h:117-134 | done is delivered at most once, exactly if the consumer cancelled or asked for something and has all elements |
| FlowDemand.FlowIsFunctionOfDemand | include/pushmi/o/from.h:100-121 | what an uncancelled flow delivers, accepts and signals is a function of the consumer's callbacks alone |
| FlowTheorems.DoneExactly | include/pushmi/o/from.h:117-134 | done is signalled at most once, and exactly if the consumer cancelled or made a positive request with the cursor at the end |
| FlowTheorems.CancelIsFinal | include/pushmi/o/from.h:122-134 | a cancelled flow delivers exactly the elements it had delivered when the consumer cancelled, then one done |
| FlowTheorems.CancelledIsDeaf | include/pushmi/receiver.h:276-296 | after a cancellation no demand of the consumer has any effect |
| FlowTheorems.FlowStackBounded | include/pushmi/trampoline.h:148-156 | at most 101 task bodies are active, whatever the consumer demands |
| FlowTheorems.ForEachDeliversAll | include/pushmi/o/for_each.h:48-69 | `flow_from` over any N piped to `for_each` delivers all N values in order, then exactly one done, on a bounded stack |
| FlowTheorems.ForEachPeak | include/pushmi/o/for_each.h:48-69 | for_each recurses one level for each element: N elements make exactly N + 2 bodies active at once, up to 101 |
| FlowObject.Producer.constructor | include/pushmi/o/from.h:80-90 | a producer at the first element, not stopped |
| FlowObject.Producer.Demands | include/pushmi/o/for_each.h:66-69 | the consumer's demands, made one after the other through its up receiver |
| FlowObject.Producer.UpValue | include/pushmi/o/from.h:100-121 | a request: ignored if not positive, else submitted as a task |
| FlowObject.Producer.UpDone | include/pushmi/o/from.h:122-134 | a cancellation: sets `stop` and submits the task that signals done |
| FlowObject.Producer.SubmitWork | include/pushmi/trampoline.h:146-162 | runs the task or defers it at the depth limit, in place |
| FlowObject.Producer.Run | include/pushmi/o/from.h:106-120 | the task's body in place |
| FlowObject.Producer.DeliverUpTo | include/pushmi/o/from.h:107-116 | the while loop in place, with re-entrant callbacks moving the cursor under it |
| FlowObject.Producer.DeliverNext | include/pushmi/o/from.h:114-115 | moves the cursor before it calls the consumer |
| FlowObject.Producer.DrainPending | include/pushmi/trampoline.h:234-239 | the drain loop over deferred tasks |
| FlowObject.Producer.Start | include/pushmi/o/from.h:149-159 | the whole flow in place |
| Quiescence.InvStep | include/pushmi/o/submit.h:127-228 | every access to `lock_state`, notifications included, keeps `nested` equal to active value frames plus nested tasks that have not decremented it, and `done` equal to the terminal signal having finished |
| Quiescence.NestedExact | include/pushmi/o/submit.h:127-202 | the count is exact in every reachable state, whoever submits |
| QuiescenceTheorems.QuiescentMeans | include/pushmi/o/submit.h:277-279 | the waiter's condition holds exactly when the sender has finished, all frames have left and all nested tasks have decremented the counter |
| QuiescenceTheorems.QuiescenceStable | include/pushmi/o/submit.h:277-279 | the condition is lost by exactly one kind of step: a submission with an executor used outside the frames and tasks it was given to |
| QuiescenceTheorems.StableWhileConfined | include/pushmi/o/submit.h:277-279 | from a quiescent state the condition holds throughout a run if and only if no such submission occurs while it holds |
| QuiescenceTheorems.NotifiedAtZero | include/pushmi/o/submit.h:153-155 | exactly the steps that bring the counter to zero are followed by a notification |
| QuiescenceTheorems.ReturnedMeansFinished | include/pushmi/o/submit.h:270-281 | in such runs, when the waiter has returned, all user code of the submission is over and the only steps left are notifications by nested tasks |
| QuiescenceTheorems.IdleReturns | include/pushmi/o/submit.h:277-279 | when only the waiter can move, its next two loads make it return |
| QuiescenceTheorems.OnlyNotifyFaults | include/pushmi/o/submit.h:150-170 | in such runs the only access that can come after `lock_state` is gone is a nested task's notification |
| QuiescenceTheorems.LifetimeExact | include/pushmi/o/submit.h:150-170 | once `done` is set, some such continuation accesses the dead `lock_state` if and only if `nested` is not zero or a task is about to notify |
| QuiescenceTheorems.NotifyAfterReturn | include/pushmi/o/submit.h:164-166 | a run in which a task notifies through a `lock_state` that is gone |
| QuiescenceTheorems.EscapeBreaks | include/pushmi/o/submit.h:127-131 | a run in which an executor kept from a value call submits after the waiter has returned: a task is left and `lock_state` is gone |
| QuiescenceLives.TaskLife | include/pushmi/o/submit.h:143-170 | in every run, a nested task that has decremented the counter was handed on, had its value function called unless the executor failed it, and had its done or error function called |
| QuiescenceLives.TaskWasRun | include/pushmi/o/submit.h:143-149 | a nested task whose completion has begun has run, or its executor has signalled an error to it |
| QuiescenceLives.FrameWasActive | include/pushmi/o/submit.h:190-197 | a value call that is over has incremented the counter and has called the user's value function |
| QuiescenceLives.DoneAfterUser | include/pushmi/o/submit.h:206-229 | `done` is set only after the user's done or error function was entered and has returned |
| QuiescenceObject.LockState.constructor | include/pushmi/o/submit.h:66-71 | not done, nothing nested |
| QuiescenceObject.LockState.SignalValue | include/pushmi/receiver.h:276-280 | a value call passes the guard until the terminal signal |
| QuiescenceObject.LockState.AdvanceFrame | include/pushmi/o/submit.h:190-197 | the increment before the value callback, the decrement after it, and, if that gave zero, the notification, as three accesses |
| QuiescenceObject.LockState.SubmitNested | include/pushmi/o/submit.h:127-131 | a nested submission is counted before it is handed on |
| QuiescenceObject.LockState.AdvanceTask | include/pushmi/o/submit.h:143-170 | a nested task's value and done, then the decrement, then, if that gave zero, the notification, as two accesses |
| QuiescenceObject.LockState.AdvanceTerminal | include/pushmi/o/submit.h:206-229 | the user's function runs first, then `done` is set under the mutex |
| QuiescenceObject.LockState.Test | include/pushmi/o/submit.h:277-279 | the wait's predicate, one load at a time |
| SignalTheorems.SinkCalls | include/pushmi/receiver.h:207-229 | a guarded final receiver calls its functions with the signals up to the first terminal or the first throwing value function, whose exception becomes the error |
| SignalTheorems.DoneLinkIgnores | include/pushmi/receiver.h:276-296 | a receiver whose `done_` is set ignores every call |
| SignalTheorems.LinkSet | include/pushmi/extension_points.h:258-297 | one signal to a stage's receiver passes on what the stage means, closes it on a terminal or an exception, and shows a tap's side effects that signal |
| SignalTheorems.LinkSetAll | include/pushmi/receiver.h:274-296 | for any call sequence, the next receiver gets the meaning of the stage and a tap's side effects get the signals up to the first terminal |
| SignalTheorems.ChainComputes | include/pushmi/extension_points.h:283-297 | for every chain and every call sequence, calls after a terminal included, the user's functions are called with exactly the meaning of the chain |
| SignalTheorems.TapComputes | include/pushmi/o/tap.h:36-50 | a tap's side effects are called with exactly the meaning of the stages before it |
| SignalTheorems.OneTerminal | include/pushmi/receiver.h:207-229 | the user's functions see values and then at most one terminal |
| SignalTheorems.FuseTransforms | include/pushmi/o/transform.h:90-99 | anywhere in a chain two transforms equal one by the composed function, exceptions included |
| SignalTheorems.FuseFilters | include/pushmi/o/filter.h:32-36 | anywhere in a chain two filters equal one by the short-circuit conjunction, exceptions included |
| SignalTheorems.TapTransparent | include/pushmi/o/tap.h:36-50 | a tap anywhere, even with throwing side effects, changes nothing downstream |
| SignalTheorems.SwitchReplaces | include/pushmi/o/switch_on_error.h:33-38 | anywhere in a chain the first error, signalled or thrown upstream, and all that follows are replaced by what the selected sender signals; the values before it stay |
| SignalTheorems.SwitchRecovers | include/pushmi/o/switch_on_error.h:33-38 | anywhere in a chain, after a transform whose function throws, the images of the values before the throw are kept and the exception selects the replacement |
| SignalClosedForms.SwitchKeeps | include/pushmi/o/switch_on_error.h:46-49 | where no error arrives, switch_on_error passes on all values and done |
| SignalClosedForms.TransformMaps | include/pushmi/o/transform.h:90-99 | anywhere in a chain, a transform passes on the images of all values, in order, and then the terminal |
| SignalClosedForms.TransformThrows | include/pushmi/extension_points.h:283-297 | a transform whose function throws passes on the images before the throw and the exception as the error, and nothing after |
| SignalClosedForms.FilterSelects | include/pushmi/o/filter.h:32-36 | anywhere in a chain, a filter passes on exactly the values its predicate keeps, in order, and then the terminal |
| SignalClosedForms.FilterThrows | include/pushmi/o/filter.h:32-36 | a filter whose predicate throws passes on what it kept before and the exception as the error |
| SignalClosedForms.TapSeesAll | include/pushmi/o/tap.h:36-50 | a tap's side effects are called with every value that reaches the tap, and then the terminal |
| SignalClosedForms.EndSeesAll | include/pushmi/receiver.h:207-229 | the value function is called with every value that reaches the end, and then the terminal's function once |
| SignalClosedForms.EndThrows | include/pushmi/extension_points.h:283-297 | if the value function throws, the error function gets that exception and nothing comes after |
| SignalObject.Receivers.constructor | include/pushmi/receiver.h:261-268 | a chain of receivers that have seen nothing |
| SignalObject.Receivers.Set | include/pushmi/extension_points.h:258-297 | `set_value`, `set_error`, `set_done` in place: an exception becomes an error on the same receiver |
| SignalObject.Receivers.SetAll | include/pushmi/o/switch_on_error.h:37 | a sender that signals a sequence into a receiver |
| SignalObject.Receivers.SetTapped | include/pushmi/o/tap.h:37-49 | one signal to a tap's side effects |
| SignalObject.Receivers.Value | include/pushmi/receiver.h:274-280 | `value` of the receiver at any position, its stage's function applied, exceptions passed to the caller |
| SignalObject.Receivers.Error | include/pushmi/receiver.h:281-290 | `error` of the receiver at any position, with its guard |
| SignalObject.Receivers.Done | include/pushmi/receiver.h:291-296 | `done` of the receiver at any position, with its guard |
| SignalObject.Submit | include/pushmi/o/transform.h:133-142 | signalling anything through a new chain, in place, calls the user's functions with the meaning of the chain |

## Left out

- Weak memory orders in `entangle.h`: every atomic access is sequentially consistent.
- `locked_entangled_pair` (its move assignment drops a held lock) and `shared_entangled` (a plain mutex).
- The payload of an entangled object; only accesses to it are modelled.
- Starvation in `lockBoth`: one thread may win every race; only deadlock and livelock are excluded.
- The `explicit entangled(T)` object that never gets a dual: the model starts with a pair.
- The error path of `time_source.h` (worker exceptions, the queue's `error`, `error_` in `insert` and `value`): it can bring `items_` to zero without raising `dirty_`.
- FIFO among equal times in the scheduler: the heap is not stable, so it does not hold.
- The scheduler's destructors, thread identity check and real clocks: the clock is any non-decreasing value, the 50 ms drain window an arbitrary `start`, since a queue's own clock may be anything.
- That an executor eventually runs a dispatched receiver or task: the environment may delay it for ever.
- TimeSourceProgress.CanAlwaysJoin: says that the source can be brought to its end; that it is, for every fair environment, is not stated, for the same reason.
- Wrap-around of `size_t` and `int` counters (`pending`, `items_`, `nested`, `dirty_`): they are unbounded here.
- BulkReduceTheorems.Refines: a step function that has thrown halfway through changing its own copy of the accumulator is a step that changed nothing, as the copy is discarded.
- Failure of `allocate_shared` and of the executor's `schedule` in `reduce_2.cpp`; only a throwing init takes the outer catch block.
- The trampoline's exception paths and its `recurse_t` overload; task bodies return normally.
- A global FIFO order of the trampoline: a deferred task can be overtaken by a later direct submission, so only sibling order is claimed.
- Flow.RunFlow: callbacks do not throw, the consumer makes no demands from its done callback, and the executor is the trampoline (on a multi-threaded one the cursor is unsynchronised).
- FlowTheorems.ForEachDeliversAll: the `pull` function object is the request it stands for; clearing it to break a reference cycle is not modelled.
- The started guards of `flow_receiver`: `set_starting` comes first by construction of the flow.
- Wake-up liveness of `blocking_submit`: the notifications of nested tasks do not hold the mutex and can be missed, so only the predicate, not the wake-up, is covered.
- QuiescenceTheorems.ReturnedMeansFinished: does not promise that `lock_state` is no longer used when the waiter has returned, because that is false; `LifetimeExact` says when.
- Quiescence.InvStep: a value that is no executor touches no counter and is not a step.
- SignalTheorems.SwitchRecovers: the replacement sender signals its sequence synchronously into the receiver it is given; a sender that keeps it for later is not modelled.
- Side-effect receivers of a tap without an error function abort the program in the source; here every final receiver has one, and error functions do not throw.
- Strands (their count of remaining items is unsigned and makes their own loop test always true), subjects and `share` (a late subscriber may miss the value, so there is no replay law), type erasure, concepts, property sets and the executors themselves.
