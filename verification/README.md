# A verified model of Threaded FFI

Threaded FFI lets Pharo code call C functions on a worker thread and lets C code call back into the image. This
project models the parts where several participants have to agree on what is going on, and proves what they may rely
on.

## What is modelled

**The callout/callback protocol.** `Protocol.dfy` is a state machine over any number of runners that share one queue
of pending callbacks. A step is one action of one participant: an iteration of `worker_run`, a C function returning or
calling back on the worker's own thread, a callback entered by a foreign thread or by the worker of another runner,
the enqueueing of an entered invocation, such a thread getting past its private semaphore, the callback process
reading and pushing an invocation, a block ending, one pass through the critical section of `returnCallback:`, and the
pop and `signalAll` after it. A runner has its native callback stack, the invocations that were pushed there and are
not queued for the image yet, its queue of tasks, the C stack of its thread (functions, nested `worker_run` loops, and
the wait inside a callback of another runner, during which the worker serves no task), and the image stack with the
phase of each callback process. The moment in which the native stack is popped and the image stack is not is a phase
of its own, `Returning`.

- `StackAgreement` - the two stacks, and what the guard of the primitive means. In every run the native stack holds
  the image stack and everything that is on its way there, each once; when invocations are queued in the order of
  their pushes, in exactly that order. On a runner that only its own thread enters, they always are.
- `Frames` - counting the C frames of a worker, with no hypothesis on the run.
- `FrameMatching`, `ExactMatching` - which nested loop a `CALLBACK_RETURN` ends. `worker_run` does not look at the
  invocation a return belongs to, so it can end the loop of another one. The condition under which it cannot is exact,
  and there is a concrete run in which it does.
- `EventLaws`, `ValueReading` - what a run shows is said twice, by the step and by the states before and after it, and
  both agree. A function reads the return holder of the frame that is left; when that is its own is exact, and a run
  is constructed in which a function reads a holder that nothing was written to.
- `QueueOrder` - first in, first out over every run: one queue serves the callbacks of all runners, oldest first, and
  each worker does what it is asked for in the order of the asking.
- `ForeignCallbacks` - invocations entered on other threads: they resume once, after their own return, with the value
  of their own block.
- `ReturnDrain` - the retry loop of `returnCallback:` returns everything, in reverse order, in bounded work.
- `CallbackPhases` - one callback at a time: when it is let go, who is woken and when, the critical section, and that
  nothing else holds anybody up.
- `EntryOrder`, `StallCondition` - `callbackFrontend` holds nothing between the push and the enqueueing, so entries
  can cross there, and then the newest callback of the image can wait for ever. As long as the stacks agree this is
  possible exactly when two invocations of a runner are between the two statements; for a runner that calls out on
  itself only the exact condition is given for every state of every run, crossed or not.
- `CallGraph`, `Ages`, `Quiescence`, `Deadlock` - without new entries and callouts the whole system comes to rest in a
  bounded number of steps. Whether anything can be left then depends on which runners call each other: a worker inside
  a callback of another runner takes no task, not even the returns of its own runner. If no cycle of calls between
  runners goes through such a callback, nothing is left: no callback, no frame, no waiting process. If one does, a run
  is constructed that ends in a deadlock.
- `CallResults` - the callouts of any run: each is in one place at every moment, and its process reads what its own
  function has returned.
- `ClearValues` - in a run that is clear in the sense of `FrameMatching` everybody reads the value meant for him,
  however many processes call.
- `ValueFlow`, `NestedCalls`, `RefinementViews`, `Refinement` - under a discipline on who calls, everything together
  is a synchronous machine of nested calls and returns. Callbacks from foreign threads may come at any time, as long
  as their blocks do not call out on the same runner.
- `CallTrees` - the runs of that machine are exactly the traversals of trees of calls: every call and every block runs
  from its beginning to its end with everything it calls in between.
- `SameThread` - the runner that shares the VM thread and leaves a callback by a jump.
- `RunnerObjects` - the objects themselves, as classes: the worker with its linked callback stack, its queue and its
  loop, the image's `TFRunner` with `executeCallback:` and `returnCallback:`, the invocation, and `signalAll` as a
  loop. Each method is tied to the step function of `Protocol`, so the theorems are about these fields.

**The thread-safe queue.** `TaskQueue` is the linked list as a class that refines a sequence. `QueueInterleaving`
takes the same code apart into single shared accesses (wait, unlocked read of `first`, unlocked read of the element,
lock, write, unlock, free, signal) over an explicit heap, with any number of producers. `TwoConsumers` proves that it
is linearizable if and only if at most one thread takes. `QueueMemory` says which nodes are in the heap at every
moment, so that nothing leaks, that a put links the element it was called with, and that nobody gets stuck.

**Semaphore pool and asynchronous calls.** `Pool` holds `TFPool` as a class with its array and cursor; `PoolLending`
its guarantees over any run, and its exact size. `AsyncCall` is the handshake of any number of processes with workers
that finish tasks in any order; `HandshakeLaws` tells the life of one call, and when a process sleeps; `PooledCall` is
`executeOn:` as an object. `EndToEnd` runs the protocol and one handshake for each runner together: the guards are
those of the code, where a process only sees its semaphore, and it is proved that no step is ever refused and that the
whole is a run of the protocol. `CallProgress` says what a process can do at every moment, `PooledRest` that it comes
to rest, with every semaphore back in its pool.

**The callout compiler.** `CalloutIR` is the intermediate code and its interpreter, in which every message send is
answered by an arbitrary function of everything sent before. `CalloutCompiler` is the code for a signature and,
separately, the direct meaning of a call; `CalloutCorrectness` proves them equal for all signatures; `CalloutEvents`
says what a run shows to the outside; `CalloutEcho` sends values through a callout and back; `JoinPoints` is about
stack heights over all control paths and runs; `CalloutBuilder` is the builder, as loops that append to an object.

**Structure layout.** `StructLayout` compares the layout of a declared structure with the layout of its flattened
description, under the rule of section 6.7.2.1 of C11 and section 3.1.2 of the System V AMD64 psABI, which is itself
stated field by field.

Check everything with `dafny verify dfyconfig.toml`.

## Assumptions

- Shared accesses are sequentially consistent; a push or pop of a callback stack is one step.
- Where a theorem speaks of orderly runs, invocations of the runner are queued for the image in the order of their
  pushes. A lock around the two statements of `callbackFrontend` would ensure it; without callbacks from foreign
  threads it needs no lock (`StackAgreement.OwnThreadIsOrderly`). The code itself does not ensure it.
- In `returnCallback:`, leaving the critical section and starting to wait are one step. A wait that starts after the
  `signalAll` it should have seen would be lost.
- Green processes are not terminated while they wait, and the session does not change in the middle of a call.
- A C function may return at any time, call back on its own thread, or call a callback of another runner and wait;
  other threads may call back at any time. Any process may issue callouts when it is not waiting for one.
- Opal binds `jumpAheadTo:` to the next matching `jumpAheadTarget:`. The UFFI hooks are abstract: `emitArgument`
  pushes one value, `emitReturnArgument` leaves the stack alone, `emitReturn` answers the top.

## Where code and comments disagree

- The comments of `executeCallback:` and `returnCallback:` (src/ThreadedFFI/TFRunner.class.st:66-72 and 133-137) say
  that a callback that returns in the wrong order raises an exception. The code waits and tries again; the model does
  too.
- The comments of the queue (plugin/src/queue/threadSafeQueue.c:81-110) say that only one process may modify it at a
  time. `take` reads the first node and its element before it locks; the model does too.
- The comment in plugin/src/callbacks/callbacks.c:22-23 says that the callback stack makes callbacks return in order.
  It does for the stacks, but not for the nested loops of a worker: see `ExactMatching.AnotherLoopIsEnded`; and when
  entries cross, some callbacks do not return at all: see `EntryOrder.DrainCondition`.

## Model

| member | source | states |
|---|---|---|
| StackAgreement.ReachableInv | plugin/src/callbacks/callbacks.c:14-33 | In every reachable state of any number of runners, the native stack holds the settled image stack and everything pushed that is not there yet, each once, and live invocations are distinct; whatever order entries are queued in. |
| StackAgreement.StacksAgree | plugin/src/callbacks/callbackPrimitives.c:210-223 | After every orderly run the native stack is the image stack, then the invocation in flight, the pending ones of the runner and those between push and enqueueing, in this order; the only exception is one already returned image top inside the critical section. |
| StackAgreement.GuardMeansNothingComing | src/ThreadedFFI/TFRunner.class.st:148-152 | After every orderly run, given a match with the image top, the primitive answers true if and only if nothing of the runner is in flight, pending or between push and enqueueing. |
| StackAgreement.InvStep | plugin/src/callbacks/callbacks.c:24-29 | Every step of every participant, push and enqueueing being two steps, keeps the contents of all native stacks. |
| StackAgreement.OrderedStep | src/ThreadedFFI/TFRunner.class.st:148-161 | Every orderly step keeps the order of the two stacks, and a waiting image top waits for something still to come. |
| StackAgreement.OneAtATimeIsOrderly | plugin/src/callbacks/callbacks.c:24-29 | A run in which at most one invocation of the runner is ever between push and enqueueing is orderly. |
| StackAgreement.OwnThreadIsOrderly | plugin/src/worker/worker.c:60-69 | Every run without callbacks from foreign threads on the runner is of this kind. |
| Frames.FramesConserved | plugin/src/worker/worker.c:120-156 | In every reachable state, nested loops on the C stack are as many as own-thread entries of the callback stack plus queued returns without semaphore; functions and loops alternate; the outermost `worker_run` has not returned. |
| Frames.NullReturnFindsALoop | plugin/src/worker/worker.c:131-145 | When the worker takes a return without semaphore there is a nested loop for it to end. |
| FrameMatching.ReturnEndsItsLoop | plugin/src/worker/worker.c:55-58 | In a run where each own-thread return finds no callout queued or executing above its frame, each return ends exactly the loop of the invocation it was created for. |
| FrameMatching.ClearIsInnermost | plugin/src/worker/worker.c:43-46 | Under that condition, the loop of the returned invocation is innermost and no other own-thread return is queued. |
| FrameMatching.MatchedStep | plugin/src/worker/worker.c:120-156 | Every step that satisfies the condition keeps own frames equal, in order, to own stack entries plus the return on its way. |
| ExactMatching.ExactCondition | plugin/src/worker/worker.c:126-145 | In every reachable state whose loops are still those of their invocations, no continuation whatever lets an own-thread return end another loop if and only if it satisfies the condition, or the worker never comes back from a callback of another runner that it is in. |
| ExactMatching.ExactAtHome | plugin/src/worker/worker.c:126-145 | When the worker is not inside a callback of another runner, the condition alone is exact. |
| ExactMatching.NotClearIsSpoiled | plugin/src/worker/worker.c:126-145 | Where the condition fails and the worker can come back, a continuation made of loop iterations and C functions that call back ends the loop of another invocation. |
| ExactMatching.AnotherLoopIsEnded | plugin/src/worker/worker.c:126-145 | A reachable state in which the worker is about to end the loop of invocation 1 by the return of invocation 0. |
| EventLaws.EventsAreChanges | plugin/src/worker/worker.c:126-145 | In every reachable state a step shows at most one event of a runner, and exactly the one by which the states before and after it differ: a callout newly queued, a frame opened or left, a holder newly written, a process that waits no more. A function that goes on is the one whose frame is left, and it reads its own holder. |
| ValueReading.OwnReadsIff | plugin/src/worker/worker.c:126-145 | By taking the return of an invocation, the worker lets the function that called it go on with the value of its own block, and nobody else, if and only if no other loop is ended by it. |
| ValueReading.ValueCondition | plugin/src/worker/worker.c:126-145 | In every reachable state whose loops are still those of their invocations, every continuation whatever lets the function read the value of its own block if and only if the condition of frame matching holds, or the worker never comes back. |
| ValueReading.SomeReadsAreWrong | plugin/src/callbacks/callbacks.c:14-33 | A run after which a function has read a return holder that no block has written. |
| QueueOrder.OldestFirst | plugin/src/callbacks/callbacks.c:83-89 | Over every run, the invocations in the order of their enqueueing, across all runners, are those that have reached an image stack, in this order, then the one in flight, then the pending ones. |
| QueueOrder.TasksAreServedInOrder | plugin/src/worker/worker.c:120-156 | Over every run, what a worker was asked for - by processes that begin to wait for a function, and by callbacks that leave its callback stack - is what it has done, in the same order, and then what its tasks stand for. What it has done is read off its C stack and the semaphores. |
| ForeignCallbacks.PlacesConserved | plugin/src/worker/worker.c:60-69 | A foreign invocation is on the callback stack, queued as a return, one signal or resumed: no step loses or doubles it, only its entry adds it. |
| ForeignCallbacks.ResumesOnceAfterItsReturn | plugin/src/worker/worker.c:43-53 | A foreign thread resumes at most once and only after the image returned that very invocation. |
| ForeignCallbacks.ReturnedCanResume | plugin/src/worker/worker.c:140-142 | Once its return has been taken, at whatever nesting level, the thread has resumed or can. |
| ForeignCallbacks.OnlyNullReturnsEndLoops | plugin/src/worker/worker.c:140-145 | A loop of a worker is left only by taking a return without semaphore, and exactly one frame goes. |
| ForeignCallbacks.ForeignReadsOwnValue | plugin/src/worker/worker.c:43-53 | A foreign thread that has resumed finds the one value its own block ended with, and no later step changes it. |
| ReturnDrain.AllReturnInReverse | src/ThreadedFFI/TFRunner.class.st:132-162 | After any orderly schedule without entries that leaves nothing to settle, the runner has returned all live callbacks in exact reverse entry order, unless its newest one is blocked in a callout. |
| ReturnDrain.RetriesAreBounded | src/ThreadedFFI/TFRunner.class.st:157-161 | Between entries, enqueueing, image steps and retries together are at most a number computed from the state, over every schedule. |
| ReturnDrain.ReachesQuiet | src/ThreadedFFI/TFRunner.class.st:157-161 | From every state an orderly schedule leads to one where nothing is left to settle. |
| ReturnDrain.QuietRunner | src/ThreadedFFI/TFRunner.class.st:148-161 | An orderly runner with nothing left to settle has returned everything, or its newest callback is inside a callout. |
| CallbackPhases.TriesOnce | src/ThreadedFFI/TFRunner.class.st:148-161 | A callback that tries is let go exactly when it is the newest on both stacks; then the callback stack loses its top and the worker gets the return; otherwise only the process goes to sleep. Nothing else changes. |
| CallbackPhases.ReturnWakesEverybody | src/ThreadedFFI/TFRunner.class.st:156-158 | After a completed return no process of the runner waits, and no other entry has changed. |
| CallbackPhases.SleepsUntilAReturn | src/ThreadedFFI/TFRunner.class.st:160-161 | Over every run without a completed return on its runner, a waiting process goes on waiting. |
| CallbackPhases.LockExcludes | src/ThreadedFFI/TFRunner.class.st:148-158 | Over every run from the answer true to the completed return, no other process of the runner passes the test or is refused, nothing is pushed on the image stack or popped, and the callback stack only grows. |
| CallbackPhases.NothingElseHoldsUp | plugin/src/worker/worker.c:120-156 | In every reachable state each worker, callback process, waiting process and thread can go on with whatever it may do next, except for what the code makes it wait for; the critical section can always be left. |
| EntryOrder.DrainCondition | plugin/src/callbacks/callbacks.c:24-29 | In every reachable state whose stacks agree, no continuation without new entries stalls the runner if and only if at most one of its invocations is between push and enqueueing. |
| EntryOrder.StalledForEver | src/ThreadedFFI/TFRunner.class.st:160-161 | A stalled runner never returns any of its callbacks, whatever happens without new entries. |
| EntryOrder.TwoEntriesCanStall | plugin/src/callbacks/callbacks.c:24-29 | From every such state with two entries under way a stalling continuation is constructed. |
| EntryOrder.LockedEntriesNeverStall | plugin/src/callbacks/callbacks.c:24-29 | After every run with one entry at a time, no continuation without entries stalls the runner. |
| StallCondition.StallsIff | plugin/src/callbacks/callbacks.c:24-29 | For a runner whose blocks call out on it only and whose functions call no callbacks of others, after every run, crossed or not: no continuation without new entries stalls it if and only if its stacks agree, its newest callback does not wait for nothing, and at most one invocation is between push and enqueueing. |
| StallCondition.OneRunnerStallsIff | plugin/src/callbacks/callbacks.c:24-29 | With a single runner this holds of every run. |
| StallCondition.RestApart | src/ThreadedFFI/TFRunner.class.st:148-161 | From every state whose stacks do not agree, a run to rest on which they do not come to agree either. |
| Deadlock.RestIffNoCrossCycle | plugin/src/worker/worker.c:43-53 | For every relation of permitted calls between any number of runners: every orderly run that makes permitted calls and cannot go on by itself has emptied all stacks, queues and C stacks, with no process waiting, if and only if no cycle of the relation goes through a callback of another runner. |
| Deadlock.CycleDeadlocks | plugin/src/worker/worker.c:43-53 | For every such cycle, of any length, an orderly run of permitted calls that ends at rest with workers and processes waiting for each other. |
| Deadlock.DeadStep | plugin/src/worker/worker.c:140-142 | Runners that all wait for each other, away in a callback or with a callback inside a callout, stay so over every step without entries and new callouts. |
| Deadlock.TwoRunnersDeadlock | plugin/src/worker/worker.c:60-69 | Two runners are enough: functions on one call callbacks of the other, and its functions or blocks call back or out on the first. |
| Deadlock.CalloutsNeverDeadlock | plugin/src/worker/worker.c:120-168 | While no function calls a callback of another runner, blocks may call out on any runner: callouts and callbacks never block each other for ever. |
| Quiescence.EverythingComesToRest | src/ThreadedFFI/TFRunner.class.st:132-162 | Every schedule without entries and new callouts is bounded by a number computed from the state, and without such cycles one that cannot be continued has emptied the system. |
| Quiescence.AwayWaits | plugin/src/worker/worker.c:48-50 | At rest, a worker that is away waits for a callback of a runner on which something waits in turn. |
| Quiescence.TopWaits | plugin/src/worker/worker.c:126-145 | At rest, the newest callback of a runner that is inside a callout waits for a runner whose worker is away or whose newest callback is newer still. |
| Quiescence.CrossedStep | plugin/src/worker/worker.c:60-69 | Every step keeps that each worker that is away waits for an invocation of its own, which is in exactly one place and not resumed. |
| Ages.AgedStep | plugin/src/worker/worker.c:126-145 | Every step keeps each loop at most as new as the invocation at its place of the callback stack, and each callout older than the loops above it, even when returns end loops of others. |
| ValueFlow.ReachableInv | src/ThreadedFFI/TFCallbackInvocation.class.st:51-71 | In every reachable state the end of a block, with its value or void, is recorded exactly when the block has ended, and a waiting process waits for its own callout. |
| CallResults.CallersReadTheirResults | src/ThreadedFFI/TFExternalAsyncCall.class.st:43-60 | In every run whatsoever, also where functions read wrong values, a process that goes on after a callout reads the one value that its own function has returned, and no later step changes it. |
| CallResults.ReachablePlaced | plugin/src/worker/worker.c:120-168 | In every reachable state a callout is queued, under `ffi_call` or over, in at most one of these places and once, and in exactly one when its process waits for it. |
| CallResults.PlacesConserved | plugin/src/worker/worker.c:120-168 | A callout is queued, under `ffi_call` or over: no step loses or doubles it, only its dispatch adds it. |
| Refinement.RefinesNestedCalls | plugin/src/worker/worker.c:120-168 | If besides the own-thread callbacks of a runner one process calls through it, every run of image, queues, worker and foreign threads is a run of a synchronous machine of nested calls, and ends with the stack of calls that the protocol stands for. |
| Refinement.SimStep | plugin/src/worker/worker.c:120-168 | Each step is one event of the synchronous machine or invisible to it, under the refinement mapping; entries, blocks and returns of foreign threads are invisible. |
| ClearValues.ClearRunsReadOwnValues | plugin/src/worker/worker.c:120-168 | In every run that satisfies the condition of frame matching, with any number of calling processes, each process reads the result of its own function and each function reads the value of its own block. |
| Refinement.EveryCallGetsItsOwnValue | src/ThreadedFFI/TFExternalAsyncCall.class.st:43-60 | The same for every run in which besides the own-thread callbacks one process calls through the runner. |
| NestedCalls.SyncReadsOwnValues | plugin/src/callbacks/callbacks.c:14-33 | In the synchronous machine what is read was produced before by the same call or block. |
| CallTrees.SyncIffTraversal | plugin/src/callbacks/callbacks.c:14-33 | The runs of the synchronous machine are exactly the traversals of trees of calls and callbacks, ended or under way. |
| CallTrees.CompleteIffTrees | plugin/src/callbacks/callbacks.c:14-33 | The runs that come back to the empty stack are exactly the sequences of complete calls, properly nested, each called by the process or block it is in. |
| Refinement.DisciplinedRunsAreTrees | plugin/src/worker/worker.c:120-168 | Under the discipline, what any run of image, queues, worker and foreign threads shows is the traversal of a tree of calls, and a complete one when in the end the C stack is empty and the process does not wait. |
| Refinement.DisciplinedIsClear | plugin/src/worker/worker.c:126-145 | The discipline implies the condition of frame matching over the whole run. |
| RefinementViews.ViewReturn | plugin/src/callbacks/callbackPrimitives.c:210-223 | When the newest own-thread entry returns, nothing that changes the C stack is queued, and the stack of calls does not change. |
| SameThread.ReturnsAreLocal | plugin/src/sameThread/sameThread.c:109-146 | In every run with any interleaving of green processes, a return is refused and changes nothing, or it leaves exactly the innermost frame, its own, and the function that called back goes on. |
| SameThread.SameThreadRuns | plugin/src/sameThread/sameThread.c:53-146 | In every run the callback frames on the VM thread are the callback stack in order, alternating with callouts. |
| SameThread.JumpsToTheInnermost | plugin/src/callbacks/callbackPrimitives.c:210-223 | The guard on the callback stack makes the jump target the innermost frame. |
| SameThread.OnlyTheNewestReturns | plugin/src/callbacks/callbackPrimitives.c:210-223 | In every run all live callbacks are distinct, and the return of each but the newest, by whatever process, changes nothing. |
| SameThread.CallsAreUndone | plugin/src/sameThread/sameThread.c:53-146 | A callout and its return, and a callback and its return, leave the C stack and the callback stack as they were. |
| RunnerObjects.Worker.BeginEntry | plugin/src/callbacks/callbacks.c:14-27 | Links a new invocation on top of the chain of `previous`, marks it foreign exactly on another thread, and on the own thread opens a frame; the whole new state is the entry step. |
| RunnerObjects.Worker.CallbackFrontend | plugin/src/callbacks/callbacks.c:14-29 | When no other thread enters in between, the new invocation is on top of the linked stack and last in the queue of the image, and whoever was entering still is. |
| RunnerObjects.Worker.CallbackReturn | plugin/src/callbacks/callbackPrimitives.c:179-224 | Answers true if and only if the invocation is on top of the linked stack; then pops it and queues its return, otherwise changes nothing. |
| RunnerObjects.Worker.RunOnce | plugin/src/worker/worker.c:126-153 | One iteration of the loop on the heap queue is the step of the protocol: go into a callout, signal a foreign invocation, or return. |
| RunnerObjects.Worker.Run | plugin/src/worker/worker.c:120-156 | The loop signals exactly the foreign threads whose returns are at the head of the queue, in order, then blocks on the empty queue, goes into the next function, or returns on a null return, leaving the rest of the queue. |
| RunnerObjects.NextPending | plugin/src/callbacks/callbacks.c:83-89 | Takes the oldest pending invocation from the heap queue, or answers NULL when there is no queue or nothing in it; for every state of the protocol that shows this queue, this is the step in which the image reads it, and NULL means that it is not enabled. |
| RunnerObjects.TFCallbackInvocation.ReturnExecution | src/ThreadedFFI/TFCallbackInvocation.class.st:84-92 | The handle is cleared exactly when the primitive answers true. |
| RunnerObjects.TFRunner.ExecuteCallback | src/ThreadedFFI/TFRunner.class.st:65-77 | Pushes the invocation on the image stack with its process running. |
| RunnerObjects.TFRunner.ReturnCallback | src/ThreadedFFI/TFRunner.class.st:132-162 | Null invocation, empty stack, an invocation that is not on the stack, success and retry, each with the whole new state of image stack, native stack and queue. |
| RunnerObjects.TFRunner.SignalAll | src/ThreadedFFI/Semaphore.extension.st:4-8 | The loop wakes every waiting process and changes no other. |
| RunnerObjects.TFRunner.FinishReturn | src/ThreadedFFI/TFRunner.class.st:156-158 | Pops the image top and wakes everybody. |
| TaskQueue.TSQueue.Put | plugin/src/queue/threadSafeQueue.c:86-102 | Appends to the sequence held in the links, keeps the list well formed with `last` its end, signals once. |
| TaskQueue.TSQueue.Take | plugin/src/queue/threadSafeQueue.c:111-135 | Removes and answers the first element, or answers NULL on an empty list. |
| TaskQueue.TSQueue.Size | plugin/src/queue/threadSafeQueue.c:68-79 | The loop answers the length of the sequence. |
| QueueInterleaving.Linearizable | plugin/src/queue/threadSafeQueue.c:86-135 | With any number of producers and one consumer, over all interleavings: no access to freed memory, the history is a FIFO history whose contents are the list, and the answers are its takes in order, never NULL. |
| QueueInterleaving.SignalsAreNodes | plugin/src/queue/threadSafeQueue.c:101-121 | List length is the signals plus puts not signalled yet plus a take past its wait; a take past its wait never finds the list empty. |
| QueueInterleaving.InvStep | plugin/src/queue/threadSafeQueue.c:86-135 | Every shared access keeps mutual exclusion, the shape of the list, ownership of nodes and the accounting. |
| QueueMemory.HeapIsInUse | plugin/src/queue/threadSafeQueue.c:86-135 | In every reachable state the nodes in the heap are exactly those of the list, those of puts that have not linked theirs, and the one that a take has cut off and not freed. |
| QueueMemory.NothingLeftOver | plugin/src/queue/threadSafeQueue.c:133 | With everybody outside and the list empty, the heap is empty. |
| QueueMemory.PutsItsElement | plugin/src/queue/threadSafeQueue.c:86-102 | Whatever other threads do between its steps, a put adds the element it was called with. |
| QueueMemory.NobodyIsStuck | plugin/src/queue/threadSafeQueue.c:86-135 | In every reachable state each thread inside an operation can go on or waits for a mutex whose holder can; a take can begin exactly when there is a signal. |
| TwoConsumers.FifoIff | plugin/src/queue/threadSafeQueue.c:86-135 | For any number of producers, all interleavings are fault free with FIFO histories and answers in order if and only if at most one thread takes. |
| TwoConsumers.TakenTwice | plugin/src/queue/threadSafeQueue.c:118-135 | With two consumers a run exists in which one element is taken twice and the history is no FIFO history. |
| Pool.TFPool.TakeOne | src/ThreadedFFI/TFPool.class.st:126-140 | Grows by half the initial size when the cursor is beyond the end, lends the slot at the cursor and clears it; an index out of bounds is an error after the cursor has moved. |
| Pool.TFPool.ReturnOne | src/ThreadedFFI/TFPool.class.st:105-117 | Puts the element into the slot before the cursor, or releases it when nothing is lent. |
| Pool.TFPool.GrowBy | src/ThreadedFFI/TFPool.class.st:34-37 | A new array with the old elements and then new ones. |
| Pool.TFPool.Populate | src/ThreadedFFI/TFPool.class.st:76-82 | Every slot holds a newly provided element, in order. |
| Pool.TFPool.constructor | src/ThreadedFFI/TFPool.class.st:53-61 | A full pool with the cursor at 1. |
| PoolLending.NothingIsLentTwice | src/ThreadedFFI/TFPool.class.st:105-140 | Over every run in which clients return what they hold: slots before the cursor are nil and the rest are not, each provided element is in exactly one place, and the next take lends one that nobody holds. |
| PoolLending.SizeFollowsDemand | src/ThreadedFFI/TFPool.class.st:34-43 | The size never goes below the initial one nor above the larger of it and peak demand plus growth rate minus one. |
| PoolLending.SizeIs | src/ThreadedFFI/TFPool.class.st:40-43 | Over every run the size is the initial size plus half of it, rounded down, for each take that found the cursor beyond the end; it is the first such size that holds the peak demand. |
| PoolLending.GrowsByHalf | src/ThreadedFFI/TFPool.class.st:126-140 | A take with the cursor beyond the end makes the array larger by half the initial size, and nothing else changes its length. |
| PoolLending.LastBackFirstOut | src/ThreadedFFI/TFPool.class.st:105-140 | Giving back and taking again lends the same element and restores the pool. |
| PoolLending.RunSound | src/ThreadedFFI/TFPool.class.st:105-140 | Every run keeps the invariants, and the array never shrinks. |
| PoolLending.InBoundsIff | src/ThreadedFFI/TFPool.class.st:40-43 | Takes stay in bounds over all runs if and only if the initial size is at least 2. |
| AsyncCall.OneSignalPerCall | src/ThreadedFFI/TFPooledExternalAsyncCall.class.st:26-35 | From dispatch to reset, signals of a leased semaphore plus the one consumed plus the tasks carrying it are one; every semaphore in the pool has no signal. |
| AsyncCall.ReadsOwnResult | src/ThreadedFFI/TFExternalAsyncCall.class.st:43-60 | A process reads only after its own function has finished, and reads the one value it finished with. |
| AsyncCall.ResultsOfRun | plugin/src/worker/worker.c:158-168 | Over every run, results are exactly what functions finished with, each written once. |
| AsyncCall.WaitersAreServed | src/ThreadedFFI/TFExternalAsyncCall.class.st:56-57 | A waiting process has a signal or its task is still on its way: no wake-up is lost. |
| AsyncCall.InvStep | src/ThreadedFFI/TFPooledExternalAsyncCall.class.st:26-35 | Every step of any process or worker keeps the accounting of all semaphores and the pool. |
| HandshakeLaws.OneCallsLife | src/ThreadedFFI/TFExternalAsyncCall.class.st:43-60 | In every state of every run a process goes through its call in one order and only by its own steps: it leases a semaphore that nobody has, dispatches one new task or fails, passes the test exactly when the signal is there and sleeps otherwise, consumes the signal when woken, reads, clears the semaphore, gives it back. |
| HandshakeLaws.OneTasksLife | plugin/src/worker/worker.c:158-168 | A worker step moves one task on: the function is entered, or has returned with its result written, or the task is gone and its semaphore has one signal more. |
| HandshakeLaws.SleepsIff | src/ThreadedFFI/TFExternalAsyncCall.class.st:56-57 | A process sleeps if and only if it tests the semaphore before the signal of its own task; otherwise it can read its result at once. |
| HandshakeLaws.WokenIff | src/ThreadedFFI/TFExternalAsyncCall.class.st:56-57 | Asleep, it can be woken if and only if that signal has been given. |
| HandshakeLaws.NobodyIsHeldUp | src/ThreadedFFI/TFPooledExternalAsyncCall.class.st:26-35 | In every state of every run each process can take its next step, except while it sleeps before the signal of its own task. |
| PooledCall.TFPooledExternalAsyncCall.ExecuteOn | src/ThreadedFFI/TFPooledExternalAsyncCall.class.st:26-35 | Whether or not the call can be prepared, the semaphore goes back to the pool and no signal is left in it; a prepared call answers its function's value. |
| PooledCall.TFPooledExternalAsyncCall.DoExecuteOn | src/ThreadedFFI/TFExternalAsyncCall.class.st:43-60 | Answers the function's value whether the signal comes before or after the test, and leaves one signal behind only in the first case. |
| EndToEnd.RunsAreProtocolRuns | src/ThreadedFFI/TFPooledExternalAsyncCall.class.st:26-35 | Any sequence of acts that the guards of the code allow is never refused and is, step by step, a run of the protocol. |
| EndToEnd.CoupledStep | plugin/src/worker/worker.c:158-168 | Whatever the guards of the code allow, protocol and handshake can both do, and queued, running and finished callouts stay the queued, running and finished tasks. |
| EndToEnd.ReadsItsResult | src/ThreadedFFI/TFExternalAsyncCall.class.st:52-59 | After any run, a process that gets past its leased semaphore finds the result of its own callout on that runner, and the protocol lets it resume. |
| EndToEnd.NestedThroughSemaphores | src/ThreadedFFI/TFExternalAsyncCall.class.st:43-60 | Under the discipline, whatever the guards of the code allow through pooled semaphores is a run of plain nested calls. |
| CallProgress.EverybodyGoesOn | src/ThreadedFFI/TFExternalAsyncCall.class.st:43-60 | After every run that the guards of the code allow, each of any number of processes inside calls can go on unless it sleeps before the signal of its own task, whoever else is inside calls; any other running process can lease at once. |
| PooledRest.RestIsEmpty | src/ThreadedFFI/TFPooledExternalAsyncCall.class.st:26-35 | When nothing that has begun can go on, and no cycle goes through a callback of another runner, the protocol is empty, nobody is inside a call, every semaphore is back in its pool and none has a signal. |
| PooledRest.ComesToRest | src/ThreadedFFI/TFExternalAsyncCall.class.st:43-60 | While nobody enters or leases, the acts left are at most a number computed from the state. |
| CalloutCorrectness.CompiledMeansCall | src/ThreadedFFI-UFFI/TFCalloutMethodBuilder.class.st:22-68 | For every signature, world, stack and temps, the code runs to its end with the direct meaning of the call: result one above the entry depth, or one above the never popped answer of the trace send. |
| CalloutCorrectness.RunArguments | src/ThreadedFFI-UFFI/TFCalloutMethodBuilder.class.st:38-41 | Any number and mix of arguments pile up in order on whatever is below, each marshalled by its own type. |
| CalloutCorrectness.RunReturns | src/ThreadedFFI-UFFI/TFCalloutMethodBuilder.class.st:51-56 | The code after the call changes neither stack nor temps and releases exactly as the meaning says. |
| CalloutCorrectness.RunFree | src/ThreadedFFI/TFStringType.class.st:44-55 | The code that frees a string argument touches that argument only and leaves nothing behind. |
| CalloutCorrectness.RunTo | src/ThreadedFFI/TFBooleanType.class.st:30-41 | For every type the marshalling block replaces the top by its primitive form and disturbs nothing below. |
| CalloutCorrectness.RunFrom | src/ThreadedFFI/TFStructType.class.st:76-85 | For every type the unmarshalling block replaces the top by its image form and disturbs nothing below. |
| CalloutCorrectness.RunCall | src/ThreadedFFI-UFFI/TFCalloutMethodBuilder.class.st:43-49 | The array holds the values on the stack, is kept in the temp, and reaches the runner with the function. |
| CalloutCompiler.RunBoolean | src/ThreadedFFI/TFBooleanType.class.st:30-41 | Both paths of the branching code leave one value, 1 for true and 0 for anything else. |
| CalloutCompiler.RunThroughTemp | src/ThreadedFFI/TFOOPType.class.st:18-38 | Through the shared temp the top becomes the argument of a send to a literal, whatever the temp held. |
| CalloutEvents.CompiledShows | src/ThreadedFFI-UFFI/TFCalloutMethodBuilder.class.st:38-56 | Over any run the call is traced first if it should be, the arguments are evaluated once each in order, then the function is invoked once with all of them, then exactly the values at string positions are freed, in order. |
| CalloutEvents.CompiledHooks | src/ThreadedFFI-UFFI/TFCalloutMethodBuilder.class.st:38-56 | Over any run the hooks of the n arguments run once each, in order, n before the one call and n after it. |
| CalloutEvents.ReleasedAt | src/ThreadedFFI-UFFI/TFCalloutMethodBuilder.class.st:51-56 | What a string argument passed is freed right after its own hook and before those of later arguments. |
| CalloutEcho.EchoGivesBack | src/ThreadedFFI-UFFI/TFCalloutMethodBuilder.class.st:22-68 | For every type and position, among arguments of any types, the compiled call of a function that answers this argument leaves on the stack the very object that went in, where the conversions of the image are inverse to each other at it, or the number or address that it stands for. |
| CalloutEvents.MarshalledAt | src/ThreadedFFI-UFFI/TFCalloutMethodBuilder.class.st:38-41 | Argument k that reaches the function is the value pushed for position k, marshalled by type k. |
| CalloutEvents.StringPositions | src/ThreadedFFI/TFStringType.class.st:44-55 | Exactly the positions of string arguments, in increasing order. |
| CalloutIR.JumpsStayInBlock | src/ThreadedFFI/TFBooleanType.class.st:34-39 | Wherever a block with its own targets is placed, repeated labels around it do not capture its jumps. |
| CalloutIR.RunConcat | src/ThreadedFFI-UFFI/TFCalloutMethodBuilder.class.st:38-41 | Running two blocks after each other is running their concatenation, when the first keeps its jumps inside. |
| CalloutCorrectness.ArgumentsAreClosed | src/ThreadedFFI/TFBooleanType.class.st:30-41 | With any number of boolean arguments every jump finds its target inside the argument code. |
| JoinPoints.JoinPointsAgree | src/ThreadedFFI/TFBooleanType.class.st:30-41 | For every signature, any two control paths that reach an instruction reach it at one stack height, enough for what it takes, and the end is one above the entry, two when tracing. |
| JoinPoints.CompiledIsBalanced | src/ThreadedFFI-UFFI/TFCalloutMethodBuilder.class.st:22-68 | A height for each position that every flow of control of the compiled code respects. |
| JoinPoints.PathsAgree | src/ThreadedFFI/TFBooleanType.class.st:34-39 | Heights that each flow respects are the heights along every path. |
| JoinPoints.RunsKeepTheHeight | src/ThreadedFFI/TFBooleanType.class.st:30-41 | At each instruction that a run of the machine visits, in any world, the stack has the one height of all control paths to it. |
| JoinPoints.TrailsFollowPaths | src/ThreadedFFI-UFFI/TFCalloutMethodBuilder.class.st:22-68 | Every run of the machine goes along a control path, and its stack has the height of that path. |
| JoinPoints.StepFollowsFlow | src/ThreadedFFI/TFBooleanType.class.st:34-39 | Every step of the machine follows the control flow and changes the stack by the stated height. |
| CalloutBuilder.GenerateFFICallout | src/ThreadedFFI-UFFI/TFCalloutMethodBuilder.class.st:22-68 | The builder appends to whatever it holds exactly the code of which the theorems speak. |
| CalloutBuilder.GenerateArguments | src/ThreadedFFI-UFFI/TFCalloutMethodBuilder.class.st:38-41 | The loop over the arguments emits hook and marshalling of each, in order. |
| CalloutBuilder.GenerateReturns | src/ThreadedFFI-UFFI/TFCalloutMethodBuilder.class.st:51-56 | The indexed loop emits hook and free code of each, with 1-based positions. |
| CalloutBuilder.IRBuilder.MarshallToPrimitive | src/ThreadedFFI/TFBasicType.class.st:308-312 | Each type class appends its own block. |
| CalloutBuilder.IRBuilder.MarshallFromPrimitive | src/ThreadedFFI/TFBasicType.class.st:302-306 | Each type class appends its own block. |
| StructLayout.LayoutKept | src/ThreadedFFI-UFFI/FFIExternalStructureType.extension.st:4-10 | Flattening arrays keeps size and alignment of every structure and every scalar in it, which one it is and at what offset, at any nesting depth. |
| StructLayout.OffsetsKept | src/ThreadedFFI-UFFI/FFITypeArrayType.extension.st:4-7 | Member j of those that field k became lies at the offset of element j of that field. |
| StructLayout.ExtentKept | src/ThreadedFFI-UFFI/FFIExternalType.extension.st:9-21 | At every point of the declaration the flattened members end where the declared fields end, with the same alignment. |
| StructLayout.TimesIsBlock | src/ThreadedFFI-UFFI/FFITypeArrayType.extension.st:4-7 | n equal members are laid out as one block of n elements, without padding in between. |
| StructLayout.FieldsFollow | src/ThreadedFFI-UFFI/FFIExternalStructureType.extension.st:4-10 | Each field lies at the first multiple of its alignment after the field before it (section 3.1.2 of the System V AMD64 psABI). |
| StructLayout.StructureBox | src/ThreadedFFI-UFFI/FFIExternalStructureType.extension.st:4-10 | A structure has the largest alignment of its fields and ends at the first multiple of it after the last field. |
| StructLayout.CellsLieAtOffsets | src/ThreadedFFI-UFFI/FFIExternalStructureType.extension.st:4-10 | The memory map of a structure is that of its fields at their offsets. |

## Left out

- RunnerObjects.Worker.RunOnce: a callout only opens its frame; the function returning and the signal of its caller are steps of `Protocol` and `EndToEnd`.
- RunnerObjects.Worker.Run: ends where the loop blocks or goes into a function; that it is woken or resumed later, possibly with other tasks in the queue, is a matter of the steps of `Protocol`.
- RunnerObjects.Worker.BeginEntry: the private semaphore of a foreign thread, its wait and its release are not objects here; ForeignCallbacks accounts for its signals.
- RunnerObjects.Worker.CallbackReturn: the runner exists and the handles are valid; the failures of the primitive are not modelled.
- SameThread.ReturnsAreLocal: the runner is modelled on values, because a jump that discards frames has no counterpart in a method; what is assigned to the payload and context fields is not captured, nor a function on the VM thread that calls a callback of a worker and so stops the image.
- Frames.FramesConserved: takes each C function as an arbitrary sequence of callbacks, of its own runner or of others.
- Refinement.RefinesNestedCalls: blocks of foreign callbacks must not call out on the same runner; such a callout would not be nested in any function of the worker, and can end up above a loop whose return is due.
- ReturnDrain.ReachesQuiet: gives a schedule; fairness of the green scheduler is not modelled, so what every schedule ensures is the bound of RetriesAreBounded and, for the whole system, of Quiescence.EverythingComesToRest.
- EntryOrder.DrainCondition: speaks of states whose stacks still agree; StallCondition.StallsIff gives the condition for all states, of runners that keep to themselves.
- StallCondition.StallsIff: a runner whose entries have crossed and whose blocks call out on other runners is not covered; whether its newest callback ever gets to its return then depends on the state of those runners too.
- PooledRest.RestIsEmpty: that a cycle through a callback of another runner can leave processes and workers waiting is proved of the protocol only, by Deadlock.CycleDeadlocks.
- PooledCall.TFPooledExternalAsyncCall.ExecuteOn: one process at a time, the worker being a parameter, and errors leave only before the dispatch; many processes and workers at once are the state machines of AsyncCall and EndToEnd, which carry the property.
- PooledCall.TFPooledExternalAsyncCall.DoExecuteOn: what the worker does is a parameter; that a process reads its own function's value is proved by AsyncCall.ReadsOwnResult and EndToEnd.ReadsItsResult.
- RunnerObjects.TFRunner.ReturnCallback: the retry by re-sending itself is the next pass of the same process, a later step; the case of a stack emptied by a new session inside the critical section is excluded with session changes.
- CalloutCorrectness.CompiledMeansCall: the freeing send is opaque; which strings are really released depends on `AllocatedStrings` and `ExternalAddress`, which are not part of this model.
- StructLayout.LayoutKept: arrays have at least one element, as C11 demands; arrays of arrays are not covered, because how an array type translates as an element is not defined in this repository; pointers are 8 bytes.
- The value of `createFFICalloutLiteralFromSpec:` is one literal; its name, module and cached code are not modelled.
- Calling conventions, `ffi_call`, closures, `sigsetjmp` and the interpreter entry: a C function is an arbitrary behaviour and a jump is the unwinding of frames.
- Handles, address checks and type codes of the primitives, symbol loading, pinning, byte-level access to integers and floats, string encoding.
- `malloc` and `free` outside the queue nodes, `threadsafe_queue_free`, `worker_release`, unregistering and finalization.
- Session start and stop, the weak dictionary of callbacks, exception handlers, termination of processes.
- Failure of `sem_wait` and its retry after an interruption, and failure of `malloc` or of creating a mutex.
- The Mutex of `TFPool`: its operations are single steps.
