/** The objects behind the protocol: the plugin's Worker with its linked callback stack and its queue,
    and the image's TFRunner. Each method is one step of a participant; its contract ties the new fields
    to the step function of `Protocol` on the old ones, so what is proved there holds of these fields. */
module RunnerObjects {
  import opened Prelude
  import opened Protocol
  import opened TaskQueue

  /** A CallbackInvocation on some C stack. */
  class CallbackInvocation {
    const id: nat
    const runner: nat
    var foreign: bool                  // the payload is a semaphore
    var returnHolder: Value
    var previous: CallbackInvocation?

    constructor (id: nat, runner: nat)
      ensures this.id == id && this.runner == runner
    {
      this.id, this.runner := id, runner;
      foreign, returnHolder, previous := false, Void, null;
    }

    function Value(): Invocation
      reads this
    {
      Invocation(id, runner, foreign)
    }
  }

  /** The invocations in a queue, as the state of the protocol shows them. */
  ghost function Values(q: seq<CallbackInvocation>): (v: seq<Invocation>)
    reads q
    ensures |v| == |q| && forall k :: 0 <= k < |q| ==> v[k] == q[k].Value()
  {
    if q == [] then [] else [q[0].Value()] + Values(q[1..])
  }

  /** callbackQueue before anything was put in it, and after. */
  ghost function Pending(queue: TSQueue?<CallbackInvocation>): seq<Invocation>
    reads queue, if queue == null then [] else queue.contents
  {
    if queue == null then [] else Values(queue.contents)
  }

  /** For every state of the protocol that shows the queue `pending`, the step ReadPending is to take `taken` and
      leave `rest`; None tells that it is not enabled. */
  ghost predicate Reads(pending: seq<Invocation>, taken: Option<Invocation>, rest: seq<Invocation>) {
    forall s: State :: s.inFlight == None && s.pending == pending ==>
      && (Enabled(s, ReadPending) <==> taken.Some?)
      && (taken.Some? ==> Next(s, ReadPending) == s.(inFlight := taken, pending := rest))
  }

  lemma ReadsNothing()
    ensures Reads([], None, [])
  {
  }

  lemma ReadsFirst(q: seq<Invocation>)
    requires q != []
    ensures Reads(q, Some(q[0]), q[1..])
  {
  }

  lemma ReadsCons(i: Invocation, rest: seq<Invocation>)
    ensures Reads([i] + rest, Some(i), rest)
  {
    ReadsFirst([i] + rest);
    assert ([i] + rest)[1..] == rest;
  }

  /** The values of a queue whose first invocation was `i`. */
  lemma FirstIs(pending: seq<Invocation>, q: seq<CallbackInvocation>, i: CallbackInvocation, rest: seq<CallbackInvocation>)
    requires q == [i] + rest && |pending| == |q| && forall k :: 0 <= k < |q| ==> pending[k] == q[k].Value()
    ensures pending == [i.Value()] + Values(rest)
  {
    var all := [i.Value()] + Values(rest);
    forall k | 0 <= k < |q| ensures pending[k] == all[k] {
      if k > 0 { assert q[k] == rest[k - 1]; }
    }
  }

  /** `threadsafe_queue_take` on a queue with something in it or nothing. */
  method TakeFirst(queue: TSQueue<CallbackInvocation>) returns (i: CallbackInvocation?)
    requires queue.Valid() && !queue.semaphore.platform
    modifies queue, queue.semaphore
    ensures queue.Valid()
    ensures if old(queue.contents) == [] then i == null && queue.contents == []
            else i != null && [i] + queue.contents == old(queue.contents)
  {
    var next := queue.Take();
    i := if next.Some? then next.value else null;
  }

  /** `queue_next_pending_callback`: NULL when there is no queue yet or nothing in it. It is the step
      ReadPending of the protocol. */
  method NextPending(queue: TSQueue?<CallbackInvocation>) returns (i: CallbackInvocation?)
    requires queue != null ==> queue.Valid() && !queue.semaphore.platform
    modifies queue, if queue == null then {} else {queue.semaphore}
    ensures queue != null ==> queue.Valid()
    ensures i == null <==> old(Pending(queue)) == []
    ensures i == null && queue != null ==> queue.contents == []
    ensures i != null ==> [i] + queue.contents == old(queue.contents)
    ensures Reads(old(Pending(queue)), if i == null then None else Some(i.Value()), Pending(queue))
  {
    ReadsNothing();
    i := null;
    if queue != null {
      ghost var q, pending := queue.contents, Values(queue.contents);
      i := TakeFirst(queue);
      if i != null {
        FirstIs(pending, q, i, queue.contents);
        ReadsCons(i.Value(), Values(queue.contents));
      }
    }
  }

  /** A Worker: its Runner part (callbackStack), its task queue, and the C stack of its thread. */
  class Worker {
    const index: nat
    const taskQueue: TSQueue<Task>
    var callbackStack: CallbackInvocation?
    var selfThread: nat
    var frames: seq<Frame>
    var rootReturned: bool
    ghost var stack: seq<CallbackInvocation>   // the chain of `previous`, bottom first
    ghost var native: seq<Invocation>          // the same as values
    ghost var entering: seq<Invocation>        // of threads between push and enqueueing
    ghost var returned: seq<Invocation>

    ghost predicate Chained()
      reads `callbackStack, `stack, `native, stack
    {
      && |native| == |stack| && (forall k :: 0 <= k < |stack| ==> native[k] == stack[k].Value())
      && (callbackStack == null <==> stack == [])
      && (stack != [] ==> callbackStack == Last(stack) && stack[0].previous == null)
      && (forall k :: 0 < k < |stack| ==> stack[k].previous == stack[k - 1])
      && (forall j, k :: 0 <= j < k < |stack| ==> stack[j].id != stack[k].id)
    }

    ghost predicate Queued()
      reads taskQueue, taskQueue.nodes, taskQueue.semaphore
    {
      taskQueue.Valid() && taskQueue.semaphore.platform && taskQueue.semaphore.value == |taskQueue.contents|
    }

    /** The native half of the runner's state; `image` is kept by TFRunner. */
    ghost function State(image: seq<Live>): RunnerState
      reads this, taskQueue
    {
      RunnerState(native, entering, taskQueue.contents, frames, rootReturned, image, returned)
    }

    constructor (index: nat, thread: nat)
      ensures Chained() && Queued() && State([]) == NEW_RUNNER && this.index == index && selfThread == thread
    {
      this.index, selfThread := index, thread;
      var semaphore := new Semaphore(true);
      taskQueue := new TSQueue<Task>(semaphore);
      callbackStack, frames, rootReturned := null, [], false;
      stack, native, entering, returned := [], [], [], [];
    }

    method AddCall(task: Task)
      requires Queued()
      modifies taskQueue, taskQueue.last, taskQueue.semaphore
      ensures Queued() && State([]) == old(State([])).(tasks := old(taskQueue.contents) + [task])
    {
      taskQueue.Put(task);
    }

    /** `worker_callback_prepare`: the payload tells the thread of the invocation. */
    method Prepare(i: CallbackInvocation, thread: nat)
      modifies i`foreign
      ensures i.foreign <==> thread != selfThread
    {
      i.foreign := thread != selfThread;
    }

    /** `callbackFrontend` on thread `thread` up to the preparation. On the worker's own thread its
        activation is now the innermost frame. */
    method BeginEntry(id: nat, thread: nat) returns (i: CallbackInvocation)
      requires Chained() && forall k :: 0 <= k < |stack| ==> stack[k].id != id
      modifies `callbackStack, `stack, `native, `frames, `entering
      ensures Chained() && fresh(i) && stack == old(stack) + [i]
      ensures i.Value() == Invocation(id, index, thread != selfThread)
      ensures State([]) == Enter(old(State([])), i.Value())
    {
      i := Link(id, thread);
      if thread == selfThread { frames := frames + [BackFrame(i.Value())]; }
      entering := entering + [i.Value()];
    }

    /** A new invocation, pushed and prepared. */
    method Link(id: nat, thread: nat) returns (i: CallbackInvocation)
      requires Chained() && forall k :: 0 <= k < |stack| ==> stack[k].id != id
      modifies `callbackStack, `stack, `native
      ensures Chained() && fresh(i) && stack == old(stack) + [i]
      ensures i.Value() == Invocation(id, index, thread != selfThread) && native == old(native) + [i.Value()]
    {
      i := new CallbackInvocation(id, index);
      i.previous := callbackStack;
      callbackStack := i;
      stack := stack + [i];
      Prepare(i, thread);
      native := native + [i.Value()];
    }

    /** ... then the invocation is queued for the image; `k` is its place among those that enter. */
    method QueueEntry(i: CallbackInvocation, queue: TSQueue<CallbackInvocation>, ghost k: nat)
      requires queue.Valid() && k < |entering| && entering[k] == i.Value()
      modifies `entering, queue, queue.last, queue.semaphore
      ensures queue.Valid() && queue.contents == old(queue.contents) + [i]
      ensures queue.semaphore.value == old(queue.semaphore.value) + 1
      ensures State([]) == old(State([])).(entering := Without(old(entering), k))
    {
      queue.Put(i);
      entering := Without(entering, k);
    }

    /** `callbackFrontend` when no other thread enters in between: whoever was entering before still is, and
        the new invocation is on top of the callback stack and last in the queue of the image. */
    method CallbackFrontend(id: nat, thread: nat, queue: TSQueue<CallbackInvocation>) returns (i: CallbackInvocation)
      requires Chained() && queue.Valid() && forall k :: 0 <= k < |stack| ==> stack[k].id != id
      modifies `callbackStack, `stack, `native, `frames, `entering, queue, queue.last, queue.semaphore
      ensures Chained() && fresh(i) && stack == old(stack) + [i] && i.Value() == Invocation(id, index, thread != selfThread)
      ensures queue.Valid() && queue.contents == old(queue.contents) + [i]
      ensures queue.semaphore.value == old(queue.semaphore.value) + 1
      ensures State([]) == Enter(old(State([])), i.Value()).(entering := old(entering))
    {
      i := BeginEntry(id, thread);
      QueueEntry(i, queue, |entering| - 1);
    }

    /** `primitiveCallbackReturn` for a runner that exists: the guard compares addresses. */
    method CallbackReturn(i: CallbackInvocation) returns (answer: bool)
      requires Chained() && Queued() && forall k :: 0 <= k < |stack| ==> (native[k] == i.Value() ==> stack[k] == i)
      modifies this, taskQueue, taskQueue.last, taskQueue.semaphore
      ensures Chained() && Queued() && frames == old(frames) && selfThread == old(selfThread)
      ensures answer <==> CanReturn(old(State([])), i.Value())
      ensures stack == if answer then Front(old(stack)) else old(stack)
      ensures State([]) == if answer then PopNative(old(State([])), i.Value()) else old(State([]))
    {
      answer := i == callbackStack;
      if answer {
        Unlink();
        returned := returned + [i.Value()];
        AddCall(Task.CallbackReturn(i.Value()));
      }
    }

    /** The pop of the linked stack. */
    method Unlink()
      requires Chained() && callbackStack != null
      modifies `callbackStack, `stack, `native
      ensures Chained() && stack == Front(old(stack)) && native == Front(old(native))
    {
      assert |stack| > 1 ==> stack[|stack| - 1].previous == stack[|stack| - 2];
      callbackStack := callbackStack.previous;
      stack, native := Front(stack), Front(native);
    }

    /** One iteration of the loop in `worker_run`. A callout goes on inside `ffi_call`; a return answers
        the invocation whose semaphore is signalled, or without one this `worker_run` returns. */
    method RunOnce() returns (signalled: Option<Invocation>, stop: bool)
      requires Queued() && Idle(State([])) && taskQueue.contents != []
      modifies `frames, `rootReturned, taskQueue, taskQueue.semaphore
      ensures Queued() && State([]) == Take(old(State([])))
      ensures taskQueue.contents == old(taskQueue.contents)[1..]
      ensures stop <==> NullReturn(old(taskQueue.contents)[0])
      ensures signalled == if old(taskQueue.contents)[0].CallbackReturn? && !stop then Some(old(taskQueue.contents)[0].inv) else None
    {
      var next := taskQueue.Take();
      signalled, stop := None, false;
      match next.value
      case Callout(c) =>
        frames := frames + [CallFrame(c)];
      case CallbackReturn(i) =>
        if i.foreign {
          signalled := Some(i);
        } else {
          stop := true;
          if frames == [] { rootReturned := true; } else { frames := Front(frames); }
        }
    }

    /** `worker_run` from here until it blocks on an empty queue, goes into a function, or returns:
        meanwhile it signals the foreign threads at the head of the queue, in order. */
    method Run() returns (signalled: seq<Invocation>, stop: bool)
      requires Queued() && Idle(State([]))
      modifies `frames, `rootReturned, taskQueue, taskQueue.semaphore
      ensures Queued() && |signalled| == ForeignReturns(old(taskQueue.contents))
      ensures Told(old(taskQueue.contents), signalled)
      ensures |signalled| == |old(taskQueue.contents)| ==> !stop && State([]) == old(State([])).(tasks := [])
      ensures |signalled| < |old(taskQueue.contents)| ==>
        && (stop <==> NullReturn(old(taskQueue.contents)[|signalled|]))
        && State([]) == Take(old(State([])).(tasks := old(taskQueue.contents)[|signalled|..]))
    {
      signalled, stop := [], false;
      ghost var tasks := taskQueue.contents;
      while taskQueue.first != null
        invariant Queued() && !stop && Told(tasks, signalled)
        invariant taskQueue.contents == tasks[|signalled|..] && frames == old(frames) && !rootReturned
        decreases |taskQueue.contents|
      {
        ghost var n := |signalled|;
        Rest(tasks, n);
        var told, over := RunOnce();
        if told == None {
          ForeignReturnsAre(tasks, n);
          stop := over;
          return;
        }
        ToldMore(tasks, signalled, told.value);
        signalled := signalled + [told.value];
      }
      ForeignReturnsAre(tasks, |tasks|);
    }
  }

  lemma Rest<T>(q: seq<T>, n: nat)
    requires n < |q|
    ensures q[n..] != [] && q[n..][0] == q[n] && q[n..][1..] == q[n + 1..]
  {
  }

  /** The first tasks are the returns of these foreign invocations. */
  ghost predicate Told(tasks: seq<Task>, signalled: seq<Invocation>) {
    |signalled| <= |tasks| && forall k :: 0 <= k < |signalled| ==> tasks[k] == CallbackReturn(signalled[k]) && signalled[k].foreign
  }

  lemma ToldMore(tasks: seq<Task>, signalled: seq<Invocation>, i: Invocation)
    requires Told(tasks, signalled) && |signalled| < |tasks| && tasks[|signalled|] == CallbackReturn(i) && i.foreign
    ensures Told(tasks, signalled + [i])
  {
  }

  /** How many returns of foreign invocations are at the head of the queue. */
  function ForeignReturns(tasks: seq<Task>): (n: nat)
    ensures n <= |tasks| && forall k :: 0 <= k < n ==> tasks[k].CallbackReturn? && tasks[k].inv.foreign
    ensures n < |tasks| ==> tasks[n].Callout? || NullReturn(tasks[n])
  {
    if tasks != [] && tasks[0].CallbackReturn? && tasks[0].inv.foreign then 1 + ForeignReturns(tasks[1..]) else 0
  }

  /** There is only one such prefix. */
  lemma ForeignReturnsAre(tasks: seq<Task>, n: nat)
    requires n <= |tasks| && forall k :: 0 <= k < n ==> tasks[k].CallbackReturn? && tasks[k].inv.foreign
    requires n < |tasks| ==> tasks[n].Callout? || NullReturn(tasks[n])
    ensures ForeignReturns(tasks) == n
  {
  }

  /** The image's view of an invocation. `address` is the C structure behind `handle`. */
  class TFCallbackInvocation {
    const address: CallbackInvocation
    const inv: Invocation
    var isNull: bool

    constructor (address: CallbackInvocation)
      ensures this.address == address && inv == address.Value() && !isNull
    {
      this.address, inv, isNull := address, address.Value(), false;
    }

    /** `returnExecution`: the primitive, and the handle is cleared when it answers true. */
    method ReturnExecution(worker: Worker) returns (answer: bool)
      requires worker.Chained() && worker.Queued() && inv == address.Value()
      requires forall k :: 0 <= k < |worker.stack| ==> (worker.native[k] == inv ==> worker.stack[k] == address)
      modifies worker, worker.taskQueue, worker.taskQueue.last, worker.taskQueue.semaphore, `isNull
      ensures worker.Chained() && worker.Queued() && isNull == (old(isNull) || answer)
      ensures answer <==> CanReturn(old(worker.State([])), inv)
      ensures worker.State([]) == if answer then PopNative(old(worker.State([])), inv) else old(worker.State([]))
    {
      answer := worker.CallbackReturn(address);
      if answer { isNull := true; }
    }
  }

  /** How a pass through `returnCallback:` ends. After Returned the image stack is popped by
      FinishReturn; after Retry the process waits and sends `returnCallback:` again when woken. */
  datatype Outcome = Nothing | OldSession | Returned | Retry

  /** A TFRunner. The green processes of its callbacks are represented by their phases. */
  class TFRunner {
    const worker: Worker
    var callbackInvocationStack: seq<TFCallbackInvocation>
    var phase: map<TFCallbackInvocation, Phase>
    var waiters: seq<TFCallbackInvocation>      // queue of callbackReturnSemaphore

    ghost predicate Valid()
      reads this
    {
      && (forall i :: i in callbackInvocationStack ==> i in phase)
      && (forall i :: i in waiters ==> i in phase && phase[i] == Waiting)
      && (forall i :: i in phase && phase[i] == Waiting ==> i in waiters)
      && NoDup(callbackInvocationStack) && NoDup(waiters)
    }

    ghost function Image(): (q: seq<Live>)
      reads this
      requires Valid()
      ensures |q| == |callbackInvocationStack|
    {
      seq(|callbackInvocationStack|, k requires 0 <= k < |callbackInvocationStack| && Valid() reads this =>
        Live(callbackInvocationStack[k].inv, phase[callbackInvocationStack[k]]))
    }

    constructor (worker: Worker)
      ensures Valid() && Image() == [] && this.worker == worker
    {
      this.worker := worker;
      callbackInvocationStack, phase, waiters := [], map[], [];
    }

    /** `executeCallback:` and the fork of the process that runs the block. */
    method ExecuteCallback(i: TFCallbackInvocation)
      requires Valid() && i !in callbackInvocationStack && i !in waiters
      modifies this
      ensures Valid() && Image() == old(Image()) + [Live(i.inv, Executing)]
    {
      callbackInvocationStack := callbackInvocationStack + [i];
      phase := phase[i := Executing];
    }

    /** The end of `TFCallbackInvocation>>execute`: the value of the block goes to the return holder,
        unless the callback is void, and the process enters `returnCallback:`. */
    method BlockEnds(i: TFCallbackInvocation, isVoid: bool, n: int, ghost k: nat)
      requires Valid() && !i.isNull && k < |callbackInvocationStack| && callbackInvocationStack[k] == i
      requires phase[i] == Executing
      modifies `phase, i.address`returnHolder
      ensures Valid() && Image() == WithPhase(old(Image()), k, Awake)
      ensures i.address.returnHolder == if isVoid then old(i.address.returnHolder) else Word(n)
    {
      if !isVoid { i.address.returnHolder := Word(n); }
      phase := phase[i := Awake];
    }

    /** `returnCallback:` up to the pop of the image stack or the wait. */
    method ReturnCallback(i: TFCallbackInvocation) returns (o: Outcome)
      requires Valid() && worker.Chained() && worker.Queued() && i.inv == i.address.Value()
      requires forall j :: 0 <= j < |worker.stack| ==> (worker.native[j] == i.inv ==> worker.stack[j] == i.address)
      requires callbackInvocationStack != [] && !i.isNull ==> i in phase && phase[i] == Awake
      modifies `phase, `waiters, worker, worker.taskQueue, worker.taskQueue.last, worker.taskQueue.semaphore, i`isNull
      ensures Valid() && worker.Chained() && worker.Queued()
      ensures old(i.isNull) || callbackInvocationStack == [] ==>
        o == (if old(i.isNull) then Nothing else OldSession)
        && Image() == old(Image()) && waiters == old(waiters) && worker.State([]) == old(worker.State([]))
      ensures !old(i.isNull) && callbackInvocationStack != [] && i !in callbackInvocationStack ==>
        o == Retry && waiters == old(waiters) + [i] && Image() == old(Image()) && worker.State([]) == old(worker.State([]))
      ensures !old(i.isNull) ==> forall k :: 0 <= k < |callbackInvocationStack| && callbackInvocationStack[k] == i ==>
        (var before := old(worker.State(Image()));
        && o == (if ReturnSucceeds(before, k) then Returned else Retry)
        && (i.isNull <==> o == Returned)
        && worker.State(Image()) == TryReturnAt(before, k))
    {
      if i.isNull { return Nothing; }
      if callbackInvocationStack == [] { return OldSession; }
      var answer := ReturnLive(i);
      o := if answer then Returned else Retry;
    }

    /** ... of a live invocation, whether or not it is on the stack. */
    method ReturnLive(i: TFCallbackInvocation) returns (answer: bool)
      requires Valid() && worker.Chained() && worker.Queued() && i.inv == i.address.Value() && callbackInvocationStack != []
      requires forall j :: 0 <= j < |worker.stack| ==> (worker.native[j] == i.inv ==> worker.stack[j] == i.address)
      requires i in phase && phase[i] == Awake && !i.isNull
      modifies `phase, `waiters, worker, worker.taskQueue, worker.taskQueue.last, worker.taskQueue.semaphore, i`isNull
      ensures Valid() && worker.Chained() && worker.Queued() && (i.isNull <==> answer)
      ensures i !in callbackInvocationStack ==>
        !answer && waiters == old(waiters) + [i] && Image() == old(Image()) && worker.State([]) == old(worker.State([]))
      ensures forall k :: 0 <= k < |callbackInvocationStack| && callbackInvocationStack[k] == i ==>
        (answer <==> ReturnSucceeds(old(worker.State(Image())), k))
        && worker.State(Image()) == TryReturnAt(old(worker.State(Image())), k)
    {
      ghost var rs, image := worker.State([]), Image();
      answer := PassOnce(i);
      PhaseOf(i, if answer then Returning else Waiting, old(phase), image);
      PassedAnywhere(callbackInvocationStack, i, rs, worker.State([]), image, Image(), answer);
    }

    /** The same wherever the invocation is on the stack. */
    static lemma PassedAnywhere(q: seq<TFCallbackInvocation>, i: TFCallbackInvocation, rs: RunnerState, t: RunnerState,
                                image: seq<Live>, image': seq<Live>, answer: bool)
      requires NoDup(q) && q != [] && |q| == |image| && forall k :: 0 <= k < |q| ==> image[k].inv == q[k].inv
      requires answer <==> Last(q) == i && CanReturn(rs, i.inv)
      requires t == if answer then PopNative(rs, i.inv) else rs
      requires forall k :: 0 <= k < |q| && q[k] == i ==> image' == WithPhase(image, k, if answer then Returning else Waiting)
      ensures forall k :: 0 <= k < |q| && q[k] == i ==>
        (answer <==> ReturnSucceeds(rs.(image := image), k)) && t.(image := image') == TryReturnAt(rs.(image := image), k)
    {
      forall k | 0 <= k < |q| && q[k] == i
        ensures (answer <==> ReturnSucceeds(rs.(image := image), k)) && t.(image := image') == TryReturnAt(rs.(image := image), k)
      {
        Passed(rs, t, image, image', k, answer);
      }
    }

    /** The critical section, and the wait when it fails. */
    method PassOnce(i: TFCallbackInvocation) returns (answer: bool)
      requires Valid() && worker.Chained() && worker.Queued() && i.inv == i.address.Value() && callbackInvocationStack != []
      requires forall j :: 0 <= j < |worker.stack| ==> (worker.native[j] == i.inv ==> worker.stack[j] == i.address)
      requires i in phase && phase[i] == Awake
      modifies `phase, `waiters, worker, worker.taskQueue, worker.taskQueue.last, worker.taskQueue.semaphore, i`isNull
      ensures Valid() && worker.Chained() && worker.Queued() && i.isNull == (old(i.isNull) || answer)
      ensures answer <==> Last(callbackInvocationStack) == i && CanReturn(old(worker.State([])), i.inv)
      ensures worker.State([]) == if answer then PopNative(old(worker.State([])), i.inv) else old(worker.State([]))
      ensures phase == old(phase)[i := if answer then Returning else Waiting]
      ensures waiters == if answer then old(waiters) else old(waiters) + [i]
    {
      answer := TryToReturn(i);
      GoOn(i, answer);
    }

    /** The test and the primitive. */
    method TryToReturn(i: TFCallbackInvocation) returns (answer: bool)
      requires worker.Chained() && worker.Queued() && i.inv == i.address.Value() && callbackInvocationStack != []
      requires forall j :: 0 <= j < |worker.stack| ==> (worker.native[j] == i.inv ==> worker.stack[j] == i.address)
      modifies worker, worker.taskQueue, worker.taskQueue.last, worker.taskQueue.semaphore, i`isNull
      ensures worker.Chained() && worker.Queued() && i.isNull == (old(i.isNull) || answer)
      ensures answer <==> Last(callbackInvocationStack) == i && CanReturn(old(worker.State([])), i.inv)
      ensures worker.State([]) == if answer then PopNative(old(worker.State([])), i.inv) else old(worker.State([]))
    {
      answer := false;
      if Last(callbackInvocationStack) == i {
        answer := i.ReturnExecution(worker);
      }
    }

    /** The process goes on to the pop, or joins the queue of callbackReturnSemaphore. */
    method GoOn(i: TFCallbackInvocation, answer: bool)
      requires Valid() && i in phase && phase[i] == Awake
      modifies `phase, `waiters
      ensures Valid() && phase == old(phase)[i := if answer then Returning else Waiting]
      ensures waiters == if answer then old(waiters) else old(waiters) + [i]
    {
      if answer {
        phase := phase[i := Returning];
      } else {
        phase := phase[i := Waiting];
        waiters := waiters + [i];
      }
    }

    /** One pass for entry `k`, put together from its effects on the two stacks. */
    static lemma Passed(rs: RunnerState, t: RunnerState, image: seq<Live>, image': seq<Live>, k: nat, answer: bool)
      requires k < |image| && (answer <==> k == |image| - 1 && CanReturn(rs, image[k].inv))
      requires t == if answer then PopNative(rs, image[k].inv) else rs
      requires image' == WithPhase(image, k, if answer then Returning else Waiting)
      ensures answer <==> ReturnSucceeds(rs.(image := image), k)
      ensures t.(image := image') == TryReturnAt(rs.(image := image), k)
    {
    }

    /** The image stack after one process has changed its phase. */
    lemma PhaseOf(i: TFCallbackInvocation, p: Phase, before: map<TFCallbackInvocation, Phase>, image: seq<Live>)
      requires Valid() && i in before && phase == before[i := p]
      requires |image| == |callbackInvocationStack|
      requires forall k :: 0 <= k < |image| ==>
        callbackInvocationStack[k] in before && image[k] == Live(callbackInvocationStack[k].inv, before[callbackInvocationStack[k]])
      ensures i !in callbackInvocationStack ==> Image() == image
      ensures forall k :: 0 <= k < |image| && callbackInvocationStack[k] == i ==> Image() == WithPhase(image, k, p)
    {
    }

    /** `signalAll`: signal while some process waits. The processes become runnable in order. */
    method SignalAll()
      requires Valid()
      modifies `phase, `waiters
      ensures Valid() && waiters == [] && Image() == WakeAll(old(Image()))
    {
      ghost var before := phase;
      while waiters != []
        invariant Valid() && phase.Keys == before.Keys
        invariant forall i :: i in waiters ==> before[i] == Waiting
        invariant forall i :: i in phase ==>
          phase[i] == if before[i] == Waiting && i !in waiters then Awake else before[i]
        decreases |waiters|
      {
        phase := phase[waiters[0] := Awake];
        waiters := waiters[1..];
      }
    }

    /** The rest of `returnCallback:` after a Returned: pop, then wake everybody. */
    method FinishReturn()
      requires Valid() && callbackInvocationStack != [] && phase[Last(callbackInvocationStack)] == Returning
      modifies this
      ensures Valid()
      ensures worker.State(Image()) == FinishReturnOn(old(worker.State(Image())))
    {
      ghost var image := Image();
      var top := Last(callbackInvocationStack);
      callbackInvocationStack := Front(callbackInvocationStack);
      phase := phase - {top};
      assert Image() == Front(image);
      SignalAll();
    }
  }
}
