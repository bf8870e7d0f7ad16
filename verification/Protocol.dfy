/** The callout/callback protocol as a state machine.

    One step is one action of one participant that the others can observe: an iteration of the
    loop in `worker_run`, a C function returning or calling back, the callback process of the
    image taking an invocation, one pass through the critical section of `returnCallback:`, ...
    An entry takes two steps, the push on the callback stack and the enqueueing for the image,
    between which every other participant can act.
    Any number of runners share one queue of pending callbacks. */
module Protocol {
  import opened Prelude

  /** What a C function or a block leaves in its return holder: nothing when its type is void. */
  datatype Value = Void | Word(n: int)

  /** A CallbackInvocation. `foreign` tells that its payload is a semaphore: it was entered on a
      thread other than the worker's. With a NULL payload it was entered on the worker's thread. */
  datatype Invocation = Invocation(id: nat, runner: nat, foreign: bool)

  /** The green process that runs a callback block, or any other green process. */
  datatype Process = Green(n: nat) | OfCallback(inv: Invocation)

  datatype Call = Call(id: nat, runner: nat, caller: Process)

  /** A WorkerTask. Of the invocation in a CallbackReturn the worker reads the payload only. */
  datatype Task = Callout(call: Call) | CallbackReturn(inv: Invocation)

  /** A return whose task carries no semaphore. */
  predicate NullReturn(t: Task) {
    t.CallbackReturn? && !t.inv.foreign
  }

  /** The C stack of a worker thread above its root `worker_run`: a CallFrame is a function under
      `ffi_call`, a BackFrame is a `callbackFrontend` with the `worker_run` nested in it, a WaitFrame is
      a `callbackFrontend` for a callback of another runner, which waits on a semaphore. */
  datatype Frame = CallFrame(call: Call) | BackFrame(inv: Invocation) | WaitFrame(inv: Invocation)

  /** Where the green process of a callback is: running the block; about to pass through
      `returnCallback:`; waiting on `callbackReturnSemaphore`; or inside the critical section,
      after the primitive answered true and before the image stack is popped. */
  datatype Phase = Executing | Awake | Waiting | Returning

  /** An entry of `callbackInvocationStack` with the phase of its process. */
  datatype Live = Live(inv: Invocation, phase: Phase)

  datatype RunnerState = RunnerState(
    native: seq<Invocation>,    // runner->callbackStack, bottom first
    entering: seq<Invocation>,  // pushed there and not yet queued for the image, oldest push first
    tasks: seq<Task>,           // worker->taskQueue
    frames: seq<Frame>,         // C stack of the worker's thread, bottom first
    rootReturned: bool,         // the outermost worker_run has returned
    image: seq<Live>,           // callbackInvocationStack, bottom first
    returned: seq<Invocation>   // history: the primitive answered true for these, in this order
  )

  const NEW_RUNNER := RunnerState([], [], [], [], false, [], [])

  datatype State = State(
    runners: seq<RunnerState>,
    pending: seq<Invocation>,       // callbackQueue
    inFlight: Option<Invocation>,   // taken by the callback process, not yet on an image stack
    nextId: nat,
    holder: map<Invocation, Value>, // return holders of the callback blocks that have ended
    nextCall: nat,
    result: map<Call, Value>,       // return holders of the functions that have returned
    awaiting: map<Process, Call>,   // processes waiting on the semaphore of their callout
    signals: multiset<Invocation>,  // signals of the private semaphores of foreign invocations
    resumed: seq<Invocation>        // history: foreign threads that got past their wait
  )

  datatype Step =
    | Dispatch(r: nat, p: Process)
    | TakeTask(r: nat)
    | CalloutEnds(r: nat, v: Value)
    | OwnCallback(r: nat)
    | ForeignCallback(r: nat)
    | CrossCallback(q: nat, r: nat)  // a function on worker q calls a callback of runner r
    | CrossResumes(r: nat)           // ... and goes on
    | Enqueue(r: nat, k: nat)
    | ForeignResumes(inv: Invocation)
    | ReadPending
    | PushImage
    | BlockEnds(r: nat, k: nat, v: Value)
    | TryReturn(r: nat, k: nat)
    | FinishReturn(r: nat)
    | CallerResumes(p: Process)

  // ---- one runner ----

  /** `callbackFrontend` up to the preparation of the payload. On the worker's own thread its frame is
      now the innermost of that C stack. */
  function Enter(rs: RunnerState, inv: Invocation): RunnerState {
    rs.(native := rs.native + [inv], entering := rs.entering + [inv],
        frames := if inv.foreign then rs.frames else rs.frames + [BackFrame(inv)])
  }

  /** The innermost frame is a `worker_run` waiting for tasks: the outermost one, or one that
      `worker_enter_callback` has entered, which it does once the invocation is queued. */
  predicate Idle(rs: RunnerState) {
    !rs.rootReturned && (rs.frames == [] || (Last(rs.frames).BackFrame? && Last(rs.frames).inv !in rs.entering))
  }

  /** The innermost frame is a C function. */
  predicate InFunction(rs: RunnerState) {
    !rs.rootReturned && rs.frames != [] && Last(rs.frames).CallFrame?
  }

  /** The thread waits inside a callback of another runner, and serves no task. */
  predicate Away(rs: RunnerState) {
    rs.frames != [] && Last(rs.frames).WaitFrame?
  }

  /** One iteration of the loop in `worker_run`. */
  function Take(rs: RunnerState): RunnerState
    requires Idle(rs) && rs.tasks != []
  {
    var rest := rs.(tasks := rs.tasks[1..]);
    match rs.tasks[0]
    case Callout(c) => rest.(frames := rs.frames + [CallFrame(c)])
    case CallbackReturn(inv) =>
      if inv.foreign then rest
      else if rs.frames == [] then rest.(rootReturned := true)
      else rest.(frames := Front(rs.frames))
  }

  /** The test of `primitiveCallbackReturn`. */
  predicate CanReturn(rs: RunnerState, inv: Invocation) {
    rs.native != [] && Last(rs.native) == inv
  }

  /** What `primitiveCallbackReturn` does when it answers true. */
  function PopNative(rs: RunnerState, inv: Invocation): RunnerState
    requires CanReturn(rs, inv)
  {
    rs.(native := Front(rs.native), tasks := rs.tasks + [CallbackReturn(inv)], returned := rs.returned + [inv])
  }

  /** Some process is between the primitive and the pop of the image stack, holding stackProtect. */
  predicate Locked(rs: RunnerState) {
    exists k :: 0 <= k < |rs.image| && rs.image[k].phase == Returning
  }

  /** The critical section of `returnCallback:` reaches the pop. */
  predicate ReturnSucceeds(rs: RunnerState, k: nat) {
    k == |rs.image| - 1 && CanReturn(rs, rs.image[k].inv)
  }

  function WithPhase(image: seq<Live>, k: nat, p: Phase): (r: seq<Live>)
    requires k < |image|
    ensures |r| == |image|
    ensures forall j :: 0 <= j < |image| ==> r[j] == if j == k then Live(image[k].inv, p) else image[j]
  {
    image[k := Live(image[k].inv, p)]
  }

  /** `returnCallback:` for entry `k`, up to the pop or the wait. */
  function TryReturnAt(rs: RunnerState, k: nat): RunnerState
    requires k < |rs.image|
  {
    if ReturnSucceeds(rs, k) then
      PopNative(rs, rs.image[k].inv).(image := WithPhase(rs.image, k, Returning))
    else
      rs.(image := WithPhase(rs.image, k, Waiting))
  }

  /** `signalAll` on callbackReturnSemaphore. */
  function WakeAll(image: seq<Live>): (r: seq<Live>)
    ensures |r| == |image|
    ensures forall j :: 0 <= j < |image| ==>
      r[j].inv == image[j].inv && r[j].phase == if image[j].phase == Waiting then Awake else image[j].phase
  {
    seq(|image|, j requires 0 <= j < |image| =>
      Live(image[j].inv, if image[j].phase == Waiting then Awake else image[j].phase))
  }

  predicate CanFinish(rs: RunnerState) {
    rs.image != [] && Last(rs.image).phase == Returning
  }

  /** The pop of the image stack and the `signalAll` after it. */
  function FinishReturnOn(rs: RunnerState): RunnerState
    requires CanFinish(rs)
  {
    rs.(image := WakeAll(Front(rs.image)))
  }

  // ---- the whole system ----

  function Init(n: nat): State {
    State(seq(n, _ => NEW_RUNNER), [], None, 0, map[], 0, map[], map[], multiset{}, [])
  }

  /** The block of `inv` is running, so its process can act. */
  predicate Runs(s: State, inv: Invocation) {
    inv.runner < |s.runners| && Live(inv, Executing) in s.runners[inv.runner].image
  }

  /** The thread that entered `inv` is a worker's. */
  predicate Crossing(s: State, inv: Invocation) {
    exists q :: 0 <= q < |s.runners| && s.runners[q].frames != [] && Last(s.runners[q].frames) == WaitFrame(inv)
  }

  predicate Enabled(s: State, a: Step) {
    match a
    case Dispatch(r, p) => r < |s.runners| && p !in s.awaiting && (p.OfCallback? ==> Runs(s, p.inv))
    case TakeTask(r) => r < |s.runners| && Idle(s.runners[r]) && s.runners[r].tasks != []
    case CalloutEnds(r, _) => r < |s.runners| && InFunction(s.runners[r])
    case OwnCallback(r) => r < |s.runners| && InFunction(s.runners[r])
    case ForeignCallback(r) => r < |s.runners|
    case CrossCallback(q, r) => q < |s.runners| && r < |s.runners| && q != r && InFunction(s.runners[q])
    case CrossResumes(r) => r < |s.runners| && Away(s.runners[r]) && s.signals[Last(s.runners[r].frames).inv] > 0
    case Enqueue(r, k) => r < |s.runners| && k < |s.runners[r].entering|
    case ForeignResumes(inv) => s.signals[inv] > 0 && !Crossing(s, inv)
    case ReadPending => s.inFlight == None && s.pending != []
    case PushImage =>
      s.inFlight.Some? && s.inFlight.value.runner < |s.runners| && !Locked(s.runners[s.inFlight.value.runner])
    case BlockEnds(r, k, _) =>
      && r < |s.runners| && k < |s.runners[r].image|
      && s.runners[r].image[k].phase == Executing
      && OfCallback(s.runners[r].image[k].inv) !in s.awaiting
    case TryReturn(r, k) =>
      && r < |s.runners| && k < |s.runners[r].image|
      && s.runners[r].image[k].phase == Awake && !Locked(s.runners[r])
    case FinishReturn(r) => r < |s.runners| && CanFinish(s.runners[r])
    case CallerResumes(p) => p in s.awaiting && s.awaiting[p] in s.result
  }

  function WithRunner(s: State, r: nat, rs: RunnerState): (t: State)
    requires r < |s.runners|
    ensures |t.runners| == |s.runners| && t.runners[r] == rs
    ensures forall q :: 0 <= q < |s.runners| && q != r ==> t.runners[q] == s.runners[q]
  {
    s.(runners := s.runners[r := rs])
  }

  function Next(s: State, a: Step): (t: State)
    requires Enabled(s, a)
    ensures |t.runners| == |s.runners|
  {
    match a
    case Dispatch(r, p) =>
      var c := Call(s.nextCall, r, p);
      var rs := s.runners[r];
      WithRunner(s, r, rs.(tasks := rs.tasks + [Callout(c)])).(
        nextCall := s.nextCall + 1, awaiting := s.awaiting[p := c])
    case TakeTask(r) =>
      var t := s.runners[r].tasks[0];
      WithRunner(s, r, Take(s.runners[r])).(
        signals := if t.CallbackReturn? && t.inv.foreign then s.signals[t.inv := s.signals[t.inv] + 1] else s.signals)
    case CalloutEnds(r, v) =>
      var rs := s.runners[r];
      WithRunner(s, r, rs.(frames := Front(rs.frames))).(result := s.result[Last(rs.frames).call := v])
    case OwnCallback(r) => Entered(s, r, Invocation(s.nextId, r, false))
    case ForeignCallback(r) => Entered(s, r, Invocation(s.nextId, r, true))
    case CrossCallback(q, r) =>
      var inv := Invocation(s.nextId, r, true);
      WithRunner(Entered(s, r, inv), q, s.runners[q].(frames := s.runners[q].frames + [WaitFrame(inv)]))
    case CrossResumes(r) =>
      var inv := Last(s.runners[r].frames).inv;
      WithRunner(s, r, s.runners[r].(frames := Front(s.runners[r].frames))).(
        signals := s.signals[inv := s.signals[inv] - 1], resumed := s.resumed + [inv])
    case Enqueue(r, k) =>
      var rs := s.runners[r];
      WithRunner(s, r, rs.(entering := Without(rs.entering, k))).(pending := s.pending + [rs.entering[k]])
    case ForeignResumes(inv) =>
      s.(signals := s.signals[inv := s.signals[inv] - 1], resumed := s.resumed + [inv])
    case ReadPending => s.(inFlight := Some(s.pending[0]), pending := s.pending[1..])
    case PushImage =>
      var inv := s.inFlight.value;
      var rs := s.runners[inv.runner];
      WithRunner(s, inv.runner, rs.(image := rs.image + [Live(inv, Executing)])).(inFlight := None)
    case BlockEnds(r, k, v) =>
      var rs := s.runners[r];
      WithRunner(s, r, rs.(image := WithPhase(rs.image, k, Awake))).(holder := s.holder[rs.image[k].inv := v])
    case TryReturn(r, k) => WithRunner(s, r, TryReturnAt(s.runners[r], k))
    case FinishReturn(r) => WithRunner(s, r, FinishReturnOn(s.runners[r]))
    case CallerResumes(p) => s.(awaiting := s.awaiting - {p})
  }

  /** `callbackFrontend` pushes a new invocation on the runner's stack. */
  function Entered(s: State, r: nat, inv: Invocation): State
    requires r < |s.runners|
  {
    WithRunner(s, r, Enter(s.runners[r], inv)).(nextId := s.nextId + 1)
  }

  /** The step pushes a new invocation on the callback stack of runner `r`. */
  predicate Enters(a: Step, r: nat) {
    a == OwnCallback(r) || a == ForeignCallback(r) || (a.CrossCallback? && a.r == r)
  }

  /** The step changes runner `r`. */
  predicate Touches(s: State, a: Step, r: nat) {
    match a
    case Dispatch(q, _) => q == r
    case TakeTask(q) => q == r
    case CalloutEnds(q, _) => q == r
    case OwnCallback(q) => q == r
    case ForeignCallback(q) => q == r
    case CrossCallback(p, q) => p == r || q == r
    case CrossResumes(q) => q == r
    case Enqueue(q, _) => q == r
    case PushImage => s.inFlight.Some? && s.inFlight.value.runner == r
    case BlockEnds(q, _, _) => q == r
    case TryReturn(q, _) => q == r
    case FinishReturn(q) => q == r
    case _ => false
  }

  lemma Untouched(s: State, a: Step, r: nat)
    requires Enabled(s, a) && r < |s.runners| && !Touches(s, a, r)
    ensures |Next(s, a).runners| == |s.runners| && Next(s, a).runners[r] == s.runners[r]
    ensures Next(s, a).nextId >= s.nextId
  {
  }

  /** A block runs until its own end. */
  lemma StaysRunning(s: State, a: Step, i: Invocation)
    requires Enabled(s, a) && Runs(s, i) && (a.BlockEnds? ==> s.runners[a.r].image[a.k].inv != i)
    ensures Runs(Next(s, a), i)
  {
    var image := s.runners[i.runner].image;
    var k :| 0 <= k < |image| && image[k] == Live(i, Executing);
    if !Touches(s, a, i.runner) {
      Untouched(s, a, i.runner);
    } else {
      assert k < |Next(s, a).runners[i.runner].image| && Next(s, a).runners[i.runner].image[k] == Live(i, Executing);
    }
  }

  /** What a callback of another runner changes on both. */
  lemma CrossEffect(s: State, q: nat, r: nat)
    requires Enabled(s, CrossCallback(q, r))
    ensures
      var t, inv := Next(s, CrossCallback(q, r)), Invocation(s.nextId, r, true);
      && |t.runners| == |s.runners| && t.runners[r] == Enter(s.runners[r], inv)
      && t.runners[q] == s.runners[q].(frames := s.runners[q].frames + [WaitFrame(inv)])
      && t.nextId == s.nextId + 1 && t.pending == s.pending && t.inFlight == s.inFlight && t.holder == s.holder
      && t.awaiting == s.awaiting && t.result == s.result && t.signals == s.signals && t.resumed == s.resumed
      && t.nextCall == s.nextCall
  {
  }

  /** What an entry changes on the runner it enters. */
  lemma EnterEffect(s: State, a: Step, r: nat)
    requires Enabled(s, a) && r < |s.runners| && Enters(a, r)
    ensures Next(s, a).runners[r] == Enter(s.runners[r], Invocation(s.nextId, r, !a.OwnCallback?))
    ensures Next(s, a).nextId == s.nextId + 1 && Next(s, a).nextCall == s.nextCall
  {
    if a.CrossCallback? { CrossEffect(s, a.q, a.r); }
  }

  /** Nothing is forgotten about numbers already given. */
  lemma IdsGrow(s: State, a: Step, r: nat)
    requires Enabled(s, a) && r < |s.runners|
    ensures Next(s, a).nextId == s.nextId + if a.OwnCallback? || a.ForeignCallback? || a.CrossCallback? then 1 else 0
    ensures |Next(s, a).runners| == |s.runners|
  {
  }

  // ---- what a step changes, field by field ----

  /** The tasks that a step leaves in the queue of runner `r`. */
  function TasksAfter(s: State, a: Step, r: nat): seq<Task>
    requires Enabled(s, a) && r < |s.runners|
  {
    var rs := s.runners[r];
    if !Touches(s, a, r) then rs.tasks
    else if a.Dispatch? then rs.tasks + [Callout(Call(s.nextCall, r, a.p))]
    else if a.TryReturn? && ReturnSucceeds(rs, a.k) then rs.tasks + [CallbackReturn(rs.image[a.k].inv)]
    else if a.TakeTask? then rs.tasks[1..]
    else rs.tasks
  }

  lemma TasksEffect(s: State, a: Step, r: nat)
    requires Enabled(s, a) && r < |s.runners|
    ensures Next(s, a).runners[r].tasks == TasksAfter(s, a, r)
  {
    if a.CrossCallback? { CrossEffect(s, a.q, a.r); }
    if !Touches(s, a, r) { Untouched(s, a, r); }
  }

  /** The frames that a step leaves on the C stack of runner `r`. */
  function FramesAfter(s: State, a: Step, r: nat): seq<Frame>
    requires Enabled(s, a) && r < |s.runners|
  {
    var frames := s.runners[r].frames;
    if a == OwnCallback(r) then frames + [BackFrame(Invocation(s.nextId, r, false))]
    else if a.CrossCallback? && a.q == r then frames + [WaitFrame(Invocation(s.nextId, a.r, true))]
    else if (a.CalloutEnds? && a.r == r) || a == CrossResumes(r) then Front(frames)
    else if a == TakeTask(r) then Take(s.runners[r]).frames
    else frames
  }

  lemma FramesEffect(s: State, a: Step, r: nat)
    requires Enabled(s, a) && r < |s.runners|
    ensures Next(s, a).runners[r].frames == FramesAfter(s, a, r)
  {
    if a.CrossCallback? {
      CrossEffect(s, a.q, a.r);
    } else if !Touches(s, a, r) {
      Untouched(s, a, r);
    } else if !a.TakeTask? {
      FramesUnlessTaken(s, a, r);
    }
  }

  lemma FramesUnlessTaken(s: State, a: Step, r: nat)
    requires Enabled(s, a) && r < |s.runners| && Touches(s, a, r) && !a.CrossCallback? && !a.TakeTask?
    ensures Next(s, a).runners[r].frames == FramesAfter(s, a, r)
  {
  }

  /** Return holders, waits and numbers of calls are the business of few steps. */
  lemma WritesEffect(s: State, a: Step)
    requires Enabled(s, a)
    ensures !a.BlockEnds? ==> Next(s, a).holder == s.holder
    ensures !a.CalloutEnds? ==> Next(s, a).result == s.result
    ensures !a.Dispatch? && !a.CallerResumes? ==> Next(s, a).awaiting == s.awaiting
    ensures !a.Dispatch? ==> Next(s, a).nextCall == s.nextCall
  {
    match a {
      case TakeTask(_) =>
      case CrossCallback(q, r) => CrossEffect(s, q, r);
      case TryReturn(_, _) =>
      case FinishReturn(_) =>
      case _ =>
    }
  }

  // ---- runs ----

  /** Every step of `run` is enabled when its turn comes, from `s` on. */
  predicate Valid(s: State, run: seq<Step>)
    decreases |run|
  {
    run == [] || (Enabled(s, run[0]) && Valid(Next(s, run[0]), run[1..]))
  }

  /** The state after `run`. */
  function Exec(s: State, run: seq<Step>): State
    requires Valid(s, run)
    decreases |run|
  {
    if run == [] then s else Exec(Next(s, run[0]), run[1..])
  }

  ghost predicate Reaches(s: State, run: seq<Step>, t: State) {
    Valid(s, run) && t == Exec(s, run)
  }

  ghost predicate Reachable(s: State) {
    exists n: nat, run: seq<Step> :: Reaches(Init(n), run, s)
  }

  lemma ExecHead(s: State, run: seq<Step>)
    requires run != [] && Valid(s, run)
    ensures Enabled(s, run[0]) && Valid(Next(s, run[0]), run[1..])
    ensures Exec(s, run) == Exec(Next(s, run[0]), run[1..])
  {
  }

  lemma ExecCons(s: State, a: Step, rest: seq<Step>)
    requires Enabled(s, a) && Valid(Next(s, a), rest)
    ensures Valid(s, [a] + rest) && Exec(s, [a] + rest) == Exec(Next(s, a), rest)
  {
    var run := [a] + rest;
    assert run[0] == a && run[1..] == rest;
  }

  lemma {:induction false} ExecConcat(s: State, a: seq<Step>, b: seq<Step>)
    requires Valid(s, a) && Valid(Exec(s, a), b)
    ensures Valid(s, a + b) && Exec(s, a + b) == Exec(Exec(s, a), b)
    decreases |a|
  {
    if a == [] {
      assert a + b == b;
    } else {
      ExecHead(s, a);
      var t, rest := Next(s, a[0]), a[1..];
      ExecConcat(t, rest, b);
      ExecCons(s, a[0], rest + b);
      Rejoin(a, b);
    }
  }

  lemma ReachableStep(s: State, a: Step)
    requires Reachable(s) && Enabled(s, a)
    ensures Reachable(Next(s, a))
  {
    var n: nat, run: seq<Step> :| Reaches(Init(n), run, s);
    var one := [a];
    assert one[0] == a && one[1..] == [];
    assert Valid(Next(s, a), one[1..]) && Exec(Next(s, a), one[1..]) == Next(s, a);
    ExecConcat(Init(n), run, one);
    assert Reaches(Init(n), run + one, Next(s, a));
  }

  lemma ReachableInit(n: nat)
    ensures Reachable(Init(n))
  {
    assert Reaches(Init(n), [], Init(n));
  }

  lemma {:induction false} RunnersStay(s: State, run: seq<Step>)
    requires Valid(s, run)
    ensures |Exec(s, run).runners| == |s.runners|
    decreases |run|
  {
    if run != [] {
      RunnersStay(Next(s, run[0]), run[1..]);
    }
  }
}
