/** Plain nested calls: a function and a callback block can only be called from the top of one stack,
    and return to it; and what a run of the protocol shows of that. */
module NestedCalls {
  import opened Prelude
  import opened Protocol

  // ---- the synchronous machine ----

  /** A function being called, or a callback block, with the value it has produced so far. */
  datatype Activation = Calling(call: Call, result: Option<Value>) | Called(inv: Invocation, value: Option<Value>)

  /** What a process or a C function can observe. */
  datatype Event =
    | Invokes(call: Call)                                // a process calls a function
    | FunctionReturns(call: Call, v: Value)              // the function produces its result
    | CallerResumes(call: Call, got: Option<Value>)      // the process reads the result
    | CallsBack(inv: Invocation)                         // a function calls a callback
    | BlockReturns(inv: Invocation, v: Value)            // the block produces its value
    | FunctionResumes(inv: Invocation, got: Option<Value>) // the function reads the value

  type Stack = seq<Activation>

  /** Event `e` is possible on `stack`, called from the process `root` at the bottom. */
  predicate SyncEnabled(stack: Stack, e: Event, root: Process) {
    match e
    case Invokes(c) =>
      if stack == [] then c.caller == root
      else Last(stack).Called? && Last(stack).value == None && c.caller == OfCallback(Last(stack).inv)
    case FunctionReturns(c, _) => stack != [] && Last(stack) == Calling(c, None)
    case CallerResumes(c, got) => stack != [] && Last(stack) == Calling(c, got) && got.Some?
    case CallsBack(_) => stack != [] && Last(stack).Calling? && Last(stack).result == None
    case BlockReturns(i, _) => stack != [] && Last(stack) == Called(i, None)
    case FunctionResumes(i, got) => stack != [] && Last(stack) == Called(i, got) && got.Some?
  }

  function SyncNext(stack: Stack, e: Event, root: Process): Stack
    requires SyncEnabled(stack, e, root)
  {
    match e
    case Invokes(c) => stack + [Calling(c, None)]
    case FunctionReturns(c, v) => Front(stack) + [Calling(c, Some(v))]
    case CallerResumes(_, _) => Front(stack)
    case CallsBack(i) => stack + [Called(i, None)]
    case BlockReturns(i, v) => Front(stack) + [Called(i, Some(v))]
    case FunctionResumes(_, _) => Front(stack)
  }

  /** `events` is a run of the synchronous machine from `stack`. */
  predicate Sync(stack: Stack, events: seq<Event>, root: Process)
    decreases |events|
  {
    events == [] || (SyncEnabled(stack, events[0], root) && Sync(SyncNext(stack, events[0], root), events[1..], root))
  }

  function SyncEnd(stack: Stack, events: seq<Event>, root: Process): Stack
    requires Sync(stack, events, root)
    decreases |events|
  {
    if events == [] then stack else SyncEnd(SyncNext(stack, events[0], root), events[1..], root)
  }

  /** `events` is a run of the machine from `stack` to `end`. */
  ghost predicate Goes(stack: Stack, events: seq<Event>, end: Stack, root: Process) {
    Sync(stack, events, root) && SyncEnd(stack, events, root) == end
  }

  // ---- what the protocol shows ----

  function Lookup<K, V>(m: map<K, V>, k: K): Option<V> {
    if k in m then Some(m[k]) else None
  }

  /** The event of runner `r` that step `a` shows, if any. Callbacks entered on other threads are not
      nested in a function of the worker and show no event here. A function that resumes reads the return
      holder of the frame that ended, whatever invocation the return belonged to. */
  function Observe(s: State, a: Step, r: nat): seq<Event>
    requires Enabled(s, a) && r < |s.runners|
  {
    var rs := s.runners[r];
    match a
    case Dispatch(q, p) => if q == r then [Invokes(Call(s.nextCall, r, p))] else []
    case CalloutEnds(q, v) => if q == r then [FunctionReturns(Last(rs.frames).call, v)] else []
    case OwnCallback(q) => if q == r then [CallsBack(Invocation(s.nextId, r, false))] else []
    case BlockEnds(q, k, v) => if q == r && !rs.image[k].inv.foreign then [BlockReturns(rs.image[k].inv, v)] else []
    case TakeTask(q) =>
      if q == r && NullReturn(rs.tasks[0]) && rs.frames != [] then
        [FunctionResumes(Last(rs.frames).inv, Lookup(s.holder, Last(rs.frames).inv))]
      else []
    case CallerResumes(p) =>
      if s.awaiting[p].runner == r then [Event.CallerResumes(s.awaiting[p], Lookup(s.result, s.awaiting[p]))] else []
    case _ => []
  }

  function Trace(s: State, run: seq<Step>, r: nat): seq<Event>
    requires Valid(s, run) && r < |s.runners|
    decreases |run|
  {
    if run == [] then [] else Observe(s, run[0], r) + Trace(Next(s, run[0]), run[1..], r)
  }

  // ---- what nested calls guarantee ----

  /** Every value on the stack was produced by the activation that carries it. */
  ghost predicate Produced(stack: Stack, past: seq<Event>) {
    forall k :: 0 <= k < |stack| ==>
      match stack[k]
      case Calling(c, Some(v)) => FunctionReturns(c, v) in past
      case Called(i, Some(v)) => BlockReturns(i, v) in past
      case _ => true
  }

  /** What is read at place `k` was produced before. */
  ghost predicate ReadsOwnValue(events: seq<Event>, k: nat)
    requires k < |events|
  {
    match events[k]
    case CallerResumes(c, got) => got.Some? && FunctionReturns(c, got.value) in events[..k]
    case FunctionResumes(i, got) => got.Some? && BlockReturns(i, got.value) in events[..k]
    case _ => true
  }

  lemma {:induction false} SyncReadsOwnValues(stack: Stack, past: seq<Event>, events: seq<Event>, root: Process)
    requires Sync(stack, events, root) && Produced(stack, past)
    requires forall k :: 0 <= k < |past| ==> ReadsOwnValue(past, k)
    ensures forall k :: 0 <= k < |past + events| ==> ReadsOwnValue(past + events, k)
    decreases |events|
  {
    if events == [] {
      assert past + events == past;
    } else {
      var e := events[0];
      var now := past + [e];
      assert now[..|past|] == past;
      forall k | 0 <= k < |now| ensures ReadsOwnValue(now, k) {
        if k < |past| { assert ReadsOwnValue(past, k) && now[..k] == past[..k]; }
      }
      ProducedStep(stack, past, e, root);
      SyncReadsOwnValues(SyncNext(stack, e, root), now, events[1..], root);
      assert now + events[1..] == past + events;
    }
  }

  lemma ProducedStep(stack: Stack, past: seq<Event>, e: Event, root: Process)
    requires SyncEnabled(stack, e, root) && Produced(stack, past)
    ensures Produced(SyncNext(stack, e, root), past + [e])
  {
  }
}
