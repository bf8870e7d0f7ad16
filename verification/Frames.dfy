/** The C stack of a worker, counted against its callback stack and its queued returns.

    Nothing here needs a hypothesis on the run: even when a CALLBACK_RETURN ends a nested
    `worker_run` that another invocation created, the numbers stay in balance, and the outermost
    `worker_run` never consumes a return. */
module Frames {
  import opened Prelude
  import opened Protocol

  /** The invocations whose `callbackFrontend` is on the C stack, bottom first. */
  function BackInvocations(frames: seq<Frame>): (q: seq<Invocation>) {
    if frames == [] then []
    else BackInvocations(Front(frames)) + if Last(frames).BackFrame? then [Last(frames).inv] else []
  }

  /** The invocations entered on the worker's own thread. */
  function Own(q: seq<Invocation>): (o: seq<Invocation>) {
    Select((i: Invocation) => !i.foreign, q)
  }

  /** The invocations whose queued CALLBACK_RETURN carries no semaphore, oldest first. */
  function NullReturns(tasks: seq<Task>): (q: seq<Invocation>) {
    if tasks == [] then []
    else (if NullReturn(tasks[0]) then [tasks[0].inv] else []) + NullReturns(tasks[1..])
  }

  lemma {:induction false} NullReturnsConcat(a: seq<Task>, b: seq<Task>)
    ensures NullReturns(a + b) == NullReturns(a) + NullReturns(b)
  {
    if a == [] {
      assert a + b == b;
    } else {
      assert (a + b)[0] == a[0] && (a + b)[1..] == a[1..] + b;
      NullReturnsConcat(a[1..], b);
      Associative(if NullReturn(a[0]) then [a[0].inv] else [], NullReturns(a[1..]), NullReturns(b));
    }
  }

  lemma NullReturnsSnoc(a: seq<Task>, t: Task)
    ensures NullReturns(a + [t]) == NullReturns(a) + if NullReturn(t) then [t.inv] else []
  {
    NullReturnsConcat(a, [t]);
    assert [t][1..] == [];
  }

  lemma OwnSnoc(q: seq<Invocation>, inv: Invocation)
    ensures Own(q + [inv]) == Own(q) + if inv.foreign then [] else [inv]
  {
    SelectSnoc((i: Invocation) => !i.foreign, q, inv);
  }

  lemma BackSnoc(frames: seq<Frame>, f: Frame)
    ensures BackInvocations(frames + [f]) == BackInvocations(frames) + if f.BackFrame? then [f.inv] else []
  {
    assert Front(frames + [f]) == frames;
  }

  /** Functions and callbacks alternate, a function first: the root loop runs callouts, a function can
      only call back, and a nested loop can only run callouts. In a callback of another runner the
      thread runs nothing, so such a frame is innermost. */
  ghost predicate Alternating(frames: seq<Frame>) {
    && (forall k :: 0 <= k < |frames| ==> (frames[k].CallFrame? <==> k % 2 == 0))
    && (forall k :: 0 <= k < |frames| - 1 ==> !frames[k].WaitFrame?)
  }

  ghost predicate Balanced(rs: RunnerState) {
    && !rs.rootReturned
    && Alternating(rs.frames)
    && |BackInvocations(rs.frames)| == |Own(rs.native)| + |NullReturns(rs.tasks)|
  }

  lemma BalancedTake(rs: RunnerState)
    requires Balanced(rs) && Idle(rs) && rs.tasks != []
    ensures Balanced(Take(rs))
  {
    match rs.tasks[0]
    case Callout(c) => BackSnoc(rs.frames, CallFrame(c));
    case CallbackReturn(_) =>
  }

  lemma BalancedEnter(rs: RunnerState, inv: Invocation)
    requires Balanced(rs) && (inv.foreign || InFunction(rs))
    ensures Balanced(Enter(rs, inv))
  {
    OwnSnoc(rs.native, inv);
    if !inv.foreign { BackSnoc(rs.frames, BackFrame(inv)); }
  }

  lemma BalancedAway(rs: RunnerState, inv: Invocation)
    requires Balanced(rs) && InFunction(rs)
    ensures Balanced(rs.(frames := rs.frames + [WaitFrame(inv)]))
  {
    BackSnoc(rs.frames, WaitFrame(inv));
  }

  lemma BalancedTryReturn(rs: RunnerState, k: nat)
    requires Balanced(rs) && k < |rs.image|
    ensures Balanced(TryReturnAt(rs, k))
  {
    if ReturnSucceeds(rs, k) {
      SelectFront((i: Invocation) => !i.foreign, rs.native);
      NullReturnsSnoc(rs.tasks, CallbackReturn(rs.image[k].inv));
    }
  }

  lemma BalancedStep(s: State, a: Step, r: nat)
    requires Enabled(s, a) && r < |s.runners| && Balanced(s.runners[r])
    ensures Balanced(Next(s, a).runners[r])
  {
    if Touches(s, a, r) {
      var rs := s.runners[r];
      match a
      case Dispatch(_, p) => NullReturnsSnoc(rs.tasks, Callout(Call(s.nextCall, r, p)));
      case TakeTask(_) => BalancedTake(rs);
      case OwnCallback(_) => BalancedEnter(rs, Invocation(s.nextId, r, false));
      case ForeignCallback(_) => BalancedEnter(rs, Invocation(s.nextId, r, true));
      case CrossCallback(q, x) =>
        CrossEffect(s, q, x);
        if q == r { BalancedAway(rs, Invocation(s.nextId, x, true)); } else { BalancedEnter(rs, Invocation(s.nextId, r, true)); }
      case TryReturn(_, k) => BalancedTryReturn(rs, k);
      case _ =>
    } else {
      Untouched(s, a, r);
    }
  }

  lemma {:induction false} BalancedRun(s: State, run: seq<Step>)
    requires Valid(s, run) && forall r :: 0 <= r < |s.runners| ==> Balanced(s.runners[r])
    ensures var t := Exec(s, run); |t.runners| == |s.runners| && forall r :: 0 <= r < |t.runners| ==> Balanced(t.runners[r])
    decreases |run|
  {
    if run != [] {
      forall r | 0 <= r < |s.runners| ensures Balanced(Next(s, run[0]).runners[r]) {
        BalancedStep(s, run[0], r);
      }
      BalancedRun(Next(s, run[0]), run[1..]);
    }
  }

  /** Frame conservation, and the outermost `worker_run` of a worker never returns. */
  lemma FramesConserved(s: State, r: nat)
    requires Reachable(s) && r < |s.runners|
    ensures |BackInvocations(s.runners[r].frames)| == |Own(s.runners[r].native)| + |NullReturns(s.runners[r].tasks)|
    ensures !s.runners[r].rootReturned
    ensures Alternating(s.runners[r].frames)
  {
    var n: nat, run: seq<Step> :| Reaches(Init(n), run, s);
    BalancedRun(Init(n), run);
  }

  /** Whenever a return without semaphore is at the head of the queue and the worker is about to
      take it, there is a nested `worker_run` for it to end. */
  lemma NullReturnFindsALoop(s: State, r: nat)
    requires Reachable(s) && r < |s.runners| && Idle(s.runners[r])
    requires s.runners[r].tasks != [] && NullReturn(s.runners[r].tasks[0])
    ensures s.runners[r].frames != [] && Last(s.runners[r].frames).BackFrame?
    ensures !Take(s.runners[r]).rootReturned
  {
    FramesConserved(s, r);
  }
}
