/** What the refinement looks at of one runner, and how each kind of step changes it.

    Hypothesis: besides the callbacks that the worker's own thread has entered, one green process
    issues the callouts of the runner. */
module RefinementViews {
  import opened Prelude
  import opened Protocol
  import opened Frames
  import opened NestedCalls

  predicate ChangesStack(t: Task) {
    t.Callout? || NullReturn(t)
  }

  /** The tasks that will change the C stack: all but the returns of foreign invocations. */
  function Work(tasks: seq<Task>): (w: seq<Task>)
    ensures forall t :: t in w <==> t in tasks && ChangesStack(t)
  {
    if tasks == [] then [] else (if ChangesStack(tasks[0]) then [tasks[0]] else []) + Work(tasks[1..])
  }

  lemma {:induction false} WorkSnoc(tasks: seq<Task>, t: Task)
    ensures Work(tasks + [t]) == Work(tasks) + if ChangesStack(t) then [t] else []
  {
    if tasks == [] {
      assert [t][1..] == [];
    } else {
      WorkSnoc(tasks[1..], t);
      assert (tasks + [t])[0] == tasks[0] && (tasks + [t])[1..] == tasks[1..] + [t];
      Associative(if ChangesStack(tasks[0]) then [tasks[0]] else [], Work(tasks[1..]), if ChangesStack(t) then [t] else []);
    }
  }

  lemma WorkTaken(tasks: seq<Task>)
    requires tasks != [] && ChangesStack(tasks[0]) && |Work(tasks)| <= 1
    ensures Work(tasks) == [tasks[0]] && Work(tasks[1..]) == []
  {
    assert Work(tasks) == [tasks[0]] + Work(tasks[1..]);
  }

  /** The C stack, the queued tasks that will change it, the own-thread part of the callback stack, and
      the values and waits of the whole system. */
  datatype View = View(
    frames: seq<Frame>, work: seq<Task>, own: seq<Invocation>,
    holder: map<Invocation, Value>, result: map<Call, Value>, awaiting: map<Process, Call>)

  /** The C stack without a callback of another runner at its top. */
  function Solid(frames: seq<Frame>): seq<Frame> {
    if frames != [] && Last(frames).WaitFrame? then Front(frames) else frames
  }

  lemma SolidAlternates(frames: seq<Frame>)
    requires Alternating(frames)
    ensures Alternating(Solid(frames)) && BackInvocations(Solid(frames)) == BackInvocations(frames)
    ensures Solid(frames) != [] ==> !Last(Solid(frames)).WaitFrame?
  {
    if frames != [] && Last(frames).WaitFrame? {
      assert BackInvocations(Front(frames)) + [] == BackInvocations(Front(frames));
    }
  }

  function ViewOf(s: State, r: nat): View
    requires r < |s.runners|
  {
    var rs := s.runners[r];
    View(Solid(rs.frames), Work(rs.tasks), Own(rs.native), s.holder, s.result, s.awaiting)
  }

  // ---- the refinement mapping ----

  predicate Functioning(v: View) {
    v.frames != [] && Last(v.frames).CallFrame?
  }

  /** The process that a frame of the C stack was called from. */
  function Caller(frames: seq<Frame>, k: nat, root: Process): Process
    requires k <= |frames|
  {
    if k > 0 && frames[k - 1].BackFrame? then OfCallback(frames[k - 1].inv) else root
  }

  /** The process that the innermost loop serves. */
  function Innermost(v: View, root: Process): Process {
    Caller(v.frames, |v.frames|, root)
  }

  function AbsFrame(f: Frame, holder: map<Invocation, Value>): Activation {
    if f.CallFrame? then Calling(f.call, None) else Called(f.inv, Lookup(holder, f.inv))
  }

  function AbsFrames(frames: seq<Frame>, holder: map<Invocation, Value>): (q: Stack)
    ensures |q| == |frames| && forall k :: 0 <= k < |q| ==> q[k] == AbsFrame(frames[k], holder)
  {
    seq(|frames|, k requires 0 <= k < |frames| => AbsFrame(frames[k], holder))
  }

  /** A callout that its process waits for and that is not on the C stack: not started yet, or over. */
  function AbsTop(v: View, r: nat, root: Process): Stack {
    var p := Innermost(v, root);
    if !Functioning(v) && p in v.awaiting && v.awaiting[p].runner == r then
      [Calling(v.awaiting[p], Lookup(v.result, v.awaiting[p]))]
    else []
  }

  function Abs(v: View, r: nat, root: Process): Stack {
    AbsFrames(v.frames, v.holder) + AbsTop(v, r, root)
  }

  lemma AbsSnoc(frames: seq<Frame>, f: Frame, holder: map<Invocation, Value>)
    ensures AbsFrames(frames + [f], holder) == AbsFrames(frames, holder) + [AbsFrame(f, holder)]
  {
  }

  lemma AbsFront(frames: seq<Frame>, holder: map<Invocation, Value>)
    requires frames != []
    ensures AbsFrames(Front(frames), holder) == Front(AbsFrames(frames, holder))
    ensures Last(AbsFrames(frames, holder)) == AbsFrame(Last(frames), holder)
  {
  }

  lemma AbsWithoutTop(v: View, r: nat, root: Process)
    requires AbsTop(v, r, root) == []
    ensures Abs(v, r, root) == AbsFrames(v.frames, v.holder)
  {
  }

  // ---- the invariant ----

  /** Every function on the C stack is awaited by the process of the frame under it. */
  ghost predicate FramesAwaited(v: View, root: Process) {
    forall k :: 0 <= k < |v.frames| && v.frames[k].CallFrame? ==>
      v.frames[k].call !in v.result && v.frames[k].call.caller == Caller(v.frames, k, root)
      && v.frames[k].call.caller in v.awaiting && v.awaiting[v.frames[k].call.caller] == v.frames[k].call
  }

  /** Every process that waits for a callout of the runner is one of those, or the innermost. */
  ghost predicate AwaitedFramed(v: View, r: nat, root: Process) {
    forall p :: p in v.awaiting && v.awaiting[p].runner == r ==>
      CallFrame(v.awaiting[p]) in v.frames || (!Functioning(v) && p == Innermost(v, root))
  }

  /** At most one task that changes the C stack is queued, and it concerns the innermost process. */
  ghost predicate OneTask(v: View, root: Process) {
    v.work == [] || (|v.work| == 1 && !Functioning(v) &&
      match v.work[0]
      case Callout(c) => c !in v.result && Innermost(v, root) in v.awaiting && v.awaiting[Innermost(v, root)] == c
      case CallbackReturn(i) => !i.foreign && v.frames != [] && Last(v.frames) == BackFrame(i))
  }

  /** The own-thread part of the callback stack is what is on the C stack and not returned yet. */
  ghost predicate NativeFramed(v: View) {
    BackInvocations(v.frames) == v.own + NullReturns(v.work)
  }

  ghost predicate Core(v: View, r: nat, root: Process) {
    FramesAwaited(v, root) && AwaitedFramed(v, r, root) && OneTask(v, root) && NativeFramed(v)
  }

  /** What holds of the view of every reachable state, and is used here. */
  ghost predicate Shape(v: View, r: nat, root: Process) {
    && root.Green? && Alternating(v.frames) && (v.frames != [] ==> !Last(v.frames).WaitFrame?)
    && (forall k :: 0 <= k < |v.frames| && v.frames[k].CallFrame? ==> v.frames[k].call.runner == r)
    && (forall j, k :: 0 <= j < k < |v.frames| && v.frames[j].BackFrame? ==> v.frames[j] != v.frames[k])
    && (forall p :: p in v.awaiting ==> v.awaiting[p].caller == p)
    && (forall p :: p in v.awaiting && p.OfCallback? ==> p.inv !in v.holder)
    && (forall t :: t in v.work ==> if t.Callout? then t.call.runner == r else t.inv in v.holder)
    && (forall i :: i in v.own ==> !i.foreign)
  }

  // ---- consequences of the invariant ----

  lemma {:induction false} FramedSomewhere(frames: seq<Frame>, i: Invocation) returns (m: nat)
    requires i in BackInvocations(frames)
    ensures m < |frames| && frames[m] == BackFrame(i)
    decreases |frames|
  {
    if Last(frames) == BackFrame(i) {
      m := |frames| - 1;
    } else {
      m := FramedSomewhere(Front(frames), i);
    }
  }

  /** A loop that is not innermost serves a process that waits. */
  lemma BuriedIsBlocked(v: View, r: nat, root: Process, m: nat)
    requires FramesAwaited(v, root) && Shape(v, r, root) && m + 1 < |v.frames| && v.frames[m].BackFrame?
    ensures OfCallback(v.frames[m].inv) in v.awaiting
  {
    assert v.frames[m + 1].CallFrame?;
  }

  /** A live callback of the own thread that does not wait for a callout is the innermost one. */
  lemma UnblockedIsInnermost(v: View, r: nat, root: Process, i: Invocation)
    requires Core(v, r, root) && Shape(v, r, root) && i in v.own && OfCallback(i) !in v.awaiting
    ensures v.frames != [] && Last(v.frames) == BackFrame(i)
    ensures v.work == [] || v.work == [CallbackReturn(i)]
  {
    var m := FramedSomewhere(v.frames, i);
    if m < |v.frames| - 1 { BuriedIsBlocked(v, r, root, m); }
  }

  /** If its block is still running, nothing that changes the C stack is queued. */
  lemma RunningIsInnermost(v: View, r: nat, root: Process, i: Invocation)
    requires Core(v, r, root) && Shape(v, r, root) && i in v.own && OfCallback(i) !in v.awaiting && i !in v.holder
    ensures v.frames != [] && Last(v.frames) == BackFrame(i) && v.work == []
  {
    UnblockedIsInnermost(v, r, root, i);
    FirstIn(v.work);
  }

  /** The newest own-thread entry, when its process does not wait, has the innermost loop, and its
      return is not queued yet. */
  lemma NewestIsInnermost(v: View, r: nat, root: Process)
    requires Core(v, r, root) && Shape(v, r, root) && v.own != [] && OfCallback(Last(v.own)) !in v.awaiting
    ensures v.frames != [] && Last(v.frames) == BackFrame(Last(v.own)) && v.work == []
  {
    var i := Last(v.own);
    UnblockedIsInnermost(v, r, root, i);
    OneReturn(i);
    if v.work != [] { NotTwice(v.frames, v.own, i); }
  }

  lemma OneReturn(i: Invocation)
    requires !i.foreign
    ensures NullReturns([CallbackReturn(i)]) == [i]
  {
    assert [Task.CallbackReturn(i)][1..] == [];
  }

  lemma {:induction false} AllFramed(frames: seq<Frame>)
    ensures forall i :: i in BackInvocations(frames) ==> BackFrame(i) in frames
    decreases |frames|
  {
    if frames != [] {
      AllFramed(Front(frames));
      Whole(frames);
    }
  }

  /** No invocation has two frames. */
  lemma {:induction false} NotTwice(frames: seq<Frame>, own: seq<Invocation>, i: Invocation)
    requires forall j, k :: 0 <= j < k < |frames| && frames[j].BackFrame? ==> frames[j] != frames[k]
    requires frames != [] && Last(frames) == BackFrame(i) && BackInvocations(frames) == own + [i]
    ensures i !in own
  {
    assert Front(own + [i]) == own;
    assert BackInvocations(Front(frames)) == own;
    AllFramed(Front(frames));
    forall m | 0 <= m < |Front(frames)| ensures Front(frames)[m] != BackFrame(i) {
      assert Front(frames)[m] == frames[m];
    }
  }

  lemma FirstIn<T>(q: seq<T>)
    ensures q != [] ==> q[0] in q
  {
  }

  lemma BottomIsCallout(frames: seq<Frame>)
    requires Alternating(frames)
    ensures frames != [] ==> frames[0].CallFrame?
  {
  }

  /** When the root process does not wait, the C stack is empty. */
  lemma UnblockedRoot(v: View, r: nat, root: Process)
    requires Core(v, r, root) && Shape(v, r, root) && root !in v.awaiting
    ensures v.frames == [] && v.work == []
  {
    BottomIsCallout(v.frames);
  }

  /** Different places of the C stack are called from different processes. */
  lemma CallersDistinct(v: View, r: nat, k: nat, n: nat, root: Process)
    requires Shape(v, r, root) && k < n < |v.frames| && v.frames[k].CallFrame? && v.frames[n].CallFrame?
    ensures Caller(v.frames, k, root) != Caller(v.frames, n, root)
  {
    assert v.frames[n - 1].BackFrame?;
    if k > 0 { assert v.frames[k - 1].BackFrame?; }
  }

  // ---- the steps ----

  lemma CallersOfPrefix(frames: seq<Frame>, f: Frame, root: Process)
    ensures forall k :: 0 <= k <= |frames| ==> Caller(frames + [f], k, root) == Caller(frames, k, root)
  {
    forall k | 0 <= k <= |frames| ensures Caller(frames + [f], k, root) == Caller(frames, k, root) {
      if k > 0 { assert (frames + [f])[k - 1] == frames[k - 1]; }
    }
  }

  /** The innermost process, which does not wait, queues a callout. */
  lemma ViewDispatch(v: View, r: nat, c: Call, root: Process)
    requires Core(v, r, root) && Shape(v, r, root) && !Functioning(v) && v.work == []
    requires c.caller == Innermost(v, root) && c.caller !in v.awaiting && c.runner == r && c !in v.result
    requires v.frames != [] ==> Last(v.frames).inv !in v.holder
    ensures
      var t := v.(work := [Callout(c)], awaiting := v.awaiting[c.caller := c]);
      && Core(t, r, root)
      && SyncEnabled(Abs(v, r, root), Invokes(c), root)
      && Abs(t, r, root) == Abs(v, r, root) + [Calling(c, None)]
  {
    var t := v.(work := [Callout(c)], awaiting := v.awaiting[c.caller := c]);
    AbsWithoutTop(v, r, root);
    if v.frames != [] { AbsFront(v.frames, v.holder); }
    assert [Callout(c)][1..] == [];
    assert NullReturns([Callout(c)]) == NullReturns([]);
    assert AwaitedFramed(t, r, root);
  }

  /** The worker goes into the function. */
  lemma ViewTakeCallout(v: View, r: nat, c: Call, root: Process)
    requires Core(v, r, root) && Shape(v, r, root) && v.work == [Callout(c)]
    ensures
      var t := v.(work := [], frames := v.frames + [CallFrame(c)]);
      Core(t, r, root) && Abs(t, r, root) == Abs(v, r, root)
  {
    FirstIn(v.work);
    AwaitedAfterTake(v, r, c, root);
    TakenFramesAwaited(v, c, root);
    TakenNative(v, c);
    AbsTaken(v, r, c, root);
  }

  lemma TakenFramesAwaited(v: View, c: Call, root: Process)
    requires FramesAwaited(v, root) && OneTask(v, root) && v.work == [Callout(c)] && c.caller == Innermost(v, root)
    ensures FramesAwaited(v.(work := [], frames := v.frames + [CallFrame(c)]), root)
  {
    CallersOfPrefix(v.frames, CallFrame(c), root);
  }

  lemma TakenNative(v: View, c: Call)
    requires NativeFramed(v) && v.work == [Callout(c)]
    ensures NativeFramed(v.(work := [], frames := v.frames + [CallFrame(c)]))
  {
    BackSnoc(v.frames, CallFrame(c));
    assert [Callout(c)][1..] == [];
    assert NullReturns([Callout(c)]) == NullReturns([]);
  }

  lemma AbsTaken(v: View, r: nat, c: Call, root: Process)
    requires OneTask(v, root) && v.work == [Callout(c)] && c.runner == r
    ensures Abs(v.(work := [], frames := v.frames + [CallFrame(c)]), r, root) == Abs(v, r, root)
  {
    AbsSnoc(v.frames, CallFrame(c), v.holder);
    AbsWithoutTop(v.(work := [], frames := v.frames + [CallFrame(c)]), r, root);
  }

  lemma AwaitedAfterTake(v: View, r: nat, c: Call, root: Process)
    requires AwaitedFramed(v, r, root) && OneTask(v, root) && v.work == [Callout(c)]
    ensures AwaitedFramed(v.(work := [], frames := v.frames + [CallFrame(c)]), r, root)
  {
    forall p | p in v.awaiting && v.awaiting[p].runner == r ensures CallFrame(v.awaiting[p]) in v.frames + [CallFrame(c)] {
      if CallFrame(v.awaiting[p]) !in v.frames { assert p == Innermost(v, root); }
    }
  }

  /** The innermost loop ends and its function goes on with the value the block left. */
  lemma ViewTakeReturn(v: View, r: nat, i: Invocation, root: Process)
    requires Core(v, r, root) && Shape(v, r, root) && v.work == [CallbackReturn(i)]
    ensures
      var t := v.(work := [], frames := Front(v.frames));
      && Core(t, r, root)
      && SyncEnabled(Abs(v, r, root), FunctionResumes(i, Lookup(v.holder, i)), root)
      && Abs(t, r, root) == Front(Abs(v, r, root))
  {
    var t := v.(work := [], frames := Front(v.frames));
    FirstIn(v.work);
    FunctionBelow(v.frames);
    FrontAwaited(v, root);
    OneReturn(i);
    assert BackInvocations(t.frames) == Front(BackInvocations(v.frames)) == v.own;
    assert v.own + NullReturns([]) == v.own;
    AwaitedAfterReturn(v, r, i, root);
    AbsFront(v.frames, v.holder);
    AbsWithoutTop(v, r, root);
    AbsWithoutTop(t, r, root);
  }

  lemma FunctionBelow(frames: seq<Frame>)
    requires Alternating(frames) && frames != [] && Last(frames).BackFrame?
    ensures Front(frames) != [] && Last(Front(frames)).CallFrame?
  {
  }

  lemma FrontAwaited(v: View, root: Process)
    requires FramesAwaited(v, root) && v.frames != []
    ensures FramesAwaited(v.(work := [], frames := Front(v.frames)), root)
  {
    Whole(v.frames);
    CallersOfPrefix(Front(v.frames), Last(v.frames), root);
  }

  lemma Whole<T>(q: seq<T>)
    requires q != []
    ensures q == Front(q) + [Last(q)]
  {
  }

  lemma AwaitedAfterReturn(v: View, r: nat, i: Invocation, root: Process)
    requires AwaitedFramed(v, r, root) && v.frames != [] && Last(v.frames) == BackFrame(i) && OfCallback(i) !in v.awaiting
    ensures AwaitedFramed(v.(work := [], frames := Front(v.frames)), r, root)
  {
    forall p | p in v.awaiting && v.awaiting[p].runner == r ensures CallFrame(v.awaiting[p]) in Front(v.frames) {
      assert p != Innermost(v, root);
      Whole(v.frames);
    }
  }

  /** The function returns. */
  lemma ViewCalloutEnds(v: View, r: nat, x: Value, root: Process)
    requires Core(v, r, root) && Shape(v, r, root) && Functioning(v)
    ensures
      var c := Last(v.frames).call;
      var t := v.(frames := Front(v.frames), result := v.result[c := x]);
      && Core(t, r, root)
      && SyncEnabled(Abs(v, r, root), FunctionReturns(c, x), root)
      && Abs(t, r, root) == Front(Abs(v, r, root)) + [Calling(c, Some(x))]
  {
    var c := Last(v.frames).call;
    var t := v.(frames := Front(v.frames), result := v.result[c := x]);
    LoopBelow(v.frames, root);
    EndedFramesAwaited(v, r, x, root);
    EndedAwaited(v, r, root);
    EndedTop(v, t, r, c, x, root);
    assert BackInvocations(t.frames) == BackInvocations(v.frames);
    AbsFront(v.frames, v.holder);
    AbsWithoutTop(v, r, root);
  }

  lemma EndedTop(v: View, t: View, r: nat, c: Call, x: Value, root: Process)
    requires FramesAwaited(v, root) && Functioning(v) && Last(v.frames) == CallFrame(c) && c.runner == r
    requires Caller(t.frames, |t.frames|, root) == Caller(v.frames, |v.frames| - 1, root)
    requires !Functioning(t) && t.awaiting == v.awaiting && c in t.result && t.result[c] == x
    ensures AbsTop(t, r, root) == [Calling(c, Some(x))]
  {
    assert v.frames[|v.frames| - 1].call == c;
  }

  lemma LoopBelow(frames: seq<Frame>, root: Process)
    requires frames != [] && Alternating(frames) && Last(frames).CallFrame?
    ensures Caller(Front(frames), |frames| - 1, root) == Caller(frames, |frames| - 1, root)
    ensures Front(frames) == [] || Last(Front(frames)).BackFrame?
  {
  }

  lemma EndedFramesAwaited(v: View, r: nat, x: Value, root: Process)
    requires FramesAwaited(v, root) && Shape(v, r, root) && Functioning(v)
    ensures FramesAwaited(v.(frames := Front(v.frames), result := v.result[Last(v.frames).call := x]), root)
  {
    var n := |v.frames| - 1;
    Whole(v.frames);
    CallersOfPrefix(Front(v.frames), Last(v.frames), root);
    forall k | 0 <= k < n && v.frames[k].CallFrame? ensures v.frames[k].call != v.frames[n].call {
      CallersDistinct(v, r, k, n, root);
    }
  }

  /** The process of the function that has just ended is the one the innermost loop serves. */
  lemma EndedAwaited(v: View, r: nat, root: Process)
    requires FramesAwaited(v, root) && AwaitedFramed(v, r, root) && Shape(v, r, root) && Functioning(v)
    ensures
      var front := Front(v.frames);
      forall p :: p in v.awaiting && v.awaiting[p].runner == r ==>
        CallFrame(v.awaiting[p]) in front || p == Caller(front, |front|, root)
  {
    var front, c := Front(v.frames), Last(v.frames).call;
    LoopBelow(v.frames, root);
    Whole(v.frames);
    assert v.frames[|v.frames| - 1].call == c;
    forall p | p in v.awaiting && v.awaiting[p].runner == r && CallFrame(v.awaiting[p]) !in front
      ensures p == Caller(front, |front|, root)
    {
      assert CallFrame(v.awaiting[p]) in v.frames;
    }
  }

  /** The function calls back. */
  lemma ViewOwnCallback(v: View, r: nat, i: Invocation, root: Process)
    requires Core(v, r, root) && Shape(v, r, root) && Functioning(v)
    requires i !in v.holder && OfCallback(i) !in v.awaiting
    ensures
      var t := v.(frames := v.frames + [BackFrame(i)], own := v.own + [i]);
      && Core(t, r, root)
      && SyncEnabled(Abs(v, r, root), CallsBack(i), root)
      && Abs(t, r, root) == Abs(v, r, root) + [Called(i, None)]
  {
    var t := v.(frames := v.frames + [BackFrame(i)], own := v.own + [i]);
    CallersOfPrefix(v.frames, BackFrame(i), root);
    BackSnoc(v.frames, BackFrame(i));
    assert NullReturns([]) == [];
    OwnPushed(v.own, i);
    AbsSnoc(v.frames, BackFrame(i), v.holder);
    AbsFront(v.frames, v.holder);
    AbsWithoutTop(v, r, root);
    AbsWithoutTop(t, r, root);
    assert FramesAwaited(t, root);
  }

  lemma OwnPushed(own: seq<Invocation>, i: Invocation)
    ensures (own + []) + [i] == (own + [i]) + []
  {
  }

  /** The block of the innermost loop ends. */
  lemma ViewBlockEnds(v: View, r: nat, i: Invocation, x: Value, root: Process)
    requires Core(v, r, root) && Shape(v, r, root) && v.frames != [] && Last(v.frames) == BackFrame(i)
    requires v.work == [] && i !in v.holder && OfCallback(i) !in v.awaiting
    ensures
      var t := v.(holder := v.holder[i := x]);
      && Core(t, r, root)
      && SyncEnabled(Abs(v, r, root), BlockReturns(i, x), root)
      && Abs(t, r, root) == Front(Abs(v, r, root)) + [Called(i, Some(x))]
  {
    var t := v.(holder := v.holder[i := x]);
    AbsWritten(v, r, i, x, root);
    AbsFront(v.frames, v.holder);
    AbsWithoutTop(v, r, root);
    AbsWithoutTop(t, r, root);
  }

  /** The innermost block writes its holder. */
  lemma AbsWritten(v: View, r: nat, i: Invocation, x: Value, root: Process)
    requires Shape(v, r, root) && v.frames != [] && Last(v.frames) == BackFrame(i)
    ensures AbsFrames(v.frames, v.holder[i := x]) == Front(AbsFrames(v.frames, v.holder)) + [Called(i, Some(x))]
  {
  }

  /** The primitive answers true for the newest own-thread entry. */
  lemma ViewReturn(v: View, r: nat, i: Invocation, root: Process)
    requires Core(v, r, root) && Shape(v, r, root) && v.own != [] && Last(v.own) == i && OfCallback(i) !in v.awaiting
    ensures v.work == []
    ensures
      var t := v.(own := Front(v.own), work := [CallbackReturn(i)]);
      Core(t, r, root) && Abs(t, r, root) == Abs(v, r, root)
  {
    NewestIsInnermost(v, r, root);
    assert i in v.own;
    OneReturn(i);
    Whole(v.own);
    assert NullReturns([]) == [] && v.own + [] == v.own;
  }

  /** A process whose result is there is the innermost, and nothing that changes the C stack is queued. */
  lemma ResumesInnermost(v: View, r: nat, p: Process, root: Process)
    requires Core(v, r, root) && Shape(v, r, root)
    requires p in v.awaiting && v.awaiting[p].runner == r && v.awaiting[p] in v.result
    ensures CallFrame(v.awaiting[p]) !in v.frames && p == Innermost(v, root) && !Functioning(v) && v.work == []
  {
    FirstIn(v.work);
  }

  /** A process reads its result. */
  lemma ViewCallerResumes(v: View, r: nat, p: Process, root: Process)
    requires Core(v, r, root) && Shape(v, r, root)
    requires p in v.awaiting && v.awaiting[p].runner == r && v.awaiting[p] in v.result
    ensures
      var t := v.(awaiting := v.awaiting - {p});
      && Core(t, r, root)
      && SyncEnabled(Abs(v, r, root), NestedCalls.CallerResumes(v.awaiting[p], Lookup(v.result, v.awaiting[p])), root)
      && Abs(t, r, root) == Front(Abs(v, r, root))
  {
    var t := v.(awaiting := v.awaiting - {p});
    var c := v.awaiting[p];
    ResumesInnermost(v, r, p, root);
    forall k | 0 <= k < |v.frames| && v.frames[k].CallFrame? ensures v.frames[k].call.caller != p {
      assert v.frames[k] != CallFrame(c);
    }
    assert AbsTop(v, r, root) == [Calling(c, Some(v.result[c]))] && AbsTop(t, r, root) == [];
    AbsWithoutTop(t, r, root);
  }

  /** Everything that the simulation of runner `r` looks at is the same in `v` and `t`. */
  ghost predicate SameView(v: View, t: View, r: nat) {
    && t.frames == v.frames && t.work == v.work && t.own == v.own
    && (forall c: Call :: c.runner == r ==> Lookup(t.result, c) == Lookup(v.result, c))
    && (forall i: Invocation :: i.runner == r && !i.foreign ==> Lookup(t.holder, i) == Lookup(v.holder, i))
    && (forall p :: p in t.awaiting && t.awaiting[p].runner == r ==> p in v.awaiting && t.awaiting[p] == v.awaiting[p])
    && (forall p :: p in v.awaiting && v.awaiting[p].runner == r ==> p in t.awaiting && t.awaiting[p] == v.awaiting[p])
  }

  lemma ViewSame(v: View, t: View, r: nat, root: Process)
    requires Core(v, r, root) && Shape(v, r, root) && SameView(v, t, r)
    requires forall k :: 0 <= k < |v.frames| && v.frames[k].BackFrame? ==> v.frames[k].inv.runner == r && !v.frames[k].inv.foreign
    ensures Core(t, r, root) && Abs(t, r, root) == Abs(v, r, root)
  {
    FirstIn(v.work);
    assert forall c: Call :: c.runner == r ==> (c in t.result <==> c in v.result);
    assert AbsFrames(v.frames, t.holder) == AbsFrames(v.frames, v.holder);
    assert AbsTop(t, r, root) == AbsTop(v, r, root);
  }
}
