/** Image, queues and worker together behave like plain nested calls.

    Hypothesis: besides the callbacks that the worker's own thread has entered, one green process
    issues the callouts of the runner. Callbacks may also be entered on other threads, as long as
    their blocks do not call out on this runner. Then every run, seen through the events of
    `Observe`, is a run of the synchronous machine `Sync`. */
module Refinement {
  import opened Prelude
  import opened Protocol
  import opened Frames
  import opened FrameMatching
  import opened NestedCalls
  import opened RefinementViews
  import opened CallTrees
  import ClearValues
  import StackAgreement
  import ValueFlow

  /** The hypothesis on one step. */
  predicate Disciplined(a: Step, r: nat, root: Process) {
    a.Dispatch? && a.r == r ==> a.p == root || (a.p.OfCallback? && a.p.inv.runner == r && !a.p.inv.foreign)
  }

  predicate DisciplinedRun(run: seq<Step>, r: nat, root: Process) {
    forall k :: 0 <= k < |run| ==> Disciplined(run[k], r, root)
  }

  ghost predicate Nested(s: State, r: nat, root: Process) {
    ValueFlow.Inv(s) && r < |s.runners| && root.Green? && Core(ViewOf(s, r), r, root)
  }

  // ---- what the views need from the other invariants ----

  lemma OwnMembers(native: seq<Invocation>)
    ensures forall i :: i in Own(native) <==> i in native && !i.foreign
  {
  }

  /** The loops on the C stack belong to the runner's own thread. */
  ghost predicate LoopsOwned(v: View, r: nat) {
    forall k :: 0 <= k < |v.frames| && v.frames[k].BackFrame? ==> v.frames[k].inv.runner == r && !v.frames[k].inv.foreign
  }

  lemma NestedShape(s: State, r: nat, root: Process)
    requires Nested(s, r, root)
    ensures Shape(ViewOf(s, r), r, root) && LoopsOwned(ViewOf(s, r), r)
    ensures ValueFlow.Owned(s.runners[r], r, s.nextId, s.nextCall) && Balanced(s.runners[r])
  {
    assert Balanced(s.runners[r]) && ValueFlow.Owned(s.runners[r], r, s.nextId, s.nextCall);
    OwnMembers(s.runners[r].native);
    SolidOwned(s.runners[r], r, s.nextId, s.nextCall);
    WorkOwned(s, r);
    AwaitedShape(s);
  }

  lemma AwaitedShape(s: State)
    requires ValueFlow.Callers(s)
    ensures forall p :: p in s.awaiting ==> s.awaiting[p].caller == p
    ensures forall p :: p in s.awaiting && p.OfCallback? ==> p.inv !in s.holder
  {
  }

  lemma SolidOwned(rs: RunnerState, r: nat, nextId: nat, nextCall: nat)
    requires ValueFlow.Owned(rs, r, nextId, nextCall) && Alternating(rs.frames)
    ensures
      var frames := Solid(rs.frames);
      && Alternating(frames) && (frames != [] ==> !Last(frames).WaitFrame?)
      && (forall k :: 0 <= k < |frames| && frames[k].CallFrame? ==> frames[k].call.runner == r)
      && (forall k :: 0 <= k < |frames| && frames[k].BackFrame? ==> frames[k].inv.runner == r && !frames[k].inv.foreign)
      && (forall j, k :: 0 <= j < k < |frames| && frames[j].BackFrame? ==> frames[j] != frames[k])
  {
    SolidAlternates(rs.frames);
  }

  lemma WorkOwned(s: State, r: nat)
    requires r < |s.runners| && ValueFlow.Holders(s) && ValueFlow.Owned(s.runners[r], r, s.nextId, s.nextCall)
    ensures forall t :: t in Work(s.runners[r].tasks) ==> if t.Callout? then t.call.runner == r else t.inv in s.holder
  {
    forall t | t in Work(s.runners[r].tasks) ensures if t.Callout? then t.call.runner == r else t.inv in s.holder {
      var k :| 0 <= k < |s.runners[r].tasks| && s.runners[r].tasks[k] == t;
    }
  }

  /** The running block of an own-thread callback. */
  lemma RunningIsOwn(s: State, r: nat, root: Process, i: Invocation)
    requires Nested(s, r, root) && i.runner == r && !i.foreign && Runs(s, i)
    ensures i in Own(s.runners[r].native) && i !in s.holder
  {
    var image := s.runners[r].image;
    var k :| 0 <= k < |image| && image[k] == Live(i, Executing);
    ValueFlow.OnNativeStack(s, r, k);
    ValueFlow.RunningIsFresh(s, i);
    OwnMembers(s.runners[r].native);
  }

  // ---- each step is an event of the synchronous machine, or none ----

  /** Seen as views, the step is one event of the synchronous machine or invisible to it. */
  ghost predicate Simulates(v: View, t: View, events: seq<Event>, r: nat, root: Process) {
    && Core(t, r, root) && |events| <= 1
    && (events == [] ==> Abs(t, r, root) == Abs(v, r, root))
    && (events != [] ==> SyncEnabled(Abs(v, r, root), events[0], root)
                         && Abs(t, r, root) == SyncNext(Abs(v, r, root), events[0], root))
  }

  ghost predicate StepSimulates(s: State, a: Step, r: nat, root: Process)
    requires Enabled(s, a) && r < |s.runners|
  {
    r < |Next(s, a).runners| && Simulates(ViewOf(s, r), ViewOf(Next(s, a), r), Observe(s, a, r), r, root)
  }

  /** Under the discipline, who calls is the innermost process, and nothing that changes the C stack is queued. */
  lemma CallerIsInnermost(s: State, r: nat, p: Process, root: Process)
    requires Nested(s, r, root) && Enabled(s, Dispatch(r, p)) && Disciplined(Dispatch(r, p), r, root)
    ensures var v := ViewOf(s, r);
      && p == Innermost(v, root) && !Functioning(v) && v.work == []
      && (v.frames != [] ==> Last(v.frames).inv !in v.holder)
  {
    NestedShape(s, r, root);
    if p == root {
      UnblockedRoot(ViewOf(s, r), r, root);
    } else {
      RunningIsOwn(s, r, root, p.inv);
      RunningIsInnermost(ViewOf(s, r), r, root, p.inv);
    }
  }

  lemma SimDispatch(s: State, r: nat, p: Process, root: Process)
    requires Nested(s, r, root) && Enabled(s, Dispatch(r, p)) && Disciplined(Dispatch(r, p), r, root)
    ensures StepSimulates(s, Dispatch(r, p), r, root)
  {
    var c := Call(s.nextCall, r, p);
    NestedShape(s, r, root);
    CallerIsInnermost(s, r, p, root);
    ViewDispatch(ViewOf(s, r), r, c, root);
    DispatchedView(s, r, p);
  }

  lemma DispatchedView(s: State, r: nat, p: Process)
    requires Enabled(s, Dispatch(r, p)) && Work(s.runners[r].tasks) == []
    ensures
      var v, c := ViewOf(s, r), Call(s.nextCall, r, p);
      r < |Next(s, Dispatch(r, p)).runners|
      && ViewOf(Next(s, Dispatch(r, p)), r) == v.(work := [Callout(c)], awaiting := v.awaiting[p := c])
  {
    var c := Call(s.nextCall, r, p);
    WorkSnoc(s.runners[r].tasks, Callout(c));
    assert [] + [Callout(c)] == [Callout(c)];
  }

  lemma TakenView(s: State, r: nat)
    requires Enabled(s, TakeTask(r)) && Work(s.runners[r].tasks[1..]) == [] && !s.runners[r].rootReturned
    requires ChangesStack(s.runners[r].tasks[0]) && Alternating(s.runners[r].frames)
    requires s.runners[r].tasks[0].CallbackReturn? ==> s.runners[r].frames != []
    ensures
      var v, t, task := ViewOf(s, r), ViewOf(Next(s, TakeTask(r)), r), s.runners[r].tasks[0];
      && v.frames == s.runners[r].frames
      && t == v.(work := [], frames := if task.Callout? then v.frames + [CallFrame(task.call)] else Front(v.frames))
  {
    SolidTop(s.runners[r].frames);
  }

  /** Nothing waits below the innermost frame. */
  lemma SolidTop(frames: seq<Frame>)
    requires Alternating(frames)
    ensures frames != [] ==> Solid(Front(frames)) == Front(frames)
  {
  }

  lemma EndedView(s: State, r: nat, x: Value)
    requires Enabled(s, CalloutEnds(r, x)) && Alternating(s.runners[r].frames)
    ensures
      var v, c := ViewOf(s, r), Last(s.runners[r].frames).call;
      && v.frames == s.runners[r].frames
      && ViewOf(Next(s, CalloutEnds(r, x)), r) == v.(frames := Front(v.frames), result := v.result[c := x])
  {
    SolidTop(s.runners[r].frames);
  }

  lemma EnteredView(s: State, r: nat)
    requires Enabled(s, OwnCallback(r))
    ensures
      var v, i := ViewOf(s, r), Invocation(s.nextId, r, false);
      && v.frames == s.runners[r].frames
      && ViewOf(Next(s, OwnCallback(r)), r) == v.(frames := v.frames + [BackFrame(i)], own := v.own + [i])
  {
    OwnSnoc(s.runners[r].native, Invocation(s.nextId, r, false));
  }

  /** The view after the worker has taken `task`, and what the function that goes on reads. */
  function TakenFrom(v: View, task: Task): View
    requires v.frames != [] || task.Callout?
  {
    v.(work := [], frames := if task.Callout? then v.frames + [CallFrame(task.call)] else Front(v.frames))
  }

  function ReadOnTake(v: View, task: Task): seq<Event>
    requires task.CallbackReturn? ==> v.frames != [] && Last(v.frames).BackFrame?
  {
    if task.Callout? then [] else [FunctionResumes(Last(v.frames).inv, Lookup(v.holder, Last(v.frames).inv))]
  }

  lemma TakeSimulates(v: View, task: Task, r: nat, root: Process)
    requires Core(v, r, root) && Shape(v, r, root) && v.work == [task]
    ensures task.CallbackReturn? ==> v.frames != [] && Last(v.frames) == BackFrame(task.inv)
    ensures Simulates(v, TakenFrom(v, task), ReadOnTake(v, task), r, root)
  {
    FirstIn(v.work);
    if task.Callout? {
      ViewTakeCallout(v, r, task.call, root);
    } else {
      ViewTakeReturn(v, r, task.inv, root);
    }
  }

  lemma SimTake(s: State, r: nat, root: Process)
    requires Nested(s, r, root) && Enabled(s, TakeTask(r)) && ChangesStack(s.runners[r].tasks[0])
    ensures StepSimulates(s, TakeTask(r), r, root)
  {
    NestedShape(s, r, root);
    OnlyWork(s, r, root);
    TakeSimulates(ViewOf(s, r), s.runners[r].tasks[0], r, root);
    LoopOnTop(s.runners[r]);
    TakenView(s, r);
    assert Observe(s, TakeTask(r), r) == ReadOnTake(ViewOf(s, r), s.runners[r].tasks[0]);
  }

  lemma OnlyWork(s: State, r: nat, root: Process)
    requires r < |s.runners| && OneTask(ViewOf(s, r), root) && s.runners[r].tasks != [] && ChangesStack(s.runners[r].tasks[0])
    ensures Work(s.runners[r].tasks) == [s.runners[r].tasks[0]] && Work(s.runners[r].tasks[1..]) == []
  {
    WorkTaken(s.runners[r].tasks);
  }

  lemma LoopOnTop(rs: RunnerState)
    requires Idle(rs)
    ensures Solid(rs.frames) == rs.frames
  {
  }

  lemma SimCalloutEnds(s: State, r: nat, x: Value, root: Process)
    requires Nested(s, r, root) && Enabled(s, CalloutEnds(r, x))
    ensures StepSimulates(s, CalloutEnds(r, x), r, root)
  {
    NestedShape(s, r, root);
    EndedView(s, r, x);
    ViewCalloutEnds(ViewOf(s, r), r, x, root);
  }

  lemma NewIsUnknown(s: State, i: Invocation)
    requires ValueFlow.Holders(s) && ValueFlow.Callers(s) && i.id >= s.nextId
    ensures i !in s.holder && OfCallback(i) !in s.awaiting
  {
  }

  lemma SimOwnCallback(s: State, r: nat, root: Process)
    requires Nested(s, r, root) && Enabled(s, OwnCallback(r))
    ensures StepSimulates(s, OwnCallback(r), r, root)
  {
    var i := Invocation(s.nextId, r, false);
    NestedShape(s, r, root);
    NewIsUnknown(s, i);
    EnteredView(s, r);
    ViewOwnCallback(ViewOf(s, r), r, i, root);
  }

  lemma SimBlockEnds(s: State, r: nat, k: nat, x: Value, root: Process)
    requires Nested(s, r, root) && Enabled(s, BlockEnds(r, k, x)) && !s.runners[r].image[k].inv.foreign
    ensures StepSimulates(s, BlockEnds(r, k, x), r, root)
  {
    var v, i := ViewOf(s, r), s.runners[r].image[k].inv;
    assert StackAgreement.Homed(s);
    assert s.runners[r].image[k] == Live(i, Executing);
    NestedShape(s, r, root);
    RunningIsOwn(s, r, root, i);
    RunningIsInnermost(v, r, root, i);
    ViewBlockEnds(v, r, i, x, root);
  }

  lemma OwnTop(native: seq<Invocation>)
    requires native != [] && !Last(native).foreign
    ensures Own(native) != [] && Last(Own(native)) == Last(native) && Front(Own(native)) == Own(Front(native))
  {
    SelectFront((i: Invocation) => !i.foreign, native);
  }

  /** What returns has ended its block, so its process waits for no callout. */
  lemma EndedWaitsNot(s: State, r: nat, k: nat)
    requires ValueFlow.Inv(s) && r < |s.runners| && k < |s.runners[r].image| && s.runners[r].image[k].phase != Executing
    ensures OfCallback(s.runners[r].image[k].inv) !in s.awaiting
  {
    assert s.runners[r].image[k].inv in s.holder;
  }

  lemma SimTryReturn(s: State, r: nat, k: nat, root: Process)
    requires Nested(s, r, root) && Enabled(s, TryReturn(r, k)) && ReturnSucceeds(s.runners[r], k)
    requires !s.runners[r].image[k].inv.foreign
    ensures StepSimulates(s, TryReturn(r, k), r, root) && Work(s.runners[r].tasks) == []
  {
    var rs, i := s.runners[r], s.runners[r].image[k].inv;
    NestedShape(s, r, root);
    EndedWaitsNot(s, r, k);
    OwnTop(rs.native);
    ViewReturn(ViewOf(s, r), r, i, root);
    WorkSnoc(rs.tasks, CallbackReturn(i));
    assert ViewOf(Next(s, TryReturn(r, k)), r).work == [CallbackReturn(i)];
  }

  lemma SimCallerResumes(s: State, r: nat, p: Process, root: Process)
    requires Nested(s, r, root) && Enabled(s, Step.CallerResumes(p)) && s.awaiting[p].runner == r
    ensures StepSimulates(s, Step.CallerResumes(p), r, root)
  {
    NestedShape(s, r, root);
    ViewCallerResumes(ViewOf(s, r), r, p, root);
  }

  /** The step shows no event of runner `r`, and is not the worker taking a callout or the primitive
      answering true for an invocation of the own thread. */
  predicate Silent(s: State, a: Step, r: nat)
    requires Enabled(s, a) && r < |s.runners|
  {
    if Touches(s, a, r) then
      var rs := s.runners[r];
      || a.PushImage? || a.FinishReturn? || a.ForeignCallback? || a.CrossCallback? || a.CrossResumes? || a.Enqueue?
      || (a.TryReturn? && (ReturnSucceeds(rs, a.k) ==> rs.image[a.k].inv.foreign))
      || (a.BlockEnds? && rs.image[a.k].inv.foreign)
      || (a.TakeTask? && !ChangesStack(rs.tasks[0]))
    else a.CallerResumes? ==> s.awaiting[a.p].runner != r
  }

  lemma SilentTouch(s: State, a: Step, r: nat)
    requires r < |s.runners| && Enabled(s, a) && Silent(s, a, r) && Touches(s, a, r) && Balanced(s.runners[r])
    ensures SameView(ViewOf(s, r), ViewOf(Next(s, a), r), r)
  {
    SilentFrames(s, a, r);
    SilentTasks(s, a, r);
    SilentNative(s, a, r);
    SilentValues(s, a, r);
  }

  lemma SilentFrames(s: State, a: Step, r: nat)
    requires r < |s.runners| && Enabled(s, a) && Silent(s, a, r) && Touches(s, a, r) && Alternating(s.runners[r].frames)
    ensures Solid(Next(s, a).runners[r].frames) == Solid(s.runners[r].frames)
  {
    FramesEffect(s, a, r);
    SolidTop(s.runners[r].frames);
  }

  lemma SilentTasks(s: State, a: Step, r: nat)
    requires r < |s.runners| && Enabled(s, a) && Silent(s, a, r) && Touches(s, a, r)
    ensures Work(Next(s, a).runners[r].tasks) == Work(s.runners[r].tasks)
  {
    TasksEffect(s, a, r);
    var rs := s.runners[r];
    if a.TakeTask? {
      assert Work(rs.tasks) == [] + Work(rs.tasks[1..]);
    } else if a.TryReturn? {
      SilentReturn(rs, a.k);
    }
  }

  lemma SilentNative(s: State, a: Step, r: nat)
    requires r < |s.runners| && Enabled(s, a) && Silent(s, a, r) && Touches(s, a, r)
    ensures Own(Next(s, a).runners[r].native) == Own(s.runners[r].native)
  {
    if a.TryReturn? {
      SilentReturn(s.runners[r], a.k);
    } else {
      StackAgreement.ArrivalStep(s, a, r);
      ForeignArrival(s.runners[r].native, StackAgreement.Arrival(s, a, r));
    }
  }

  lemma ForeignArrival(native: seq<Invocation>, arrival: seq<Invocation>)
    requires arrival == [] || (|arrival| == 1 && arrival[0].foreign)
    ensures Own(native + arrival) == Own(native)
  {
    if arrival == [] {
      assert native + [] == native;
    } else {
      assert arrival == [arrival[0]];
      OwnSnoc(native, arrival[0]);
    }
  }

  lemma SilentValues(s: State, a: Step, r: nat)
    requires r < |s.runners| && Enabled(s, a) && Silent(s, a, r) && Touches(s, a, r)
    ensures Next(s, a).result == s.result && Next(s, a).awaiting == s.awaiting
    ensures forall i: Invocation :: !i.foreign ==> Lookup(Next(s, a).holder, i) == Lookup(s.holder, i)
  {
  }

  lemma SilentReturn(rs: RunnerState, k: nat)
    requires k < |rs.image| && (ReturnSucceeds(rs, k) ==> rs.image[k].inv.foreign)
    ensures
      var t := TryReturnAt(rs, k);
      t.frames == rs.frames && Work(t.tasks) == Work(rs.tasks) && Own(t.native) == Own(rs.native)
  {
    if ReturnSucceeds(rs, k) {
      WorkSnoc(rs.tasks, CallbackReturn(rs.image[k].inv));
      OwnSnoc(Front(rs.native), rs.image[k].inv);
      Whole(rs.native);
    }
  }

  /** A step elsewhere writes results, holders and waits of other runners only. */
  lemma SilentElsewhere(s: State, a: Step, r: nat)
    requires ValueFlow.Inv(s) && r < |s.runners| && Enabled(s, a) && Silent(s, a, r) && !Touches(s, a, r)
    ensures SameView(ViewOf(s, r), ViewOf(Next(s, a), r), r)
  {
    assert a.CalloutEnds? ==> ValueFlow.Owned(s.runners[a.r], a.r, s.nextId, s.nextCall);
    assert a.BlockEnds? ==> s.runners[a.r].image[a.k].inv.runner == a.r;
    ElsewhereWrites(s, a, r);
    Untouched(s, a, r);
  }

  lemma ElsewhereWrites(s: State, a: Step, r: nat)
    requires r < |s.runners| && Enabled(s, a) && Silent(s, a, r) && !Touches(s, a, r)
    requires a.CalloutEnds? ==> ValueFlow.Owned(s.runners[a.r], a.r, s.nextId, s.nextCall)
    requires a.BlockEnds? ==> s.runners[a.r].image[a.k].inv.runner == a.r
    ensures
      var t := Next(s, a);
      && (forall c: Call :: c.runner == r ==> Lookup(t.result, c) == Lookup(s.result, c))
      && (forall i: Invocation :: i.runner == r ==> Lookup(t.holder, i) == Lookup(s.holder, i))
      && (forall p :: p in t.awaiting && t.awaiting[p].runner == r ==> p in s.awaiting && t.awaiting[p] == s.awaiting[p])
      && (forall p :: p in s.awaiting && s.awaiting[p].runner == r ==> p in t.awaiting && t.awaiting[p] == s.awaiting[p])
  {
  }

  lemma SilentShowsNothing(s: State, a: Step, r: nat)
    requires r < |s.runners| && Enabled(s, a) && Silent(s, a, r)
    ensures Observe(s, a, r) == []
  {
  }

  lemma SilentSame(s: State, a: Step, r: nat)
    requires ValueFlow.Inv(s) && r < |s.runners| && Enabled(s, a) && Silent(s, a, r)
    ensures |Next(s, a).runners| == |s.runners| && Observe(s, a, r) == []
    ensures SameView(ViewOf(s, r), ViewOf(Next(s, a), r), r)
  {
    IdsGrow(s, a, r);
    SilentShowsNothing(s, a, r);
    if Touches(s, a, r) {
      assert Balanced(s.runners[r]);
      SilentTouch(s, a, r);
    } else {
      SilentElsewhere(s, a, r);
    }
  }

  lemma SimSilent(s: State, a: Step, r: nat, root: Process)
    requires Nested(s, r, root) && Enabled(s, a) && Silent(s, a, r)
    ensures StepSimulates(s, a, r, root)
  {
    NestedShape(s, r, root);
    SilentSame(s, a, r);
    SameViewSimulates(ViewOf(s, r), ViewOf(Next(s, a), r), r, root);
  }

  lemma SameViewSimulates(v: View, t: View, r: nat, root: Process)
    requires Core(v, r, root) && Shape(v, r, root) && LoopsOwned(v, r) && SameView(v, t, r)
    ensures Simulates(v, t, [], r, root)
  {
    ViewSame(v, t, r, root);
  }

  lemma SimTouching(s: State, a: Step, r: nat, root: Process)
    requires Nested(s, r, root) && Enabled(s, a) && Disciplined(a, r, root) && Touches(s, a, r) && !Silent(s, a, r)
    ensures StepSimulates(s, a, r, root)
  {
    match a
    case TryReturn(_, k) => SimTryReturn(s, r, k, root);
    case Dispatch(_, p) => SimDispatch(s, r, p, root);
    case TakeTask(_) => SimTake(s, r, root);
    case CalloutEnds(_, x) => SimCalloutEnds(s, r, x, root);
    case OwnCallback(_) => SimOwnCallback(s, r, root);
    case BlockEnds(_, k, x) => SimBlockEnds(s, r, k, x, root);
    case _ =>
  }

  lemma SimStep(s: State, a: Step, r: nat, root: Process)
    requires Nested(s, r, root) && Enabled(s, a) && Disciplined(a, r, root)
    ensures StepSimulates(s, a, r, root) && Nested(Next(s, a), r, root)
  {
    if Silent(s, a, r) {
      SimSilent(s, a, r, root);
    } else if Touches(s, a, r) {
      SimTouching(s, a, r, root);
    } else {
      SimCallerResumes(s, r, a.p, root);
    }
    ValueFlow.InvStep(s, a);
  }

  /** One event or none, then the rest. */
  lemma SyncOn(stack: Stack, next: Stack, events: seq<Event>, rest: seq<Event>, end: Stack, root: Process)
    requires |events| <= 1 && Goes(next, rest, end, root)
    requires if events == [] then next == stack else SyncEnabled(stack, events[0], root) && next == SyncNext(stack, events[0], root)
    ensures Goes(stack, events + rest, end, root)
  {
    if events == [] {
      assert events + rest == rest;
    } else {
      assert (events + rest)[1..] == rest;
    }
  }

  /** What `run` shows leads the synchronous machine from the stack before to the stack after. */
  ghost predicate Follows(s: State, run: seq<Step>, r: nat, root: Process)
    requires Valid(s, run) && r < |s.runners|
  {
    var t := Exec(s, run);
    r < |t.runners| && Goes(Abs(ViewOf(s, r), r, root), Trace(s, run, r), Abs(ViewOf(t, r), r, root), root)
  }

  lemma FollowsFrom(s: State, run: seq<Step>, r: nat, root: Process)
    requires run != [] && Valid(s, run) && r < |s.runners| && StepSimulates(s, run[0], r, root)
    requires Follows(Next(s, run[0]), run[1..], r, root)
    ensures Follows(s, run, r, root)
  {
    var t, end := Next(s, run[0]), Exec(s, run);
    SyncOn(Abs(ViewOf(s, r), r, root), Abs(ViewOf(t, r), r, root), Observe(s, run[0], r), Trace(t, run[1..], r),
      Abs(ViewOf(end, r), r, root), root);
  }

  lemma FollowsNothing(s: State, r: nat, root: Process)
    requires r < |s.runners|
    ensures Follows(s, [], r, root)
  {
  }

  lemma RestIsDisciplined(run: seq<Step>, r: nat, root: Process)
    requires run != [] && DisciplinedRun(run, r, root)
    ensures Disciplined(run[0], r, root) && DisciplinedRun(run[1..], r, root)
  {
  }

  lemma {:induction false} SimRun(s: State, run: seq<Step>, r: nat, root: Process)
    requires Nested(s, r, root) && Valid(s, run) && DisciplinedRun(run, r, root)
    ensures Follows(s, run, r, root)
    decreases |run|
  {
    if run == [] {
      FollowsNothing(s, r, root);
    } else {
      RestIsDisciplined(run, r, root);
      SimStep(s, run[0], r, root);
      SimRun(Next(s, run[0]), run[1..], r, root);
      FollowsFrom(s, run, r, root);
    }
  }

  lemma InitNested(n: nat, r: nat, root: Process)
    requires r < n && root.Green?
    ensures Nested(Init(n), r, root) && Abs(ViewOf(Init(n), r), r, root) == []
  {
    ValueFlow.InitInv(n);
    assert Init(n).runners[r] == NEW_RUNNER;
    AbsWithoutTop(ViewOf(Init(n), r), r, root);
  }

  // ---- the main results ----

  /** Refinement: every disciplined run is a run of the synchronous machine, which ends with the stack that
      the protocol stands for. */
  lemma RefinesNestedCalls(n: nat, run: seq<Step>, r: nat, root: Process)
    requires r < n && root.Green? && Valid(Init(n), run) && DisciplinedRun(run, r, root)
    ensures Sync([], Trace(Init(n), run, r), root) && r < |Exec(Init(n), run).runners|
    ensures Goes([], Trace(Init(n), run, r), Abs(ViewOf(Exec(Init(n), run), r), r, root), root)
  {
    InitNested(n, r, root);
    SimRun(Init(n), run, r, root);
  }

  /** So what a disciplined run shows is the traversal of a tree of calls, and a complete one when in the end
      the C stack of the worker is empty and the process does not wait for it. */
  lemma DisciplinedRunsAreTrees(n: nat, run: seq<Step>, r: nat, root: Process)
    requires r < n && root.Green? && Valid(Init(n), run) && DisciplinedRun(run, r, root)
    ensures exists stack :: Partial(Trace(Init(n), run, r), stack, root)
    ensures
      var t := Exec(Init(n), run);
      r < |t.runners| &&
      (t.runners[r].frames == [] && (root in t.awaiting ==> t.awaiting[root].runner != r) ==>
        exists trees :: Complete(Trace(Init(n), run, r), trees, root))
  {
    RefinesNestedCalls(n, run, r, root);
    var stack := Abs(ViewOf(Exec(Init(n), run), r), r, root);
    SyncIffTraversal(Trace(Init(n), run, r), stack, root);
    CompleteIffTrees(Trace(Init(n), run, r), root);
  }

  // ---- the discipline implies the hypothesis of frame matching ----

  lemma StepIsClear(s: State, a: Step, r: nat, root: Process)
    requires Nested(s, r, root) && Enabled(s, a)
    ensures ClearStep(s, a, r)
  {
    if ReturnsOwn(s, a, r) { ReturnIsClear(s, r, a.k, root); }
  }

  lemma ReturnIsClear(s: State, r: nat, k: nat, root: Process)
    requires Nested(s, r, root) && k < |s.runners[r].image| && s.runners[r].image[k].phase == Awake
    requires ReturnSucceeds(s.runners[r], k) && !s.runners[r].image[k].inv.foreign
    ensures Clear(s.runners[r], s.runners[r].image[k].inv)
  {
    NestedShape(s, r, root);
    EndedWaitsNot(s, r, k);
    OwnTop(s.runners[r].native);
    NewestIsInnermost(ViewOf(s, r), r, root);
    FramesDistinct(s.runners[r], r, s.nextId, s.nextCall);
    AloneIsClear(s.runners[r], s.runners[r].image[k].inv);
  }

  /** The innermost frame of the view is a loop, so nothing waits above it. */
  lemma FramesDistinct(rs: RunnerState, r: nat, nextId: nat, nextCall: nat)
    requires ValueFlow.Owned(rs, r, nextId, nextCall) && Alternating(rs.frames)
    requires Solid(rs.frames) != [] && Last(Solid(rs.frames)).BackFrame?
    ensures rs.frames == Solid(rs.frames)
    ensures forall j, k :: 0 <= j < k < |rs.frames| && rs.frames[j].BackFrame? ==> rs.frames[j] != rs.frames[k]
  {
  }

  lemma AloneIsClear(rs: RunnerState, i: Invocation)
    requires Work(rs.tasks) == [] && rs.frames != [] && Last(rs.frames) == BackFrame(i)
    requires forall j, k :: 0 <= j < k < |rs.frames| && rs.frames[j].BackFrame? ==> rs.frames[j] != rs.frames[k]
    ensures Clear(rs, i)
  {
    forall j | 0 <= j < |rs.tasks| ensures !rs.tasks[j].Callout? {
      assert rs.tasks[j] in rs.tasks;
    }
  }

  lemma {:induction false} DisciplinedIsClear(s: State, run: seq<Step>, r: nat, root: Process)
    requires Nested(s, r, root) && Valid(s, run) && DisciplinedRun(run, r, root)
    ensures ClearRun(s, run, r)
    decreases |run|
  {
    if run != [] {
      StepIsClear(s, run[0], r, root);
      SimStep(s, run[0], r, root);
      DisciplinedIsClear(Next(s, run[0]), run[1..], r, root);
    }
  }

  /** End to end: in a disciplined run every process that resumes from a callout reads the result
      its own function produced, and every function that resumes from a callback reads the value
      the block of its own callback wrote. */
  lemma EveryCallGetsItsOwnValue(n: nat, run: seq<Step>, r: nat, root: Process)
    requires r < n && root.Green? && Valid(Init(n), run) && DisciplinedRun(run, r, root)
    ensures forall k :: 0 <= k < |Trace(Init(n), run, r)| ==> ReadsOwnValue(Trace(Init(n), run, r), k)
  {
    InitNested(n, r, root);
    DisciplinedIsClear(Init(n), run, r, root);
    ClearValues.ClearRunsReadOwnValues(n, run, r);
  }
}
