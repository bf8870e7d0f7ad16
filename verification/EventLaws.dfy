/** What `Observe` shows, said once more without looking at the step.

    An event of a runner is a difference between the state before and the state after: a callout newly
    queued, a frame newly opened or gone, a holder newly written, a process that waits no more. In
    particular a function goes on exactly when the frame of its own `callbackFrontend` is left, and it
    reads the holder that belongs to that frame, whatever invocation the task was about. */
module EventLaws {
  import opened Prelude
  import opened Protocol
  import opened NestedCalls
  import ValueFlow
  import StackAgreement

  /** The two states differ by the event `e` of runner `r`. */
  ghost predicate Happened(s: State, t: State, r: nat, e: Event)
    requires r < |s.runners| && r < |t.runners|
  {
    var before, after := s.runners[r], t.runners[r];
    match e
    case Invokes(c) => after.tasks == before.tasks + [Callout(c)]
    case FunctionReturns(c, v) => before.frames == after.frames + [CallFrame(c)] && c in t.result && t.result[c] == v
    case CallerResumes(c, got) =>
      && c.runner == r && c.caller in s.awaiting && s.awaiting[c.caller] == c && c.caller !in t.awaiting
      && got == Lookup(s.result, c)
    case CallsBack(i) => after.frames == before.frames + [BackFrame(i)]
    case BlockReturns(i, v) => i.runner == r && !i.foreign && i !in s.holder && i in t.holder && t.holder[i] == v
    case FunctionResumes(i, got) => before.frames == after.frames + [BackFrame(i)] && got == Lookup(s.holder, i)
  }

  lemma FramesApart(frames: seq<Frame>, f: Frame, g: Frame)
    ensures frames != frames + [f]
    ensures frames + [f] == frames + [g] ==> f == g
  {
    assert (frames + [f])[|frames|] == f && (frames + [g])[|frames|] == g;
  }

  lemma TasksApart(tasks: seq<Task>, x: Task, y: Task)
    ensures tasks + [x] == tasks + [y] ==> x == y
    ensures |tasks + [x]| == |tasks| + 1
  {
    assert (tasks + [x])[|tasks|] == x && (tasks + [y])[|tasks|] == y;
  }

  /** `frames` without its top, and the top. */
  lemma TopGone(frames: seq<Frame>, f: Frame)
    requires frames != []
    ensures frames == Front(frames) + [f] <==> Last(frames) == f
    ensures Front(frames) != frames + [f]
  {
    assert frames == Front(frames) + [Last(frames)];
    FramesApart(Front(frames), f, Last(frames));
    assert |frames + [f]| != |Front(frames)|;
  }

  lemma InvokesLaw(s: State, a: Step, r: nat, c: Call)
    requires Enabled(s, a) && r < |s.runners|
    ensures Invokes(c) in Observe(s, a, r) <==> Happened(s, Next(s, a), r, Invokes(c))
  {
    TasksEffect(s, a, r);
    var tasks := s.runners[r].tasks;
    TasksApart(tasks, Callout(c), Callout(c));
    if a.Dispatch? && a.r == r {
      TasksApart(tasks, Callout(c), Callout(Call(s.nextCall, r, a.p)));
    } else if a.TryReturn? && a.r == r && ReturnSucceeds(s.runners[r], a.k) {
      TasksApart(tasks, Callout(c), CallbackReturn(s.runners[r].image[a.k].inv));
    }
  }

  /** The frame `f` of runner `r` is gone exactly when the step is the end of it. */
  lemma FrameLeft(s: State, a: Step, r: nat, f: Frame)
    requires Enabled(s, a) && r < |s.runners|
    ensures s.runners[r].frames == Next(s, a).runners[r].frames + [f] <==>
      && s.runners[r].frames != [] && f == Last(s.runners[r].frames)
      && ((a.CalloutEnds? && a.r == r) || a == CrossResumes(r) || (a == TakeTask(r) && NullReturn(s.runners[r].tasks[0])))
  {
    FramesEffect(s, a, r);
    var frames, t := s.runners[r].frames, Next(s, a).runners[r].frames;
    assert |t + [f]| == |t| + 1;
    if frames != [] && t == Front(frames) { TopGone(frames, f); }
  }

  lemma FrameEntered(s: State, a: Step, r: nat, i: Invocation)
    requires Enabled(s, a) && r < |s.runners|
    ensures Next(s, a).runners[r].frames == s.runners[r].frames + [BackFrame(i)] <==>
      a == OwnCallback(r) && i == Invocation(s.nextId, r, false)
  {
    FramesEffect(s, a, r);
    var frames := s.runners[r].frames;
    FramesApart(frames, BackFrame(i), BackFrame(Invocation(s.nextId, r, false)));
    if a.CrossCallback? { FramesApart(frames, BackFrame(i), WaitFrame(Invocation(s.nextId, a.r, true))); }
    if a == TakeTask(r) { TakenFrames(s.runners[r], i); }
    assert |frames + [BackFrame(i)]| == |frames| + 1;
  }

  lemma TakenFrames(rs: RunnerState, i: Invocation)
    requires Idle(rs) && rs.tasks != []
    ensures Take(rs).frames != rs.frames + [BackFrame(i)]
  {
    if rs.tasks[0].Callout? { FramesApart(rs.frames, BackFrame(i), CallFrame(rs.tasks[0].call)); }
    assert |rs.frames + [BackFrame(i)]| == |rs.frames| + 1;
  }

  lemma ReturnsLaw(s: State, a: Step, r: nat, c: Call, v: Value)
    requires Enabled(s, a) && r < |s.runners|
    ensures FunctionReturns(c, v) in Observe(s, a, r) <==> Happened(s, Next(s, a), r, FunctionReturns(c, v))
  {
    FrameLeft(s, a, r, CallFrame(c));
  }

  lemma CallsBackLaw(s: State, a: Step, r: nat, i: Invocation)
    requires Enabled(s, a) && r < |s.runners|
    ensures CallsBack(i) in Observe(s, a, r) <==> Happened(s, Next(s, a), r, CallsBack(i))
  {
    FrameEntered(s, a, r, i);
  }

  /** Whose value a function reads: that of the frame that is left. */
  lemma ResumesLaw(s: State, a: Step, r: nat, i: Invocation, got: Option<Value>)
    requires Enabled(s, a) && r < |s.runners|
    ensures FunctionResumes(i, got) in Observe(s, a, r) <==> Happened(s, Next(s, a), r, FunctionResumes(i, got))
  {
    FrameLeft(s, a, r, BackFrame(i));
    ResumeShown(s, a, r, i, got);
  }

  lemma ResumeShown(s: State, a: Step, r: nat, i: Invocation, got: Option<Value>)
    requires Enabled(s, a) && r < |s.runners|
    ensures FunctionResumes(i, got) in Observe(s, a, r) <==>
      && a == TakeTask(r) && NullReturn(s.runners[r].tasks[0])
      && s.runners[r].frames != [] && Last(s.runners[r].frames) == BackFrame(i) && got == Lookup(s.holder, i)
  {
  }

  lemma CallerLaw(s: State, a: Step, r: nat, c: Call, got: Option<Value>)
    requires Enabled(s, a) && r < |s.runners| && ValueFlow.Callers(s)
    ensures NestedCalls.CallerResumes(c, got) in Observe(s, a, r) <==>
      Happened(s, Next(s, a), r, NestedCalls.CallerResumes(c, got))
  {
    if !a.CallerResumes? && !a.Dispatch? { WritesEffect(s, a); }
  }

  lemma BlockLaw(s: State, a: Step, r: nat, i: Invocation, v: Value)
    requires Enabled(s, a) && r < |s.runners| && ValueFlow.ImagesWritten(s) && StackAgreement.Homed(s)
    ensures BlockReturns(i, v) in Observe(s, a, r) <==> Happened(s, Next(s, a), r, BlockReturns(i, v))
  {
    if a.BlockEnds? {
      assert s.runners[a.r].image[a.k].inv.runner == a.r && s.runners[a.r].image[a.k].inv !in s.holder;
    } else {
      WritesEffect(s, a);
    }
  }

  /** In every reachable state, a step shows at most one event of a runner, and it shows exactly the event by
      which the states before and after it differ. */
  lemma EventsAreChanges(s: State, a: Step, r: nat, e: Event)
    requires Reachable(s) && Enabled(s, a) && r < |s.runners|
    ensures |Observe(s, a, r)| <= 1 && (e in Observe(s, a, r) <==> Happened(s, Next(s, a), r, e))
  {
    ValueFlow.ReachableInv(s);
    match e
    case Invokes(c) => InvokesLaw(s, a, r, c);
    case FunctionReturns(c, v) => ReturnsLaw(s, a, r, c, v);
    case CallerResumes(c, got) => CallerLaw(s, a, r, c, got);
    case CallsBack(i) => CallsBackLaw(s, a, r, i);
    case BlockReturns(i, v) => BlockLaw(s, a, r, i, v);
    case FunctionResumes(i, got) => ResumesLaw(s, a, r, i, got);
  }
}
