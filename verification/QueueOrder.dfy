/** First in, first out, over every run: the queue of pending callbacks across all runners, and the task
    queue of each worker.

    What went in and what came out is read off the states before and after a step: an invocation has
    reached the image when an image stack has gained it, and a worker has served a task when a function has
    been entered on its C stack, a nested loop has ended, or a semaphore has been signalled. */
module QueueOrder {
  import opened Prelude
  import opened Protocol
  import StackAgreement
  import Frames
  import ForeignCallbacks

  // ---- the queue of pending callbacks ----

  /** Between the two states, the image stack of its runner has gained `i`. */
  predicate Reached(s: State, t: State, i: Invocation) {
    && i.runner < |s.runners| && i.runner < |t.runners|
    && t.runners[i.runner].image == s.runners[i.runner].image + [Live(i, Executing)]
  }

  /** What reaches the image between the two states. */
  ghost function Reaching(s: State, t: State): seq<Invocation> {
    if i :| Reached(s, t, i) then [i] else []
  }

  /** What the step puts in the queue of the image. */
  function Queued(s: State, a: Step): seq<Invocation>
    requires Enabled(s, a)
  {
    if a.Enqueue? then [s.runners[a.r].entering[a.k]] else []
  }

  /** The invocations in the order in which `run` queues them, whatever their runners. */
  function QueuedBy(s: State, run: seq<Step>): seq<Invocation>
    requires Valid(s, run)
    decreases |run|
  {
    if run == [] then [] else Queued(s, run[0]) + QueuedBy(Next(s, run[0]), run[1..])
  }

  /** The invocations in the order in which they reach an image stack. */
  ghost function ReachingBy(s: State, run: seq<Step>): seq<Invocation>
    requires Valid(s, run)
    decreases |run|
  {
    if run == [] then [] else Reaching(s, Next(s, run[0])) + ReachingBy(Next(s, run[0]), run[1..])
  }

  /** What is under way between the two. */
  function UnderWay(s: State): seq<Invocation> {
    StackAgreement.InFlight(s) + s.pending
  }

  /** Only the callback process puts invocations on image stacks. */
  lemma ReachedIs(s: State, a: Step, i: Invocation)
    requires Enabled(s, a)
    ensures Reached(s, Next(s, a), i) <==> a == PushImage && s.inFlight == Some(i)
  {
    if i.runner < |s.runners| {
      if Touches(s, a, i.runner) {
        ImageGrows(s, a, i);
      } else {
        Untouched(s, a, i.runner);
        Longer(s.runners[i.runner].image, i);
      }
    }
  }

  lemma Longer(image: seq<Live>, i: Invocation)
    ensures image != image + [Live(i, Executing)]
  {
    assert |image + [Live(i, Executing)]| == |image| + 1;
  }

  lemma ImageGrows(s: State, a: Step, i: Invocation)
    requires Enabled(s, a) && i.runner < |s.runners| && Touches(s, a, i.runner)
    ensures Next(s, a).runners[i.runner].image == s.runners[i.runner].image + [Live(i, Executing)] <==>
      a == PushImage && s.inFlight == Some(i)
  {
    var image := s.runners[i.runner].image;
    assert |image + [Live(i, Executing)]| == |image| + 1;
    if a.PushImage? {
      assert (image + [Live(i, Executing)])[|image|] == Live(i, Executing);
      assert (image + [Live(s.inFlight.value, Executing)])[|image|] == Live(s.inFlight.value, Executing);
    } else {
      ImageStays(s, a, i.runner);
    }
  }

  lemma ImageStays(s: State, a: Step, r: nat)
    requires Enabled(s, a) && r < |s.runners| && !a.PushImage?
    ensures |Next(s, a).runners[r].image| <= |s.runners[r].image|
  {
    if a.CrossCallback? { CrossEffect(s, a.q, a.r); }
  }

  lemma ReachingIs(s: State, a: Step)
    requires Enabled(s, a)
    ensures Reaching(s, Next(s, a)) == if a.PushImage? then [s.inFlight.value] else []
  {
    if a.PushImage? { ReachedIs(s, a, s.inFlight.value); }
    forall i | Reached(s, Next(s, a), i) ensures a.PushImage? && i == s.inFlight.value { ReachedIs(s, a, i); }
  }

  lemma WayStep(s: State, a: Step)
    requires Enabled(s, a)
    ensures UnderWay(s) + Queued(s, a) == Reaching(s, Next(s, a)) + UnderWay(Next(s, a))
  {
    ReachingIs(s, a);
    match a
    case CrossCallback(q, r) => CrossEffect(s, q, r);
    case ReadPending => assert s.pending == [s.pending[0]] + s.pending[1..];
    case Enqueue(r, k) => Associative(StackAgreement.InFlight(s), s.pending, [s.runners[r].entering[k]]);
    case _ =>
  }

  lemma Shifted<T>(a: seq<T>, x: seq<T>, y: seq<T>, b: seq<T>, xs: seq<T>, ys: seq<T>, c: seq<T>)
    requires a + x == y + b && b + xs == ys + c
    ensures a + (x + xs) == (y + ys) + c
  {
    Associative(a, x, xs);
    Associative(y, b, xs);
    Associative(y, ys, c);
  }

  /** The queue is one for all runners, and first in, first out: over every run, what was under way before and
      what the run queues is what reaches an image stack, in this order, and then what is under way after. */
  lemma {:induction false} ImagesAreServedInOrder(s: State, run: seq<Step>)
    requires Valid(s, run)
    ensures UnderWay(s) + QueuedBy(s, run) == ReachingBy(s, run) + UnderWay(Exec(s, run))
    decreases |run|
  {
    if run != [] {
      var t, rest := Next(s, run[0]), run[1..];
      ImagesAreServedInOrder(t, rest);
      WayStep(s, run[0]);
      Shifted(UnderWay(s), Queued(s, run[0]), Reaching(s, t), UnderWay(t),
              QueuedBy(t, rest), ReachingBy(t, rest), UnderWay(Exec(s, run)));
    }
  }

  /** From the beginning: the invocations of all runners reach the image in the order of their queueing. */
  lemma OldestFirst(n: nat, run: seq<Step>)
    requires Valid(Init(n), run)
    ensures QueuedBy(Init(n), run) == ReachingBy(Init(n), run) + UnderWay(Exec(Init(n), run))
  {
    ImagesAreServedInOrder(Init(n), run);
    assert UnderWay(Init(n)) + QueuedBy(Init(n), run) == QueuedBy(Init(n), run);
  }

  // ---- the tasks of a worker ----

  /** What a worker does about a task, as far as others can see. */
  datatype Deed = Starts(call: Call) | EndsLoop | Tells(inv: Invocation)

  function DeedOf(task: Task): Deed {
    match task
    case Callout(c) => Starts(c)
    case CallbackReturn(i) => if i.foreign then Tells(i) else EndsLoop
  }

  function Deeds(tasks: seq<Task>): (d: seq<Deed>)
    ensures |d| == |tasks| && forall k :: 0 <= k < |tasks| ==> d[k] == DeedOf(tasks[k])
  {
    seq(|tasks|, k requires 0 <= k < |tasks| => DeedOf(tasks[k]))
  }

  /** Between the two states worker `r` has entered the function of a call, left a nested loop or its
      outermost one, or told a thread that its callback has returned. */
  predicate Did(s: State, t: State, r: nat, d: Deed)
    requires r < |s.runners| && r < |t.runners|
  {
    var before, after := s.runners[r], t.runners[r];
    match d
    case Starts(c) => after.frames == before.frames + [CallFrame(c)]
    case EndsLoop =>
      || after.rootReturned != before.rootReturned
      || (before.frames != [] && Last(before.frames).BackFrame? && after.frames == Front(before.frames))
    case Tells(i) => i.runner == r && i.foreign && t.signals[i] == s.signals[i] + 1
  }

  /** Between the two states worker `r` was asked to: a process has begun to wait for a function, or a
      callback has gone from the top of its callback stack. */
  predicate Asked(s: State, t: State, r: nat, d: Deed)
    requires r < |s.runners| && r < |t.runners|
  {
    match d
    case Starts(c) => c.runner == r && c.caller !in s.awaiting && c.caller in t.awaiting && t.awaiting[c.caller] == c
    case EndsLoop => Popped(s.runners[r].native, t.runners[r].native) && !Last(s.runners[r].native).foreign
    case Tells(i) => Popped(s.runners[r].native, t.runners[r].native) && Last(s.runners[r].native) == i && i.foreign
  }

  predicate Popped<T(==)>(before: seq<T>, after: seq<T>) {
    before != [] && after == Front(before)
  }

  ghost function Doing(s: State, t: State, r: nat): seq<Deed>
    requires r < |s.runners| && r < |t.runners|
  {
    if d :| Did(s, t, r, d) then [d] else []
  }

  ghost function Asking(s: State, t: State, r: nat): seq<Deed>
    requires r < |s.runners| && r < |t.runners|
  {
    if d :| Asked(s, t, r, d) then [d] else []
  }

  /** A worker does what the oldest task asks for, and only when it takes it. */
  lemma DidIs(s: State, a: Step, r: nat, d: Deed)
    requires Reachable(s) && Enabled(s, a) && r < |s.runners|
    ensures Did(s, Next(s, a), r, d) <==> a == TakeTask(r) && d == DeedOf(s.runners[r].tasks[0])
  {
    match d
    case Starts(c) => StartsIs(s, a, r, c);
    case EndsLoop => EndsLoopIs(s, a, r);
    case Tells(i) =>
      ForeignCallbacks.ReachableReturnsHomed(s);
      TellsIs(s, a, r, i);
  }

  lemma StartsIs(s: State, a: Step, r: nat, c: Call)
    requires Enabled(s, a) && r < |s.runners|
    ensures Did(s, Next(s, a), r, Starts(c)) <==> a == TakeTask(r) && s.runners[r].tasks[0] == Callout(c)
  {
    FramesEffect(s, a, r);
    var frames := s.runners[r].frames;
    assert |frames + [CallFrame(c)]| == |frames| + 1 && (frames + [CallFrame(c)])[|frames|] == CallFrame(c);
    if a == OwnCallback(r) {
      assert (frames + [BackFrame(Invocation(s.nextId, r, false))])[|frames|].BackFrame?;
    } else if a.CrossCallback? && a.q == r {
      assert (frames + [WaitFrame(Invocation(s.nextId, a.r, true))])[|frames|].WaitFrame?;
    } else if a == TakeTask(r) && s.runners[r].tasks[0].Callout? {
      var d := s.runners[r].tasks[0].call;
      assert (frames + [CallFrame(d)])[|frames|] == CallFrame(d);
    }
  }

  lemma EndsLoopIs(s: State, a: Step, r: nat)
    requires Reachable(s) && Enabled(s, a) && r < |s.runners|
    ensures Did(s, Next(s, a), r, EndsLoop) <==> a == TakeTask(r) && NullReturn(s.runners[r].tasks[0])
  {
    Frames.FramesConserved(s, r);
    ReachableStep(s, a);
    Frames.FramesConserved(Next(s, a), r);
    if a == TakeTask(r) && NullReturn(s.runners[r].tasks[0]) { Frames.NullReturnFindsALoop(s, r); }
    LoopLeft(s, a, r);
  }

  lemma LoopLeft(s: State, a: Step, r: nat)
    requires Enabled(s, a) && r < |s.runners|
    requires a == TakeTask(r) && NullReturn(s.runners[r].tasks[0]) ==> s.runners[r].frames != []
    ensures var frames := s.runners[r].frames;
      frames != [] && Last(frames).BackFrame? && Next(s, a).runners[r].frames == Front(frames) <==>
        a == TakeTask(r) && NullReturn(s.runners[r].tasks[0])
  {
    FramesEffect(s, a, r);
    if a == TakeTask(r) { TakenLoop(s.runners[r]); }
  }

  lemma TakenLoop(rs: RunnerState)
    requires Idle(rs) && rs.tasks != []
    ensures NullReturn(rs.tasks[0]) && rs.frames != [] ==> Take(rs).frames == Front(rs.frames)
    ensures !NullReturn(rs.tasks[0]) ==> |Take(rs).frames| >= |rs.frames|
  {
  }

  lemma TellsIs(s: State, a: Step, r: nat, i: Invocation)
    requires ForeignCallbacks.ReturnsHomed(s) && Enabled(s, a) && r < |s.runners|
    ensures Did(s, Next(s, a), r, Tells(i)) <==>
      a == TakeTask(r) && i.foreign && s.runners[r].tasks[0] == CallbackReturn(i)
  {
    if i.foreign { SignalsEffect(s, a, i); }
    if a.TakeTask? && s.runners[a.r].tasks[0] == CallbackReturn(i) {
      assert i in ForeignCallbacks.QueuedReturns(s.runners[a.r].tasks);
    }
  }

  /** A semaphore is signalled by taking the return, and by nothing else. */
  lemma SignalsEffect(s: State, a: Step, i: Invocation)
    requires Enabled(s, a) && i.foreign
    ensures Next(s, a).signals[i] == s.signals[i] + 1 <==> a.TakeTask? && s.runners[a.r].tasks[0] == CallbackReturn(i)
  {
    if a.CrossCallback? { CrossEffect(s, a.q, a.r); }
  }

  /** A worker is asked by a dispatch, or by the return of the callback on top of its stack. */
  lemma AskedIs(s: State, a: Step, r: nat, d: Deed)
    requires Enabled(s, a) && r < |s.runners|
    ensures Asked(s, Next(s, a), r, d) <==>
      || (a.Dispatch? && a.r == r && d == Starts(Call(s.nextCall, r, a.p)))
      || (Pops(s, a, r) && d == DeedOf(CallbackReturn(s.runners[r].image[a.k].inv)))
  {
    if d.Starts? {
      if !a.Dispatch? && !a.CallerResumes? { WritesEffect(s, a); }
    } else {
      NativeEffect(s, a, r);
    }
  }

  predicate Pops(s: State, a: Step, r: nat)
    requires Enabled(s, a)
  {
    a.TryReturn? && a.r == r && ReturnSucceeds(s.runners[r], a.k)
  }

  lemma NativeEffect(s: State, a: Step, r: nat)
    requires Enabled(s, a) && r < |s.runners|
    ensures Popped(s.runners[r].native, Next(s, a).runners[r].native) <==> Pops(s, a, r)
  {
    if a.CrossCallback? { CrossEffect(s, a.q, a.r); }
    if !Touches(s, a, r) { Untouched(s, a, r); }
  }

  // ---- over runs ----

  /** The same of the deeds as of the tasks: the first goes, others are added. */
  lemma DeedsMove(tasks: seq<Task>, added: seq<Task>, taken: bool)
    requires taken ==> tasks != []
    ensures Deeds(tasks) + Deeds(added)
      == (if taken then [DeedOf(tasks[0])] else []) + Deeds((if taken then tasks[1..] else tasks) + added)
  {
  }

  /** What a step asks of worker `r`, as the task that it adds. */
  function Added(s: State, a: Step, r: nat): seq<Task>
    requires Enabled(s, a) && r < |s.runners|
  {
    if a.Dispatch? && a.r == r then [Callout(Call(s.nextCall, r, a.p))]
    else if Pops(s, a, r) then [CallbackReturn(s.runners[r].image[a.k].inv)]
    else []
  }

  lemma AskingIs(s: State, a: Step, r: nat)
    requires Enabled(s, a) && r < |s.runners|
    ensures Asking(s, Next(s, a), r) == Deeds(Added(s, a, r))
  {
    forall d ensures Asked(s, Next(s, a), r, d) <==> Added(s, a, r) != [] && d == DeedOf(Added(s, a, r)[0]) {
      AskedIs(s, a, r, d);
    }
    if Added(s, a, r) != [] { assert Asked(s, Next(s, a), r, DeedOf(Added(s, a, r)[0])); }
  }

  lemma DoingIs(s: State, a: Step, r: nat)
    requires Reachable(s) && Enabled(s, a) && r < |s.runners|
    ensures Doing(s, Next(s, a), r) == if a == TakeTask(r) then [DeedOf(s.runners[r].tasks[0])] else []
  {
    forall d ensures Did(s, Next(s, a), r, d) <==> a == TakeTask(r) && d == DeedOf(s.runners[r].tasks[0]) {
      DidIs(s, a, r, d);
    }
    if a == TakeTask(r) { assert Did(s, Next(s, a), r, DeedOf(s.runners[r].tasks[0])); }
  }

  lemma TasksQueue(s: State, a: Step, r: nat)
    requires Enabled(s, a) && r < |s.runners|
    ensures Next(s, a).runners[r].tasks
      == (if a == TakeTask(r) then s.runners[r].tasks[1..] else s.runners[r].tasks) + Added(s, a, r)
  {
    TasksEffect(s, a, r);
  }

  lemma DeedStep(s: State, a: Step, r: nat)
    requires Reachable(s) && Enabled(s, a) && r < |s.runners|
    ensures Deeds(s.runners[r].tasks) + Asking(s, Next(s, a), r) == Doing(s, Next(s, a), r) + Deeds(Next(s, a).runners[r].tasks)
  {
    AskingIs(s, a, r);
    DoingIs(s, a, r);
    TasksQueue(s, a, r);
    DeedsMove(s.runners[r].tasks, Added(s, a, r), a == TakeTask(r));
  }

  ghost function DoneBy(s: State, run: seq<Step>, r: nat): seq<Deed>
    requires Valid(s, run) && r < |s.runners|
    decreases |run|
  {
    if run == [] then [] else Doing(s, Next(s, run[0]), r) + DoneBy(Next(s, run[0]), run[1..], r)
  }

  ghost function AskedBy(s: State, run: seq<Step>, r: nat): seq<Deed>
    requires Valid(s, run) && r < |s.runners|
    decreases |run|
  {
    if run == [] then [] else Asking(s, Next(s, run[0]), r) + AskedBy(Next(s, run[0]), run[1..], r)
  }

  /** What went in before and during `run` is what came out and what is still there. */
  ghost predicate InOrder(s: State, run: seq<Step>, r: nat)
    requires Valid(s, run) && r < |s.runners|
  {
    var t := Exec(s, run);
    r < |t.runners| && Deeds(s.runners[r].tasks) + AskedBy(s, run, r) == DoneBy(s, run, r) + Deeds(t.runners[r].tasks)
  }

  lemma InOrderFrom(s: State, run: seq<Step>, r: nat)
    requires run != [] && Valid(s, run) && r < |s.runners| && InOrder(Next(s, run[0]), run[1..], r)
    requires Deeds(s.runners[r].tasks) + Asking(s, Next(s, run[0]), r)
      == Doing(s, Next(s, run[0]), r) + Deeds(Next(s, run[0]).runners[r].tasks)
    ensures InOrder(s, run, r)
  {
    var t, rest := Next(s, run[0]), run[1..];
    Shifted(Deeds(s.runners[r].tasks), Asking(s, t, r), Doing(s, t, r), Deeds(t.runners[r].tasks),
            AskedBy(t, rest, r), DoneBy(t, rest, r), Deeds(Exec(t, rest).runners[r].tasks));
  }

  /** A worker does what it is asked for, each thing once and in the order of the asking, and what it has not
      done yet is what its tasks stand for. */
  lemma {:induction false} TasksAreServedInOrder(s: State, run: seq<Step>, r: nat)
    requires Reachable(s) && Valid(s, run) && r < |s.runners|
    ensures InOrder(s, run, r)
    decreases |run|
  {
    if run != [] {
      DeedStep(s, run[0], r);
      ReachableStep(s, run[0]);
      TasksAreServedInOrder(Next(s, run[0]), run[1..], r);
      InOrderFrom(s, run, r);
    } else {
      assert Deeds(s.runners[r].tasks) + AskedBy(s, run, r) == DoneBy(s, run, r) + Deeds(Exec(s, run).runners[r].tasks);
    }
  }
}
