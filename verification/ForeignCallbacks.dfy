/** Invocations entered on a thread other than the worker's.

    The thread waits on a private semaphore. Whatever nesting level of `worker_run` takes its return
    task, the invocation is at every moment in exactly one place: on the callback stack, in the worker's
    queue as a return, as one signal of its semaphore, or resumed. */
module ForeignCallbacks {
  import opened Prelude
  import opened Protocol
  import opened Frames
  import StackAgreement
  import ValueFlow

  /** The invocations whose return is queued. */
  function QueuedReturns(tasks: seq<Task>): (q: seq<Invocation>) {
    if tasks == [] then []
    else (if tasks[0].CallbackReturn? then [tasks[0].inv] else []) + QueuedReturns(tasks[1..])
  }

  lemma {:induction false} QueuedReturnsSnoc(a: seq<Task>, t: Task)
    ensures QueuedReturns(a + [t]) == QueuedReturns(a) + if t.CallbackReturn? then [t.inv] else []
  {
    if a == [] {
      assert [t][1..] == [];
    } else {
      QueuedReturnsSnoc(a[1..], t);
      assert (a + [t])[1..] == a[1..] + [t];
    }
  }

  /** How many times `f` occurs in the system. */
  function Places(s: State, f: Invocation): nat
    requires f.runner < |s.runners|
  {
    var rs := s.runners[f.runner];
    multiset(rs.native)[f] + multiset(QueuedReturns(rs.tasks))[f] + s.signals[f] + multiset(s.resumed)[f]
  }

  /** `f` was entered, the primitive has answered true for it, and its thread has not been told yet
      or has: everything but "still on the callback stack". */
  function Gone(s: State, f: Invocation): nat
    requires f.runner < |s.runners|
  {
    multiset(QueuedReturns(s.runners[f.runner].tasks))[f] + s.signals[f] + multiset(s.resumed)[f]
  }

  ghost predicate Tracked(s: State, f: Invocation)
    requires f.runner < |s.runners|
  {
    && Places(s, f) <= 1
    && (f.id >= s.nextId ==> Places(s, f) == 0)
    && (f in s.runners[f.runner].returned <==> Gone(s, f) == 1)
  }

  /** Every foreign return queued on a runner belongs to that runner. */
  ghost predicate ReturnsHomed(s: State) {
    forall r, i :: 0 <= r < |s.runners| && i in QueuedReturns(s.runners[r].tasks) ==> i.runner == r
  }

  lemma ReturnsHomedStep(s: State, a: Step)
    requires StackAgreement.Inv(s) && ReturnsHomed(s) && Enabled(s, a)
    ensures ReturnsHomed(Next(s, a))
  {
    var t := Next(s, a);
    forall r, i | 0 <= r < |t.runners| && i in QueuedReturns(t.runners[r].tasks) ensures i.runner == r {
      var rs := s.runners[r];
      TasksEffect(s, a, r);
      if Touches(s, a, r) && a.Dispatch? {
        QueuedReturnsSnoc(rs.tasks, Callout(Call(s.nextCall, r, a.p)));
      } else if Touches(s, a, r) && a.TryReturn? && ReturnSucceeds(rs, a.k) {
        QueuedReturnsSnoc(rs.tasks, CallbackReturn(rs.image[a.k].inv));
      }
      assert i in QueuedReturns(rs.tasks) || i.runner == r;
    }
  }

  /** The primitive answers true for `f`. */
  predicate Returns(s: State, a: Step, f: Invocation)
    requires Enabled(s, a)
  {
    a.TryReturn? && a.r == f.runner && ReturnSucceeds(s.runners[a.r], a.k) && s.runners[a.r].image[a.k].inv == f
  }

  lemma QueuedStep(s: State, a: Step, f: Invocation)
    requires Enabled(s, a) && f.foreign && f.runner < |s.runners|
    ensures multiset(QueuedReturns(Next(s, a).runners[f.runner].tasks))[f]
      + (if a == TakeTask(f.runner) && s.runners[a.r].tasks[0] == CallbackReturn(f) then 1 else 0)
      == multiset(QueuedReturns(s.runners[f.runner].tasks))[f] + if Returns(s, a, f) then 1 else 0
  {
    var rs := s.runners[f.runner];
    TasksEffect(s, a, f.runner);
    if !Touches(s, a, f.runner) {
    } else if a.Dispatch? {
      OneMoreQueued(rs.tasks, Callout(Call(s.nextCall, f.runner, a.p)), f);
    } else if a.TryReturn? && ReturnSucceeds(rs, a.k) {
      OneMoreQueued(rs.tasks, CallbackReturn(rs.image[a.k].inv), f);
    } else if a.TakeTask? {
      FirstQueued(rs.tasks, f);
    }
  }

  lemma OneMoreQueued(tasks: seq<Task>, t: Task, f: Invocation)
    ensures multiset(QueuedReturns(tasks + [t]))[f]
      == multiset(QueuedReturns(tasks))[f] + if t == CallbackReturn(f) then 1 else 0
  {
    QueuedReturnsSnoc(tasks, t);
  }

  lemma FirstQueued(tasks: seq<Task>, f: Invocation)
    requires tasks != []
    ensures multiset(QueuedReturns(tasks))[f]
      == multiset(QueuedReturns(tasks[1..]))[f] + if tasks[0] == CallbackReturn(f) then 1 else 0
  {
  }

  lemma GoneStep(s: State, a: Step, f: Invocation)
    requires ReturnsHomed(s) && Enabled(s, a) && f.foreign && f.runner < |s.runners|
    ensures Gone(Next(s, a), f) == Gone(s, f) + if Returns(s, a, f) then 1 else 0
  {
    QueuedStep(s, a, f);
    ToldStep(s, a, f);
    if a.TakeTask? && s.runners[a.r].tasks[0] == CallbackReturn(f) {
      assert f in QueuedReturns(s.runners[a.r].tasks);
    }
  }

  /** The signal comes with the taken return, and the thread goes on by consuming it. */
  lemma ToldStep(s: State, a: Step, f: Invocation)
    requires Enabled(s, a) && f.foreign
    ensures Next(s, a).signals[f] + multiset(Next(s, a).resumed)[f]
      == s.signals[f] + multiset(s.resumed)[f] + if a.TakeTask? && s.runners[a.r].tasks[0] == CallbackReturn(f) then 1 else 0
  {
  }

  /** A foreign thread, or the worker of another runner, enters a callback of runner `r`. */
  predicate EntersForeign(a: Step, r: nat) {
    Enters(a, r) && !a.OwnCallback?
  }

  lemma NativeStep(s: State, a: Step, f: Invocation)
    requires Enabled(s, a) && f.foreign && f.runner < |s.runners|
    ensures multiset(Next(s, a).runners[f.runner].native)[f] + (if Returns(s, a, f) then 1 else 0)
      == multiset(s.runners[f.runner].native)[f] + if EntersForeign(a, f.runner) && f.id == s.nextId then 1 else 0
  {
    var rs := s.runners[f.runner];
    if !a.TryReturn? {
      StackAgreement.ArrivalStep(s, a, f.runner);
    } else if !Touches(s, a, f.runner) {
      Untouched(s, a, f.runner);
    } else if a.TryReturn? && ReturnSucceeds(rs, a.k) {
      assert rs.native == Front(rs.native) + [rs.image[a.k].inv];
    }
  }

  /** Conservation: only its own entry adds an occurrence of a foreign invocation, and no step takes
      one away. */
  lemma PlacesConserved(s: State, a: Step, f: Invocation)
    requires ReturnsHomed(s) && Enabled(s, a) && f.foreign && f.runner < |s.runners|
    ensures Places(Next(s, a), f) == Places(s, f) + if EntersForeign(a, f.runner) && f.id == s.nextId then 1 else 0
  {
    NativeStep(s, a, f);
    GoneStep(s, a, f);
  }

  lemma ReturnedStep(s: State, a: Step, f: Invocation)
    requires Enabled(s, a) && f.runner < |s.runners|
    ensures f in Next(s, a).runners[f.runner].returned <==> f in s.runners[f.runner].returned || Returns(s, a, f)
    ensures Returns(s, a, f) ==> f in multiset(s.runners[f.runner].native)
  {
    if a.CrossCallback? { CrossEffect(s, a.q, a.r); }
    if !Touches(s, a, f.runner) { Untouched(s, a, f.runner); }
  }

  lemma TrackedStep(s: State, a: Step, f: Invocation)
    requires ReturnsHomed(s) && Enabled(s, a) && f.foreign && f.runner < |s.runners| && Tracked(s, f)
    ensures Tracked(Next(s, a), f)
  {
    PlacesConserved(s, a, f);
    GoneStep(s, a, f);
    ReturnedStep(s, a, f);
    IdsGrow(s, a, f.runner);
  }

  lemma {:induction false} TrackedRun(s: State, run: seq<Step>, f: Invocation)
    requires StackAgreement.Inv(s) && ReturnsHomed(s) && Valid(s, run)
    requires f.foreign && f.runner < |s.runners| && Tracked(s, f)
    ensures f.runner < |Exec(s, run).runners| && Tracked(Exec(s, run), f)
    decreases |run|
  {
    if run != [] {
      StackAgreement.InvStep(s, run[0]);
      ReturnsHomedStep(s, run[0]);
      TrackedStep(s, run[0], f);
      TrackedRun(Next(s, run[0]), run[1..], f);
    }
  }

  lemma InitTracked(n: nat, f: Invocation)
    requires f.runner < n
    ensures StackAgreement.Inv(Init(n)) && ReturnsHomed(Init(n)) && Tracked(Init(n), f)
  {
    assert Init(n).runners[f.runner] == NEW_RUNNER;
  }

  lemma {:induction false} ReturnsHomedRun(s: State, run: seq<Step>)
    requires StackAgreement.Inv(s) && ReturnsHomed(s) && Valid(s, run)
    ensures ReturnsHomed(Exec(s, run))
    decreases |run|
  {
    if run != [] {
      StackAgreement.InvStep(s, run[0]);
      ReturnsHomedStep(s, run[0]);
      ReturnsHomedRun(Next(s, run[0]), run[1..]);
    }
  }

  lemma ReachableReturnsHomed(s: State)
    requires Reachable(s)
    ensures ReturnsHomed(s)
  {
    var n: nat, run: seq<Step> :| Reaches(Init(n), run, s);
    assert StackAgreement.Inv(Init(n)) && ReturnsHomed(Init(n));
    ReturnsHomedRun(Init(n), run);
  }

  lemma ReachableTracked(s: State, f: Invocation)
    requires Reachable(s) && f.foreign && f.runner < |s.runners|
    ensures Tracked(s, f)
  {
    var n: nat, run: seq<Step> :| Reaches(Init(n), run, s);
    RunnersStay(Init(n), run);
    InitTracked(n, f);
    TrackedRun(Init(n), run, f);
  }

  /** A foreign thread resumes at most once, and only after the image returned that very invocation;
      by then nothing of the invocation is left in the system. */
  lemma ResumesOnceAfterItsReturn(s: State, f: Invocation)
    requires Reachable(s) && f.foreign && f.runner < |s.runners| && f in s.resumed
    ensures f in s.runners[f.runner].returned
    ensures multiset(s.resumed)[f] == 1
    ensures f !in s.runners[f.runner].native && !CanResume(s, f)
    ensures CallbackReturn(f) !in s.runners[f.runner].tasks
  {
    ReachableTracked(s, f);
    assert f in multiset(s.resumed);
    if CallbackReturn(f) in s.runners[f.runner].tasks {
      QueuedHas(s.runners[f.runner].tasks, f);
    }
  }

  /** The thread that entered `f`, a worker's or not, can go on. */
  ghost predicate CanResume(s: State, f: Invocation) {
    || Enabled(s, ForeignResumes(f))
    || exists q: nat :: q < |s.runners| && Enabled(s, CrossResumes(q)) && Last(s.runners[q].frames).inv == f
  }

  /** A returned foreign invocation whose task has been taken, at whatever nesting level, can resume
      if it has not yet: no signal is lost. */
  lemma ReturnedCanResume(s: State, f: Invocation)
    requires Reachable(s) && f.foreign && f.runner < |s.runners|
    requires f in s.runners[f.runner].returned && f !in QueuedReturns(s.runners[f.runner].tasks)
    ensures f in s.resumed || CanResume(s, f)
  {
    ReachableTracked(s, f);
    assert multiset(QueuedReturns(s.runners[f.runner].tasks))[f] == 0;
    if s.signals[f] > 0 && Crossing(s, f) {
      var q: nat :| q < |s.runners| && s.runners[q].frames != [] && Last(s.runners[q].frames) == WaitFrame(f);
      assert Enabled(s, CrossResumes(q));
    }
  }

  lemma {:induction false} QueuedHas(tasks: seq<Task>, f: Invocation)
    requires CallbackReturn(f) in tasks
    ensures f in QueuedReturns(tasks)
  {
    if tasks[0] != CallbackReturn(f) {
      QueuedHas(tasks[1..], f);
    }
  }

  lemma FrontLoops(frames: seq<Frame>)
    requires frames != [] && !Last(frames).BackFrame?
    ensures BackInvocations(Front(frames)) == BackInvocations(frames)
  {
    assert BackInvocations(Front(frames)) + [] == BackInvocations(Front(frames));
  }

  /** No step but a taken task ends a loop. */
  lemma LoopsStay(s: State, a: Step, r: nat)
    requires Enabled(s, a) && r < |s.runners| && a != TakeTask(r)
    ensures |BackInvocations(Next(s, a).runners[r].frames)| >= |BackInvocations(s.runners[r].frames)|
  {
    if !Touches(s, a, r) {
      Untouched(s, a, r);
    } else if a.CrossCallback? {
      CrossEffect(s, a.q, a.r);
      BackSnoc(s.runners[r].frames, WaitFrame(Invocation(s.nextId, a.r, true)));
    } else if a.CalloutEnds? || a.CrossResumes? {
      FrontLoops(s.runners[r].frames);
    } else if a.OwnCallback? {
      BackSnoc(s.runners[r].frames, BackFrame(Invocation(s.nextId, r, false)));
    }
  }

  /** Only the return of an own-thread invocation ends a loop of the worker. */
  lemma OnlyNullReturnsEndLoops(s: State, a: Step, r: nat)
    requires Reachable(s) && r < |s.runners| && Enabled(s, a)
    requires |BackInvocations(Next(s, a).runners[r].frames)| < |BackInvocations(s.runners[r].frames)|
    ensures a == TakeTask(r) && NullReturn(s.runners[r].tasks[0])
    ensures Next(s, a).runners[r].frames == Front(s.runners[r].frames)
  {
    if a != TakeTask(r) { LoopsStay(s, a, r); }
    LoopTaken(s.runners[r]);
  }

  lemma LoopTaken(rs: RunnerState)
    requires Idle(rs) && rs.tasks != [] && |BackInvocations(Take(rs).frames)| < |BackInvocations(rs.frames)|
    ensures NullReturn(rs.tasks[0]) && Take(rs).frames == Front(rs.frames)
  {
    if rs.tasks[0].Callout? { BackSnoc(rs.frames, CallFrame(rs.tasks[0].call)); }
  }

  // ---- values ----

  /** Who has been told that he may go on finds the end of his block recorded. */
  ghost predicate ToldHaveEnded(s: State) {
    && (forall f :: s.signals[f] > 0 ==> f in s.holder)
    && (forall f :: f in s.resumed ==> f in s.holder)
  }

  lemma ToldHaveEndedStep(s: State, a: Step)
    requires ToldHaveEnded(s) && ValueFlow.Holders(s) && Enabled(s, a)
    ensures ToldHaveEnded(Next(s, a))
  {
    var t := Next(s, a);
    if a.TakeTask? && s.runners[a.r].tasks[0].CallbackReturn? {
      assert s.runners[a.r].tasks[0].inv in s.holder;
    }
    assert forall i :: i in s.holder ==> i in t.holder;
  }

  /** The step is the end of the block of `f`, which leaves `v`. */
  predicate EndsBlock(s: State, a: Step, f: Invocation, v: Value)
    requires Enabled(s, a)
  {
    a.BlockEnds? && s.runners[a.r].image[a.k].inv == f && a.v == v
  }

  predicate BlockEnded(s: State, run: seq<Step>, f: Invocation, v: Value)
    requires Valid(s, run)
    decreases |run|
  {
    run != [] && (EndsBlock(s, run[0], f, v) || BlockEnded(Next(s, run[0]), run[1..], f, v))
  }

  /** A block leaves its value once. */
  lemma HolderStep(s: State, a: Step, f: Invocation)
    requires ValueFlow.Holders(s) && Enabled(s, a)
    ensures f in s.holder ==> f in Next(s, a).holder && Next(s, a).holder[f] == s.holder[f]
    ensures f !in s.holder ==> (f in Next(s, a).holder <==> exists v :: EndsBlock(s, a, f, v))
    ensures forall v :: EndsBlock(s, a, f, v) ==> f !in s.holder && f in Next(s, a).holder && Next(s, a).holder[f] == v
  {
    if a.BlockEnds? && s.runners[a.r].image[a.k].inv == f {
      assert EndsBlock(s, a, f, a.v);
    }
  }

  lemma {:induction false} HolderRun(s: State, run: seq<Step>, f: Invocation)
    requires ValueFlow.Inv(s) && Valid(s, run)
    ensures f in s.holder ==> f in Exec(s, run).holder && Exec(s, run).holder[f] == s.holder[f]
    ensures f in s.holder ==> forall v :: !BlockEnded(s, run, f, v)
    ensures f !in s.holder && f in Exec(s, run).holder ==> BlockEnded(s, run, f, Exec(s, run).holder[f])
    ensures forall v :: BlockEnded(s, run, f, v) ==> f in Exec(s, run).holder && Exec(s, run).holder[f] == v
    decreases |run|
  {
    if run != [] {
      ValueFlow.InvStep(s, run[0]);
      HolderStep(s, run[0], f);
      HolderRun(Next(s, run[0]), run[1..], f);
    }
  }

  lemma {:induction false} ToldHaveEndedRun(s: State, run: seq<Step>)
    requires ValueFlow.Inv(s) && ToldHaveEnded(s) && Valid(s, run)
    ensures ToldHaveEnded(Exec(s, run))
    decreases |run|
  {
    if run != [] {
      ValueFlow.InvStep(s, run[0]);
      ToldHaveEndedStep(s, run[0]);
      ToldHaveEndedRun(Next(s, run[0]), run[1..]);
    }
  }

  /** A foreign thread that has resumed finds the one value that its own block ended with, and no later
      step changes it. */
  lemma ForeignReadsOwnValue(n: nat, run: seq<Step>, later: seq<Step>, f: Invocation)
    requires Valid(Init(n), run) && Valid(Exec(Init(n), run), later) && f in Exec(Init(n), run).resumed
    ensures
      var s, t := Exec(Init(n), run), Exec(Exec(Init(n), run), later);
      && f in s.holder && (forall v :: BlockEnded(Init(n), run, f, v) <==> v == s.holder[f])
      && f in t.holder && t.holder[f] == s.holder[f]
  {
    ValueFlow.InitInv(n);
    ToldHaveEndedRun(Init(n), run);
    HolderRun(Init(n), run, f);
    ValueFlow.InvRun(Init(n), run);
    HolderRun(Exec(Init(n), run), later, f);
  }
}
