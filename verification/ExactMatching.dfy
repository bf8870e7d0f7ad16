/** The hypothesis of FrameMatching is exact.

    At an own-thread return that is not clear there is a continuation, made of C functions that call
    back and of loop iterations, in which the return ends the loop of another invocation, unless the
    worker's thread never comes back from a callback of another runner. At a clear one there is
    none, whatever happens next. */
module ExactMatching {
  import opened Prelude
  import opened Protocol
  import opened Frames
  import opened FrameMatching
  import StackAgreement

  /** The worker is about to take the return of `inv`. */
  ghost predicate AtReturn(s: State, r: nat, inv: Invocation) {
    Enabled(s, TakeTask(r)) && s.runners[r].tasks[0] == CallbackReturn(inv)
  }

  /** ... and its innermost loop is not the one of `inv`. */
  ghost predicate EndsOther(s: State, r: nat, inv: Invocation) {
    AtReturn(s, r, inv) && (s.runners[r].frames == [] || Last(s.runners[r].frames) != BackFrame(inv))
  }

  /** No continuation of `s` lets the return of `inv` end another loop. */
  ghost predicate Safe(s: State, r: nat, inv: Invocation) {
    forall run :: Valid(s, run) ==> !EndsOther(Exec(s, run), r, inv)
  }

  // ---- frames of the C stack are distinct ----

  ghost predicate DistinctBacks(frames: seq<Frame>, nextId: nat) {
    && (forall j :: 0 <= j < |frames| && frames[j].BackFrame? ==> frames[j].inv.id < nextId)
    && (forall i, j :: 0 <= i < j < |frames| && frames[i].BackFrame? ==> frames[i] != frames[j])
  }

  lemma DistinctBacksStep(s: State, a: Step, r: nat)
    requires Enabled(s, a) && r < |s.runners| && DistinctBacks(s.runners[r].frames, s.nextId)
    ensures DistinctBacks(Next(s, a).runners[r].frames, Next(s, a).nextId)
  {
    FramesEffect(s, a, r);
    IdsGrow(s, a, r);
    if a == TakeTask(r) {
      DistinctBacksTake(s.runners[r], s.nextId);
    } else if a == OwnCallback(r) {
      DistinctBacksPushed(s.runners[r].frames, s.nextId, r);
    }
  }

  lemma DistinctBacksPushed(frames: seq<Frame>, nextId: nat, r: nat)
    requires DistinctBacks(frames, nextId)
    ensures DistinctBacks(frames + [BackFrame(Invocation(nextId, r, false))], nextId + 1)
  {
  }

  lemma DistinctBacksTake(rs: RunnerState, nextId: nat)
    requires Idle(rs) && rs.tasks != [] && DistinctBacks(rs.frames, nextId)
    ensures DistinctBacks(Take(rs).frames, nextId)
  {
  }

  lemma {:induction false} DistinctBacksRun(s: State, run: seq<Step>, r: nat)
    requires Valid(s, run) && r < |s.runners| && DistinctBacks(s.runners[r].frames, s.nextId)
    ensures r < |Exec(s, run).runners| && DistinctBacks(Exec(s, run).runners[r].frames, Exec(s, run).nextId)
    decreases |run|
  {
    if run != [] {
      DistinctBacksStep(s, run[0], r);
      DistinctBacksRun(Next(s, run[0]), run[1..], r);
    }
  }

  lemma ReachableBacks(s: State, r: nat)
    requires Reachable(s) && r < |s.runners|
    ensures DistinctBacks(s.runners[r].frames, s.nextId)
  {
    var n: nat, run: seq<Step> :| Reaches(Init(n), run, s);
    RunnersStay(Init(n), run);
    DistinctBacksRun(Init(n), run, r);
  }

  // ---- not clear: another loop can be ended ----

  /** Once the innermost frame is not the loop of `inv`, functions that always call back keep it so
      until the return of `inv` is taken. */
  lemma {:induction false} Spoil(s: State, r: nat, n: nat, inv: Invocation) returns (run: seq<Step>)
    requires Spoiling(s, r, n, inv) && !Away(s.runners[r])
    ensures Valid(s, run) && EndsOther(Exec(s, run), r, inv)
    decreases n, InFunction(s.runners[r]), |s.runners[r].entering|
  {
    var rs := s.runners[r];
    var a, rest;
    if Idle(rs) && n == 0 {
      run := [];
      return;
    } else if Idle(rs) {
      a := TakeTask(r);
      SpoilTake(s, r, n, inv);
      rest := Spoil(Next(s, a), r, n - 1, inv);
    } else if InFunction(rs) {
      a := OwnCallback(r);
      SpoilCallback(s, r, n, inv);
      rest := Spoil(Next(s, a), r, n, inv);
    } else {
      var k :| 0 <= k < |rs.entering| && rs.entering[k] == Last(rs.frames).inv;
      a := Enqueue(r, k);
      SpoilEnqueue(s, r, n, inv, k);
      rest := Spoil(Next(s, a), r, n, inv);
    }
    run := [a] + rest;
    ExecCons(s, a, rest);
  }

  /** The return of `inv` is at place `n` of the queue, and the innermost frame is not the loop of `inv`. */
  ghost predicate Spoiling(s: State, r: nat, n: nat, inv: Invocation) {
    && r < |s.runners| && Balanced(s.runners[r]) && inv.id < s.nextId
    && n < |s.runners[r].tasks| && s.runners[r].tasks[n] == CallbackReturn(inv)
    && s.runners[r].frames != [] && Last(s.runners[r].frames) != BackFrame(inv)
  }

  lemma SpoilTake(s: State, r: nat, n: nat, inv: Invocation)
    requires Spoiling(s, r, n, inv) && Idle(s.runners[r]) && n > 0
    ensures Enabled(s, TakeTask(r)) && Spoiling(Next(s, TakeTask(r)), r, n - 1, inv) && !Away(Next(s, TakeTask(r)).runners[r])
  {
    BalancedStep(s, TakeTask(r), r);
  }

  lemma SpoilCallback(s: State, r: nat, n: nat, inv: Invocation)
    requires Spoiling(s, r, n, inv) && InFunction(s.runners[r])
    ensures Enabled(s, OwnCallback(r)) && Spoiling(Next(s, OwnCallback(r)), r, n, inv)
    ensures !InFunction(Next(s, OwnCallback(r)).runners[r]) && !Away(Next(s, OwnCallback(r)).runners[r])
  {
    BalancedStep(s, OwnCallback(r), r);
  }

  lemma SpoilEnqueue(s: State, r: nat, n: nat, inv: Invocation, k: nat)
    requires Spoiling(s, r, n, inv) && k < |s.runners[r].entering|
    ensures Enabled(s, Enqueue(r, k)) && Spoiling(Next(s, Enqueue(r, k)), r, n, inv)
    ensures |Next(s, Enqueue(r, k)).runners[r].entering| < |s.runners[r].entering|
    ensures Next(s, Enqueue(r, k)).runners[r].frames == s.runners[r].frames
  {
    BalancedStep(s, Enqueue(r, k), r);
  }

  /** While the thread is away nothing is taken, and when it comes back it is in a function. */
  lemma AwayStep(s: State, a: Step, r: nat, n: nat, inv: Invocation)
    requires Spoiling(s, r, n, inv) && Away(s.runners[r]) && Enabled(s, a)
    ensures Spoiling(Next(s, a), r, n, inv)
  {
    BalancedStep(s, a, r);
    if a.CrossCallback? { CrossEffect(s, a.q, a.r); }
    if !Touches(s, a, r) {
      Untouched(s, a, r);
    } else if a.CrossResumes? {
      FunctionUnder(s.runners[r].frames);
    }
  }

  lemma FunctionUnder(frames: seq<Frame>)
    requires Alternating(frames) && frames != [] && !Last(frames).CallFrame?
    ensures Front(frames) != [] && Last(Front(frames)).CallFrame?
  {
  }

  /** Once back, the return can end the loop of another invocation. */
  lemma {:induction false} SpoilAfter(s: State, back: seq<Step>, r: nat, n: nat, inv: Invocation) returns (run: seq<Step>)
    requires Spoiling(s, r, n, inv) && Valid(s, back) && r < |Exec(s, back).runners| && !Away(Exec(s, back).runners[r])
    ensures Valid(s, run) && EndsOther(Exec(s, run), r, inv)
    decreases |back|
  {
    if !Away(s.runners[r]) {
      run := Spoil(s, r, n, inv);
    } else {
      ExecHead(s, back);
      AwayStep(s, back[0], r, n, inv);
      var rest := SpoilAfter(Next(s, back[0]), back[1..], r, n, inv);
      run := [back[0]] + rest;
      ExecCons(s, back[0], rest);
    }
  }

  /** A callout queued before the return of `inv` is run above its loop. */
  lemma {:induction false} SpoilQueued(s: State, r: nat, m: nat, n: nat, inv: Invocation) returns (run: seq<Step>)
    requires r < |s.runners| && Balanced(s.runners[r]) && inv.id < s.nextId
    requires m < n < |s.runners[r].tasks| && s.runners[r].tasks[n] == CallbackReturn(inv)
    requires s.runners[r].tasks[m].Callout? && forall j :: 0 <= j < m ==> !NullReturn(s.runners[r].tasks[j])
    requires s.runners[r].frames != [] && Last(s.runners[r].frames) == BackFrame(inv) && inv !in s.runners[r].entering
    ensures Valid(s, run) && EndsOther(Exec(s, run), r, inv)
    decreases m
  {
    var a := TakeTask(r);
    var t := Next(s, a);
    BalancedStep(s, a, r);
    var rest;
    if s.runners[r].tasks[0].Callout? {
      rest := Spoil(t, r, n - 1, inv);
    } else {
      rest := SpoilQueued(t, r, m - 1, n - 1, inv);
    }
    run := [a] + rest;
    assert run[1..] == rest;
  }

  lemma SecondDiffers(frames: seq<Frame>, nextId: nat)
    requires DistinctBacks(frames, nextId) && |BackInvocations(frames)| >= 2
    ensures Last(Front(BackInvocations(frames))) != Last(BackInvocations(frames))
  {
    var j := InnermostBack(frames);
    var i := InnermostBack(frames[..j]);
    assert frames[i] == frames[..j][i];
  }

  /** With the loop of `inv` innermost, only a queued callout makes its return not clear. */
  lemma InnermostNotClear(rs: RunnerState, nextId: nat, inv: Invocation) returns (m: nat)
    requires Matched(rs) && Balanced(rs) && DistinctBacks(rs.frames, nextId)
    requires CanReturn(rs, inv) && !inv.foreign && !Clear(rs, inv)
    requires rs.frames != [] && Last(rs.frames) == BackFrame(inv)
    ensures m < |rs.tasks| && rs.tasks[m].Callout?
    ensures forall j :: 0 <= j < |rs.tasks| ==> !NullReturn(rs.tasks[j])
  {
    SelectFront((i: Invocation) => !i.foreign, rs.native);
    assert Last(Own(rs.native)) == inv;
    var j := InnermostBack(rs.frames);
    assert Last(BackInvocations(rs.frames)) == inv;
    assert NullReturns(rs.tasks) != [] ==> Front(BackInvocations(rs.frames)) == Own(rs.native);
    if |BackInvocations(rs.frames)| >= 2 { SecondDiffers(rs.frames, nextId); }
    NoNullReturns(rs.tasks);
    m :| 0 <= m < |rs.tasks| && rs.tasks[m].Callout?;
  }

  /** The worker's thread never comes back from the callback of another runner that it is in. */
  ghost predicate NeverBack(s: State, r: nat) {
    forall run :: Valid(s, run) ==> r < |Exec(s, run).runners| && Away(Exec(s, run).runners[r])
  }

  lemma NotClearIsSpoiled(s: State, r: nat, k: nat) returns (run: seq<Step>)
    requires r < |s.runners| && Reachable(s) && Matched(s.runners[r])
    requires Enabled(s, TryReturn(r, k)) && ReturnsOwn(s, TryReturn(r, k), r)
    requires !Clear(s.runners[r], s.runners[r].image[k].inv) && !NeverBack(Next(s, TryReturn(r, k)), r)
    ensures var t := Next(s, TryReturn(r, k)); Valid(t, run) && EndsOther(Exec(t, run), r, s.runners[r].image[k].inv)
  {
    var rs := s.runners[r];
    var inv := rs.image[k].inv;
    var t := Next(s, TryReturn(r, k));
    FramesConserved(s, r);
    StackAgreement.ReachableInv(s);
    assert StackAgreement.RunnerInv(s, r);
    StackAgreement.SettledIsNative(s, r, k);
    ReachableBacks(s, r);
    BalancedStep(s, TryReturn(r, k), r);
    SelectFront((i: Invocation) => !i.foreign, rs.native);
    assert BackInvocations(rs.frames) != [];
    if Last(rs.frames) == BackFrame(inv) {
      var m := InnermostNotClear(rs, s.nextId, inv);
      run := SpoilQueued(t, r, m, |rs.tasks|, inv);
    } else {
      var back :| Valid(t, back) && !(r < |Exec(t, back).runners| && Away(Exec(t, back).runners[r]));
      RunnersStay(t, back);
      run := SpoilAfter(t, back, r, |rs.tasks|, inv);
    }
  }

  // ---- clear: no other loop can be ended ----

  ghost predicate OnlyAt(tasks: seq<Task>, n: nat, inv: Invocation) {
    forall m :: 0 <= m < |tasks| && m != n ==> tasks[m] != CallbackReturn(inv)
  }

  /** The return of `inv` is ready, or has been taken. */
  ghost predicate ReadyOrGone(rs: RunnerState, inv: Invocation) {
    || (exists n: nat :: ReturnReady(rs, n, inv) && OnlyAt(rs.tasks, n, inv))
    || CallbackReturn(inv) !in rs.tasks
  }

  ghost predicate Done(s: State, r: nat, inv: Invocation) {
    r < |s.runners| && inv !in s.runners[r].native && inv.id < s.nextId && ReadyOrGone(s.runners[r], inv)
  }

  lemma ReadyTake(rs: RunnerState, inv: Invocation)
    requires ReadyOrGone(rs, inv) && Idle(rs) && rs.tasks != []
    ensures ReadyOrGone(Take(rs), inv)
    ensures rs.tasks[0] == CallbackReturn(inv) ==> rs.frames != [] && Last(rs.frames) == BackFrame(inv)
  {
    if CallbackReturn(inv) in rs.tasks {
      var n: nat :| ReturnReady(rs, n, inv) && OnlyAt(rs.tasks, n, inv);
      if n > 0 {
        assert ReturnReady(Take(rs), n - 1, inv) && OnlyAt(Take(rs).tasks, n - 1, inv);
      }
    }
  }

  lemma ReadyAppend(rs: RunnerState, t: RunnerState, inv: Invocation)
    requires ReadyOrGone(rs, inv)
    requires t.tasks == rs.tasks || (t.tasks != [] && t.tasks == rs.tasks + [Last(t.tasks)] && Last(t.tasks) != CallbackReturn(inv))
    requires t.frames == rs.frames || (rs.frames != [] && !Last(rs.frames).BackFrame?)
    ensures ReadyOrGone(t, inv)
  {
    if CallbackReturn(inv) in rs.tasks {
      var n: nat :| ReturnReady(rs, n, inv) && OnlyAt(rs.tasks, n, inv);
      assert t.frames == rs.frames;
      assert ReturnReady(t, n, inv) && OnlyAt(t.tasks, n, inv);
    }
  }

  lemma DoneStep(s: State, a: Step, r: nat, inv: Invocation)
    requires Done(s, r, inv) && Enabled(s, a)
    ensures Done(Next(s, a), r, inv)
  {
    var rs, t := s.runners[r], Next(s, a).runners[r];
    if a.CrossCallback? { CrossEffect(s, a.q, a.r); }
    if !Touches(s, a, r) {
      Untouched(s, a, r);
    } else if a.TakeTask? {
      ReadyTake(rs, inv);
    } else {
      ReadyAppend(rs, t, inv);
    }
  }

  lemma {:induction false} DoneRun(s: State, run: seq<Step>, r: nat, inv: Invocation)
    requires Done(s, r, inv) && Valid(s, run)
    ensures !EndsOther(Exec(s, run), r, inv)
    decreases |run|
  {
    if run == [] {
      if AtReturn(s, r, inv) { ReadyTake(s.runners[r], inv); }
    } else {
      DoneStep(s, run[0], r, inv);
      DoneRun(Next(s, run[0]), run[1..], r, inv);
    }
  }

  lemma ClearIsDone(s: State, r: nat, k: nat)
    requires r < |s.runners| && Reachable(s) && Matched(s.runners[r])
    requires Enabled(s, TryReturn(r, k)) && ReturnsOwn(s, TryReturn(r, k), r)
    requires Clear(s.runners[r], s.runners[r].image[k].inv)
    ensures Done(Next(s, TryReturn(r, k)), r, s.runners[r].image[k].inv)
  {
    var rs := s.runners[r];
    FramesConserved(s, r);
    StackAgreement.ReachableInv(s);
    assert StackAgreement.RunnerInv(s, r);
    ClearIsReady(rs, k);
    PoppedIsGone(rs.native);
  }

  lemma PoppedIsGone(native: seq<Invocation>)
    requires native != [] && NoDup(native)
    ensures Last(native) !in Front(native) && Last(native) in native
  {
  }

  lemma ClearIsReady(rs: RunnerState, k: nat)
    requires Matched(rs) && Alternating(rs.frames) && k < |rs.image| && ReturnSucceeds(rs, k)
    requires !rs.image[k].inv.foreign && Clear(rs, rs.image[k].inv)
    ensures ReadyOrGone(TryReturnAt(rs, k), rs.image[k].inv)
  {
    var inv, t := rs.image[k].inv, TryReturnAt(rs, k);
    ClearIsInnermost(rs, inv);
    NoNullReturns(rs.tasks);
    assert ReturnReady(t, |rs.tasks|, inv) && OnlyAt(t.tasks, |rs.tasks|, inv);
  }

  /** As long as every loop is still the one of its invocation, the answer true for `inv` is safe for
      every continuation exactly when it is clear, or the worker's thread never comes back from a
      callback of another runner. */
  lemma ExactCondition(s: State, r: nat, k: nat)
    requires r < |s.runners| && Reachable(s) && Matched(s.runners[r])
    requires Enabled(s, TryReturn(r, k)) && ReturnsOwn(s, TryReturn(r, k), r)
    ensures var t, inv := Next(s, TryReturn(r, k)), s.runners[r].image[k].inv;
      Safe(t, r, inv) <==> Clear(s.runners[r], inv) || NeverBack(t, r)
  {
    var t, inv := Next(s, TryReturn(r, k)), s.runners[r].image[k].inv;
    if Clear(s.runners[r], inv) {
      ClearIsDone(s, r, k);
      forall run | Valid(t, run) ensures !EndsOther(Exec(t, run), r, inv) {
        DoneRun(t, run, r, inv);
      }
    } else if NeverBack(t, r) {
      forall run | Valid(t, run) ensures !EndsOther(Exec(t, run), r, inv) {
        assert Away(Exec(t, run).runners[r]);
      }
    } else {
      var run := NotClearIsSpoiled(s, r, k);
      assert Valid(t, run) && EndsOther(Exec(t, run), r, inv);
    }
  }

  /** A thread that is not in a callback of another runner: safe exactly when clear. */
  lemma ExactAtHome(s: State, r: nat, k: nat)
    requires r < |s.runners| && Reachable(s) && Matched(s.runners[r]) && !Away(s.runners[r])
    requires Enabled(s, TryReturn(r, k)) && ReturnsOwn(s, TryReturn(r, k), r)
    ensures Safe(Next(s, TryReturn(r, k)), r, s.runners[r].image[k].inv) <==> Clear(s.runners[r], s.runners[r].image[k].inv)
  {
    ExactCondition(s, r, k);
    var t := Next(s, TryReturn(r, k));
    assert Valid(t, []) && Exec(t, []) == t;
  }

  // ---- a run in which another loop is ended ----

  const C0 := Call(0, 0, Green(0))
  const C1 := Call(1, 0, Green(1))
  const I0 := Invocation(0, 0, false)
  const I1 := Invocation(1, 0, false)

  /** Equality of two states with one runner, field by field. */
  ghost predicate Same(s: State, t: State) {
    && |s.runners| == |t.runners| == 1
    && s.runners[0].native == t.runners[0].native && s.runners[0].entering == t.runners[0].entering
    && s.runners[0].tasks == t.runners[0].tasks
    && s.runners[0].frames == t.runners[0].frames && s.runners[0].rootReturned == t.runners[0].rootReturned
    && s.runners[0].image == t.runners[0].image && s.runners[0].returned == t.runners[0].returned
    && s.pending == t.pending && s.inFlight == t.inFlight && s.nextId == t.nextId && s.holder == t.holder
    && s.nextCall == t.nextCall && s.result == t.result && s.awaiting == t.awaiting
    && s.signals == t.signals && s.resumed == t.resumed
  }

  lemma Play(s: State, a: Step, t: State)
    requires Reachable(s) && Enabled(s, a) && Same(Next(s, a), t)
    ensures Reachable(t)
  {
    ReachableStep(s, a);
    SameIsEqual(Next(s, a), t);
  }

  lemma SameIsEqual(s: State, t: State)
    requires Same(s, t)
    ensures s == t
  {
    assert s.runners == t.runners;
  }

  function OneRunner(rs: RunnerState, pending: seq<Invocation>, inFlight: Option<Invocation>, nextId: nat,
                     holder: map<Invocation, Value>, awaiting: map<Process, Call>): State {
    State([rs], pending, inFlight, nextId, holder, |awaiting|, map[], awaiting, multiset{}, [])
  }

  const ONE: map<Process, Call> := map[Green(0) := C0]
  const TWO: map<Process, Call> := map[Green(0) := C0, Green(1) := C1]
  const WRITTEN: map<Invocation, Value> := map[I0 := Word(7)]

  /** Invocation 0, entered from the callout of process 0 and queued. */
  function Entered0(): RunnerState {
    NEW_RUNNER.(native := [I0], frames := [CallFrame(C0), BackFrame(I0)])
  }

  lemma CalloutReachable()
    ensures Reachable(OneRunner(NEW_RUNNER.(frames := [CallFrame(C0)]), [], None, 0, map[], ONE))
  {
    var s1 := OneRunner(NEW_RUNNER.(tasks := [Callout(C0)]), [], None, 0, map[], ONE);
    ReachableInit(1);
    Play(Init(1), Dispatch(0, Green(0)), s1);
    Play(s1, TakeTask(0), OneRunner(NEW_RUNNER.(frames := [CallFrame(C0)]), [], None, 0, map[], ONE));
  }

  lemma Pushed0Reachable()
    ensures Reachable(OneRunner(Entered0().(entering := [I0]), [], None, 1, map[], ONE))
  {
    CalloutReachable();
    Play(OneRunner(NEW_RUNNER.(frames := [CallFrame(C0)]), [], None, 0, map[], ONE), OwnCallback(0),
      OneRunner(Entered0().(entering := [I0]), [], None, 1, map[], ONE));
  }

  lemma Entered0Reachable()
    ensures Reachable(OneRunner(Entered0(), [I0], None, 1, map[], ONE))
  {
    Pushed0Reachable();
    Play(OneRunner(Entered0().(entering := [I0]), [], None, 1, map[], ONE), Enqueue(0, 0),
      OneRunner(Entered0(), [I0], None, 1, map[], ONE));
  }

  /** Its block runs, and another process queues a callout. */
  function OtherQueued(): RunnerState {
    Entered0().(tasks := [Callout(C1)], image := [Live(I0, Executing)])
  }

  lemma BlockRunsReachable()
    ensures Reachable(OneRunner(Entered0().(image := [Live(I0, Executing)]), [], None, 1, map[], ONE))
  {
    var s4 := OneRunner(Entered0(), [], Some(I0), 1, map[], ONE);
    Entered0Reachable();
    Play(OneRunner(Entered0(), [I0], None, 1, map[], ONE), ReadPending, s4);
    Play(s4, PushImage, OneRunner(Entered0().(image := [Live(I0, Executing)]), [], None, 1, map[], ONE));
  }

  lemma OtherQueuedReachable()
    ensures Reachable(OneRunner(OtherQueued(), [], None, 1, map[], TWO))
  {
    BlockRunsReachable();
    Play(OneRunner(Entered0().(image := [Live(I0, Executing)]), [], None, 1, map[], ONE), Dispatch(0, Green(1)),
      OneRunner(OtherQueued(), [], None, 1, map[], TWO));
  }

  /** The block ends and the primitive answers true. */
  function ReturnQueued(): RunnerState {
    Entered0().(native := [], tasks := [Callout(C1), CallbackReturn(I0)], image := [Live(I0, Returning)], returned := [I0])
  }

  function BlockEnded(): RunnerState {
    OtherQueued().(image := [Live(I0, Awake)])
  }

  lemma BlockEndedReachable()
    ensures Reachable(OneRunner(BlockEnded(), [], None, 1, WRITTEN, TWO))
  {
    OtherQueuedReachable();
    Play(OneRunner(OtherQueued(), [], None, 1, map[], TWO), BlockEnds(0, 0, Word(7)),
      OneRunner(BlockEnded(), [], None, 1, WRITTEN, TWO));
  }

  lemma ReturnQueuedReachable()
    ensures Reachable(OneRunner(ReturnQueued(), [], None, 1, WRITTEN, TWO))
  {
    BlockEndedReachable();
    Play(OneRunner(BlockEnded(), [], None, 1, WRITTEN, TWO), TryReturn(0, 0),
      OneRunner(ReturnQueued(), [], None, 1, WRITTEN, TWO));
  }

  /** The worker goes into the other callout. */
  function OtherRuns(): RunnerState {
    ReturnQueued().(tasks := [CallbackReturn(I0)], frames := [CallFrame(C0), BackFrame(I0), CallFrame(C1)])
  }

  lemma OtherRunsReachable()
    ensures Reachable(OneRunner(OtherRuns(), [], None, 1, WRITTEN, TWO))
  {
    ReturnQueuedReachable();
    Play(OneRunner(ReturnQueued(), [], None, 1, WRITTEN, TWO), TakeTask(0), OneRunner(OtherRuns(), [], None, 1, WRITTEN, TWO));
  }

  /** ... which calls back. */
  function OtherCallsBack(): RunnerState {
    OtherRuns().(native := [I1], frames := [CallFrame(C0), BackFrame(I0), CallFrame(C1), BackFrame(I1)])
  }

  lemma OtherCallsBackReachable()
    ensures Reachable(OneRunner(OtherCallsBack().(entering := [I1]), [], None, 2, WRITTEN, TWO))
  {
    OtherRunsReachable();
    Play(OneRunner(OtherRuns(), [], None, 1, WRITTEN, TWO), OwnCallback(0),
      OneRunner(OtherCallsBack().(entering := [I1]), [], None, 2, WRITTEN, TWO));
  }

  lemma SecondEnteredReachable()
    ensures Reachable(OneRunner(OtherCallsBack(), [I1], None, 2, WRITTEN, TWO))
  {
    OtherCallsBackReachable();
    Play(OneRunner(OtherCallsBack().(entering := [I1]), [], None, 2, WRITTEN, TWO), Enqueue(0, 0),
      OneRunner(OtherCallsBack(), [I1], None, 2, WRITTEN, TWO));
  }

  /** The hypothesis is needed: a callout of another process, queued when the primitive answers
      true for invocation 0, calls back, and its nested loop takes the return of invocation 0. */
  lemma AnotherLoopIsEnded()
    ensures exists s :: Reachable(s) && EndsOther(s, 0, I0)
  {
    SecondEnteredReachable();
    assert EndsOther(OneRunner(OtherCallsBack(), [I1], None, 2, WRITTEN, TWO), 0, I0);
  }
}
