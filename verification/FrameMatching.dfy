/** Which nested `worker_run` a CALLBACK_RETURN ends.

    `worker_run` does not look at the invocation a return belongs to. A run is clear when, each time
    the primitive answers true for an invocation of the worker's own thread, no callout of that
    worker is queued or executing above the frame of that invocation. In a clear run every return
    ends the loop of its own invocation, and the condition is exact: at the first answer that is not
    clear, some C functions and some schedule make the return end the loop of another invocation. */
module FrameMatching {
  import opened Prelude
  import opened Protocol
  import opened Frames

  // ---- the hypothesis ----

  /** No callout is queued, and none is executing above the frame of `inv`. */
  ghost predicate Clear(rs: RunnerState, inv: Invocation) {
    && (forall j :: 0 <= j < |rs.tasks| ==> !rs.tasks[j].Callout?)
    && (forall j, k :: 0 <= j < k < |rs.frames| && rs.frames[j] == BackFrame(inv) ==> !rs.frames[k].CallFrame?)
  }

  /** The step makes the primitive answer true for an invocation of runner `r`'s own thread. */
  predicate ReturnsOwn(s: State, a: Step, r: nat) {
    && a.TryReturn? && a.r == r && r < |s.runners| && a.k < |s.runners[r].image|
    && ReturnSucceeds(s.runners[r], a.k) && !s.runners[r].image[a.k].inv.foreign
  }

  ghost predicate ClearStep(s: State, a: Step, r: nat) {
    ReturnsOwn(s, a, r) ==> Clear(s.runners[r], s.runners[r].image[a.k].inv)
  }

  ghost predicate ClearRun(s: State, run: seq<Step>, r: nat)
    requires Valid(s, run)
    decreases |run|
  {
    run == [] || (ClearStep(s, run[0], r) && ClearRun(Next(s, run[0]), run[1..], r))
  }

  // ---- the invariant of clear runs ----

  /** The return of `inv` is at place `n` of the queue, nothing before it can change the C stack, and
      the innermost loop is the one of `inv`. */
  ghost predicate ReturnReady(rs: RunnerState, n: nat, inv: Invocation) {
    && n < |rs.tasks| && rs.tasks[n] == CallbackReturn(inv) && !inv.foreign
    && (forall j :: 0 <= j < n ==> rs.tasks[j].CallbackReturn? && rs.tasks[j].inv.foreign)
    && rs.frames != [] && Last(rs.frames) == BackFrame(inv)
  }

  ghost predicate SomeReady(rs: RunnerState, inv: Invocation) {
    exists n: nat :: ReturnReady(rs, n, inv)
  }

  ghost predicate Matched(rs: RunnerState) {
    && BackInvocations(rs.frames) == Own(rs.native) + NullReturns(rs.tasks)
    && |NullReturns(rs.tasks)| <= 1
    && (NullReturns(rs.tasks) != [] ==> SomeReady(rs, NullReturns(rs.tasks)[0]))
  }

  /** The innermost invocation on the C stack, and where its frame is. */
  lemma {:induction false} InnermostBack(frames: seq<Frame>) returns (j: nat)
    requires BackInvocations(frames) != []
    ensures j < |frames| && frames[j] == BackFrame(Last(BackInvocations(frames)))
    ensures forall k :: j < k < |frames| ==> !frames[k].BackFrame?
    ensures BackInvocations(frames[..j]) == Front(BackInvocations(frames))
    decreases |frames|
  {
    if Last(frames).BackFrame? {
      j := |frames| - 1;
    } else {
      j := InnermostBack(Front(frames));
      assert Front(frames)[..j] == frames[..j];
    }
  }

  lemma {:induction false} NoNullReturns(tasks: seq<Task>)
    requires NullReturns(tasks) == []
    ensures forall j :: 0 <= j < |tasks| && tasks[j].CallbackReturn? ==> tasks[j].inv.foreign
  {
    if tasks != [] {
      NoNullReturns(tasks[1..]);
      forall j | 0 <= j < |tasks| && tasks[j].CallbackReturn? ensures tasks[j].inv.foreign {
        if j > 0 { assert tasks[j] == tasks[1..][j - 1]; }
      }
    }
  }

  /** When the answer for `inv` is clear, the innermost loop is the one of `inv` and no other return
      of the own thread is queued. */
  lemma ClearIsInnermost(rs: RunnerState, inv: Invocation)
    requires Matched(rs) && Alternating(rs.frames)
    requires CanReturn(rs, inv) && !inv.foreign && Clear(rs, inv)
    ensures NullReturns(rs.tasks) == []
    ensures rs.frames != [] && Last(rs.frames) == BackFrame(inv)
  {
    SelectFront((i: Invocation) => !i.foreign, rs.native);
    assert Last(Own(rs.native)) == inv;
    if NullReturns(rs.tasks) != [] {
      assert Front(BackInvocations(rs.frames)) == Own(rs.native);
      SecondInnermost(rs, inv);
    }
    var j := InnermostBack(rs.frames);
    NothingAbove(rs.frames, j);
  }

  /** Above a loop there is a function, or nothing. */
  lemma NothingAbove(frames: seq<Frame>, j: nat)
    requires Alternating(frames) && j < |frames| && frames[j].BackFrame?
    requires forall k :: j < k < |frames| ==> !frames[k].CallFrame?
    ensures j == |frames| - 1
  {
    if j + 1 < |frames| { EvenIsFunction(frames, j + 1); }
  }

  lemma EvenIsFunction(frames: seq<Frame>, k: nat)
    requires Alternating(frames) && k < |frames| && k % 2 == 0
    ensures frames[k].CallFrame?
  {
  }

  /** The innermost two loops have a callout between them. */
  lemma SecondInnermost(rs: RunnerState, inv: Invocation)
    requires Alternating(rs.frames) && |BackInvocations(rs.frames)| >= 2
    requires Last(Front(BackInvocations(rs.frames))) == inv
    ensures !Clear(rs, inv)
  {
    var i, j := InnermostTwo(rs.frames);
    assert rs.frames[j - 1].CallFrame?;
  }

  lemma InnermostTwo(frames: seq<Frame>) returns (i: nat, j: nat)
    requires Alternating(frames) && |BackInvocations(frames)| >= 2
    ensures i + 1 < j < |frames| && frames[j].BackFrame?
    ensures frames[i] == BackFrame(Last(Front(BackInvocations(frames))))
    ensures frames[j - 1].CallFrame?
  {
    j := InnermostBack(frames);
    i := InnermostBack(frames[..j]);
    assert frames[..j][i] == frames[i];
    assert j % 2 == 1 && i % 2 == 1;
  }

  lemma MatchedTake(rs: RunnerState)
    requires Matched(rs) && Idle(rs) && rs.tasks != []
    ensures Matched(Take(rs))
    ensures NullReturn(rs.tasks[0]) ==> rs.frames != [] && Last(rs.frames) == BackFrame(rs.tasks[0].inv)
  {
    if NullReturns(rs.tasks) != [] {
      var inv := NullReturns(rs.tasks)[0];
      var n: nat :| ReturnReady(rs, n, inv);
      if n == 0 { ReturnTaken(rs, inv); } else { ReturnAhead(rs, n, inv); }
    } else if rs.tasks[0].Callout? {
      BackSnoc(rs.frames, CallFrame(rs.tasks[0].call));
      assert BackInvocations(rs.frames) + [] == BackInvocations(rs.frames);
    }
  }

  lemma ReturnTaken(rs: RunnerState, inv: Invocation)
    requires Matched(rs) && Idle(rs) && ReturnReady(rs, 0, inv)
    ensures Matched(Take(rs))
  {
    assert NullReturns(rs.tasks) == [inv] + NullReturns(rs.tasks[1..]);
    assert NullReturns(rs.tasks) == [inv];
    LoopTaken(rs.frames, Own(rs.native), inv);
  }

  lemma LoopTaken(frames: seq<Frame>, own: seq<Invocation>, inv: Invocation)
    requires frames != [] && Last(frames) == BackFrame(inv) && BackInvocations(frames) == own + [inv]
    ensures BackInvocations(Front(frames)) == own + []
  {
    assert BackInvocations(Front(frames)) == Front(own + [inv]);
  }

  lemma ReturnAhead(rs: RunnerState, n: nat, inv: Invocation)
    requires Matched(rs) && Idle(rs) && ReturnReady(rs, n, inv) && n > 0 && NullReturns(rs.tasks) != [] && NullReturns(rs.tasks)[0] == inv
    ensures Matched(Take(rs))
  {
    assert NullReturns(rs.tasks) == [] + NullReturns(rs.tasks[1..]);
    assert ReturnReady(Take(rs), n - 1, inv);
  }

  lemma MatchedEnter(rs: RunnerState, inv: Invocation)
    requires Matched(rs) && (inv.foreign || InFunction(rs))
    ensures Matched(Enter(rs, inv))
  {
    SelectSnoc((i: Invocation) => !i.foreign, rs.native, inv);
    BackSnoc(rs.frames, BackFrame(inv));
    if inv.foreign && NullReturns(rs.tasks) != [] {
      var n: nat :| ReturnReady(rs, n, NullReturns(rs.tasks)[0]);
      assert ReturnReady(Enter(rs, inv), n, NullReturns(rs.tasks)[0]);
    }
  }

  lemma MatchedAppend(rs: RunnerState, t: Task)
    requires Matched(rs) && !NullReturn(t)
    ensures Matched(rs.(tasks := rs.tasks + [t]))
  {
    NullReturnsSnoc(rs.tasks, t);
    if NullReturns(rs.tasks) != [] {
      var n: nat :| ReturnReady(rs, n, NullReturns(rs.tasks)[0]);
      assert ReturnReady(rs.(tasks := rs.tasks + [t]), n, NullReturns(rs.tasks + [t])[0]);
    }
  }

  lemma MatchedReturn(rs: RunnerState, inv: Invocation)
    requires Matched(rs) && Alternating(rs.frames) && CanReturn(rs, inv)
    requires !inv.foreign ==> Clear(rs, inv)
    ensures Matched(PopNative(rs, inv))
  {
    if inv.foreign { MatchedForeignReturn(rs, inv); } else { MatchedOwnReturn(rs, inv); }
  }

  lemma MatchedForeignReturn(rs: RunnerState, inv: Invocation)
    requires Matched(rs) && CanReturn(rs, inv) && inv.foreign
    ensures Matched(PopNative(rs, inv))
  {
    MatchedAppend(rs, CallbackReturn(inv));
    SelectFront((i: Invocation) => !i.foreign, rs.native);
    var between, t := rs.(tasks := rs.tasks + [CallbackReturn(inv)]), PopNative(rs, inv);
    assert Own(t.native) + [] == Own(t.native);
    if NullReturns(t.tasks) != [] {
      var n: nat :| ReturnReady(between, n, NullReturns(t.tasks)[0]);
      assert ReturnReady(t, n, NullReturns(t.tasks)[0]);
    }
  }

  lemma MatchedOwnReturn(rs: RunnerState, inv: Invocation)
    requires Matched(rs) && Alternating(rs.frames) && CanReturn(rs, inv) && !inv.foreign && Clear(rs, inv)
    ensures Matched(PopNative(rs, inv))
  {
    var t := PopNative(rs, inv);
    ClearIsInnermost(rs, inv);
    NullReturnsSnoc(rs.tasks, CallbackReturn(inv));
    SelectFront((i: Invocation) => !i.foreign, rs.native);
    NoNullReturns(rs.tasks);
    assert ReturnReady(t, |rs.tasks|, inv);
    assert [] + [inv] == [inv] && (Own(t.native) + [inv]) + [] == Own(t.native) + [inv];
  }

  lemma MatchedCalloutEnds(rs: RunnerState)
    requires Matched(rs) && InFunction(rs)
    ensures Matched(rs.(frames := Front(rs.frames)))
  {
  }

  lemma MatchedAway(rs: RunnerState, inv: Invocation)
    requires Matched(rs) && InFunction(rs)
    ensures Matched(rs.(frames := rs.frames + [WaitFrame(inv)]))
  {
    BackSnoc(rs.frames, WaitFrame(inv));
  }

  lemma MatchedBack(rs: RunnerState)
    requires Matched(rs) && Away(rs)
    ensures Matched(rs.(frames := Front(rs.frames)))
  {
    assert BackInvocations(Front(rs.frames)) + [] == BackInvocations(Front(rs.frames));
  }

  lemma MatchedTryReturn(rs: RunnerState, k: nat)
    requires Matched(rs) && Alternating(rs.frames) && k < |rs.image|
    requires ReturnSucceeds(rs, k) && !rs.image[k].inv.foreign ==> Clear(rs, rs.image[k].inv)
    ensures Matched(TryReturnAt(rs, k))
  {
    if ReturnSucceeds(rs, k) {
      MatchedReturn(rs, rs.image[k].inv);
    }
    SameNative(if ReturnSucceeds(rs, k) then PopNative(rs, rs.image[k].inv) else rs, TryReturnAt(rs, k));
  }

  /** The image stack plays no part in the matching. */
  lemma SameNative(rs: RunnerState, t: RunnerState)
    requires Matched(rs) && t.frames == rs.frames && t.native == rs.native && t.tasks == rs.tasks
    ensures Matched(t)
  {
    if NullReturns(rs.tasks) != [] {
      var n: nat :| ReturnReady(rs, n, NullReturns(rs.tasks)[0]);
      assert ReturnReady(t, n, NullReturns(t.tasks)[0]);
    }
  }

  lemma MatchedStep(s: State, a: Step, r: nat)
    requires Enabled(s, a) && r < |s.runners|
    requires Matched(s.runners[r]) && Balanced(s.runners[r]) && ClearStep(s, a, r)
    ensures Matched(Next(s, a).runners[r])
  {
    if !Touches(s, a, r) {
      Untouched(s, a, r);
      return;
    }
    var rs, t := s.runners[r], Next(s, a).runners[r];
    if a.Dispatch? {
      MatchedAppend(rs, Callout(Call(s.nextCall, r, a.p)));
    } else if a.TakeTask? {
      MatchedTake(rs);
    } else if a.CalloutEnds? {
      MatchedCalloutEnds(rs);
    } else if a.CrossCallback? {
      CrossEffect(s, a.q, a.r);
      if a.q == r { MatchedAway(rs, Invocation(s.nextId, a.r, true)); } else { MatchedEnter(rs, Invocation(s.nextId, r, true)); }
    } else if a.CrossResumes? {
      MatchedBack(rs);
    } else if Enters(a, r) {
      MatchedEnter(rs, Invocation(s.nextId, r, a.ForeignCallback?));
    } else if a.TryReturn? {
      MatchedTryReturn(rs, a.k);
    } else {
      SameNative(rs, t);
    }
  }

  lemma {:induction false} MatchedRun(s: State, run: seq<Step>, r: nat)
    requires Valid(s, run) && r < |s.runners| && ClearRun(s, run, r)
    requires Matched(s.runners[r]) && Balanced(s.runners[r])
    ensures r < |Exec(s, run).runners| && Matched(Exec(s, run).runners[r]) && Balanced(Exec(s, run).runners[r])
    decreases |run|
  {
    if run != [] {
      MatchedStep(s, run[0], r);
      BalancedStep(s, run[0], r);
      MatchedRun(Next(s, run[0]), run[1..], r);
    }
  }

  /** The state was reached by a run that is clear for runner `r`. */
  ghost predicate ClearlyReached(s: State, r: nat) {
    exists n: nat, run: seq<Step> :: Reaches(Init(n), run, s) && ClearRun(Init(n), run, r)
  }

  lemma ClearlyReachedMatched(s: State, r: nat)
    requires ClearlyReached(s, r) && r < |s.runners|
    ensures Matched(s.runners[r]) && Balanced(s.runners[r])
  {
    var n: nat, run: seq<Step> :| Reaches(Init(n), run, s) && ClearRun(Init(n), run, r);
    RunnersStay(Init(n), run);
    MatchedRun(Init(n), run, r);
  }

  /** Frame matching: in a clear run every return of the own thread ends the loop of the very
      invocation it was created for. */
  lemma ReturnEndsItsLoop(s: State, r: nat)
    requires r < |s.runners| && ClearlyReached(s, r)
    requires Enabled(s, TakeTask(r)) && NullReturn(s.runners[r].tasks[0])
    ensures var t := Next(s, TakeTask(r)).runners[r];
      s.runners[r].frames == t.frames + [BackFrame(s.runners[r].tasks[0].inv)]
  {
    ClearlyReachedMatched(s, r);
    MatchedTake(s.runners[r]);
  }
}
