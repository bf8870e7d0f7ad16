/** Which of the invocations and callouts alive are older than which.

    A callback stack is sorted by age, a loop is never newer than the invocation at the same place of the
    stack, and a callout was issued by a callback older than all loops above its frame. And whoever waits
    for a callout waits for one that is queued, running or over. */
module Ages {
  import opened Prelude
  import opened Protocol
  import opened Frames
  import opened StackAgreement

  // ---- the newest invocation of each runner ----

  ghost predicate Sorted(q: seq<Invocation>) {
    forall j, k :: 0 <= j < k < |q| ==> q[j].id < q[k].id
  }

  /** Each loop is at most as new as the invocation at the same place of the callback stack: a return can
      end the loop of another invocation, but only of a newer one. */
  ghost predicate LoopsOlder(loops: seq<Invocation>, own: seq<Invocation>) {
    |own| <= |loops| && forall k :: 0 <= k < |own| ==> loops[k].id <= own[k].id
  }

  ghost predicate Known(q: seq<Invocation>, nextId: nat) {
    forall k :: 0 <= k < |q| ==> q[k].id < nextId
  }

  /** If `f` is a callout of a callback and `g` a loop, the callback is older than the loop. */
  predicate Older(f: Frame, g: Frame) {
    f.CallFrame? && f.call.caller.OfCallback? && g.BackFrame? ==> f.call.caller.inv.id < g.inv.id
  }

  /** A callout was issued by an invocation that is older than all loops above its frame. */
  ghost predicate CallersOlder(rs: RunnerState, nextId: nat) {
    && (forall k :: 0 <= k < |rs.tasks| && rs.tasks[k].Callout? && rs.tasks[k].call.caller.OfCallback? ==>
          rs.tasks[k].call.caller.inv.id < nextId)
    && (forall k :: 0 <= k < |rs.frames| && rs.frames[k].CallFrame? && rs.frames[k].call.caller.OfCallback? ==>
          rs.frames[k].call.caller.inv.id < nextId)
    && (forall j, k :: 0 <= j < k < |rs.frames| ==> Older(rs.frames[j], rs.frames[k]))
  }

  ghost predicate Aged(rs: RunnerState, nextId: nat) {
    && Sorted(rs.native) && Known(rs.native, nextId) && Known(BackInvocations(rs.frames), nextId)
    && LoopsOlder(BackInvocations(rs.frames), Own(rs.native)) && CallersOlder(rs, nextId)
  }

  /** A callout that somebody waits for is over, queued or running. */
  ghost predicate Located(s: State, c: Call) {
    || c in s.result
    || (c.runner < |s.runners| && (Callout(c) in s.runners[c.runner].tasks || CallFrame(c) in s.runners[c.runner].frames))
  }

  ghost predicate Waits(s: State) {
    && (forall p :: p in s.awaiting ==> s.awaiting[p].caller == p && Located(s, s.awaiting[p]))
    && (forall p :: p in s.awaiting && p.OfCallback? ==> p.inv.id < s.nextId)
  }

  // ---- every step keeps this ----

  lemma LoopsPushed(loops: seq<Invocation>, own: seq<Invocation>, inv: Invocation)
    requires LoopsOlder(loops, own) && Known(loops, inv.id)
    ensures LoopsOlder(loops + [inv], own + [inv])
  {
  }

  lemma CallersEnter(rs: RunnerState, inv: Invocation)
    requires CallersOlder(rs, inv.id)
    ensures CallersOlder(Enter(rs, inv), inv.id + 1)
  {
  }

  lemma SortedPushed(native: seq<Invocation>, inv: Invocation)
    requires Sorted(native) && Known(native, inv.id)
    ensures Sorted(native + [inv]) && Known(native + [inv], inv.id + 1)
  {
  }

  lemma KnownPushed(loops: seq<Invocation>, inv: Invocation)
    requires Known(loops, inv.id)
    ensures Known(loops, inv.id + 1) && Known(loops + [inv], inv.id + 1)
  {
  }

  lemma AgedEnter(rs: RunnerState, inv: Invocation)
    requires Aged(rs, inv.id)
    ensures Aged(Enter(rs, inv), inv.id + 1)
  {
    var t := Enter(rs, inv);
    assert t.native == rs.native + [inv];
    SortedPushed(rs.native, inv);
    KnownPushed(BackInvocations(rs.frames), inv);
    CallersEnter(rs, inv);
    LoopsEnter(rs, inv);
  }

  lemma LoopsEnter(rs: RunnerState, inv: Invocation)
    requires LoopsOlder(BackInvocations(rs.frames), Own(rs.native)) && Known(BackInvocations(rs.frames), inv.id)
    ensures LoopsOlder(BackInvocations(Enter(rs, inv).frames), Own(Enter(rs, inv).native))
    ensures BackInvocations(Enter(rs, inv).frames) == BackInvocations(rs.frames) + if inv.foreign then [] else [inv]
  {
    var loops, own := BackInvocations(rs.frames), Own(rs.native);
    OwnSnoc(rs.native, inv);
    assert own + [] == own && loops + [] == loops;
    BackSnoc(rs.frames, BackFrame(inv));
    LoopsPushed(loops, own, inv);
  }

  lemma CallersTake(rs: RunnerState, nextId: nat)
    requires CallersOlder(rs, nextId) && Idle(rs) && rs.tasks != []
    ensures CallersOlder(Take(rs), nextId)
  {
  }

  lemma AgedTake(rs: RunnerState, nextId: nat)
    requires Aged(rs, nextId) && Balanced(rs) && Idle(rs) && rs.tasks != []
    ensures Aged(Take(rs), nextId)
  {
    CallersTake(rs, nextId);
    var t := Take(rs);
    var loops := BackInvocations(rs.frames);
    if rs.tasks[0].Callout? {
      BackSnoc(rs.frames, CallFrame(rs.tasks[0].call));
      assert loops + [] == loops;
    } else if !rs.tasks[0].inv.foreign && rs.frames != [] {
      LoopsPopped(rs);
    }
  }

  lemma LoopsPopped(rs: RunnerState)
    requires Balanced(rs) && rs.tasks != [] && NullReturn(rs.tasks[0]) && rs.frames != [] && Last(rs.frames).BackFrame?
    ensures BackInvocations(Front(rs.frames)) == Front(BackInvocations(rs.frames))
    ensures |BackInvocations(Front(rs.frames))| >= |Own(rs.native)|
  {
  }

  lemma AgedReturn(rs: RunnerState, inv: Invocation, nextId: nat)
    requires Aged(rs, nextId) && CanReturn(rs, inv)
    ensures Aged(PopNative(rs, inv), nextId)
  {
    var t := PopNative(rs, inv);
    SortedPopped(rs.native, nextId);
    LoopsKept(BackInvocations(rs.frames), rs.native);
    CallersReturned(rs, inv, nextId);
    assert t.native == Front(rs.native) && t.frames == rs.frames;
  }

  lemma SortedPopped(native: seq<Invocation>, nextId: nat)
    requires native != [] && Sorted(native) && Known(native, nextId)
    ensures Sorted(Front(native)) && Known(Front(native), nextId)
  {
  }

  lemma LoopsKept(loops: seq<Invocation>, native: seq<Invocation>)
    requires native != [] && LoopsOlder(loops, Own(native))
    ensures LoopsOlder(loops, Own(Front(native)))
  {
    SelectFront((i: Invocation) => !i.foreign, native);
  }

  lemma CallersReturned(rs: RunnerState, inv: Invocation, nextId: nat)
    requires CallersOlder(rs, nextId) && CanReturn(rs, inv)
    ensures CallersOlder(PopNative(rs, inv), nextId)
  {
  }

  lemma AgedSame(rs: RunnerState, t: RunnerState, nextId: nat)
    requires Aged(rs, nextId) && t.native == rs.native && t.frames == rs.frames && t.tasks == rs.tasks
    ensures Aged(t, nextId)
  {
  }

  lemma AgedTryReturn(rs: RunnerState, k: nat, nextId: nat)
    requires Aged(rs, nextId) && k < |rs.image|
    ensures Aged(TryReturnAt(rs, k), nextId)
  {
    if ReturnSucceeds(rs, k) {
      AgedReturn(rs, rs.image[k].inv, nextId);
      AgedSame(PopNative(rs, rs.image[k].inv), TryReturnAt(rs, k), nextId);
    }
  }

  lemma AgedLater(rs: RunnerState, nextId: nat, later: nat)
    requires Aged(rs, nextId) && nextId <= later
    ensures Aged(rs, later)
  {
  }

  lemma AgedDispatch(rs: RunnerState, c: Call, nextId: nat)
    requires Aged(rs, nextId) && (c.caller.OfCallback? ==> c.caller.inv.id < nextId)
    ensures Aged(rs.(tasks := rs.tasks + [Callout(c)]), nextId)
  {
  }

  /** The innermost frame, not a loop, is gone. */
  lemma AgedFrameGone(rs: RunnerState, nextId: nat)
    requires Aged(rs, nextId) && rs.frames != [] && !Last(rs.frames).BackFrame?
    ensures Aged(rs.(frames := Front(rs.frames)), nextId)
  {
    SameLoops(rs.frames);
  }

  lemma AgedAway(rs: RunnerState, inv: Invocation, nextId: nat)
    requires Aged(rs, nextId)
    ensures Aged(rs.(frames := rs.frames + [WaitFrame(inv)]), nextId)
  {
    BackSnoc(rs.frames, WaitFrame(inv));
    assert BackInvocations(rs.frames) + [] == BackInvocations(rs.frames);
    CallersAway(rs, inv, nextId);
  }

  lemma CallersAway(rs: RunnerState, inv: Invocation, nextId: nat)
    requires CallersOlder(rs, nextId)
    ensures CallersOlder(rs.(frames := rs.frames + [WaitFrame(inv)]), nextId)
  {
  }

  lemma SameLoops(frames: seq<Frame>)
    requires frames != [] && !Last(frames).BackFrame?
    ensures BackInvocations(Front(frames)) == BackInvocations(frames)
  {
    assert BackInvocations(Front(frames)) + [] == BackInvocations(Front(frames));
  }

  /** The process that calls is not of an invocation to come. */
  ghost predicate CallerKnown(s: State, a: Step) {
    a.Dispatch? && a.p.OfCallback? ==> a.p.inv.id < s.nextId
  }

  lemma RunningIsKnown(s: State, a: Step)
    requires Inv(s) && Enabled(s, a)
    ensures CallerKnown(s, a)
  {
    if a.Dispatch? && a.p.OfCallback? {
      var image := s.runners[a.p.inv.runner].image;
      var k :| 0 <= k < |image| && image[k] == Live(a.p.inv, Executing);
      assert RunnerInv(s, a.p.inv.runner);
      SettledIsNative(s, a.p.inv.runner, k);
    }
  }

  lemma AgedStep(s: State, a: Step, r: nat)
    requires Enabled(s, a) && r < |s.runners| && CallerKnown(s, a)
    requires Aged(s.runners[r], s.nextId) && Balanced(s.runners[r])
    ensures Aged(Next(s, a).runners[r], Next(s, a).nextId)
  {
    if Enters(a, r) {
      EnterEffect(s, a, r);
      AgedEnter(s.runners[r], Invocation(s.nextId, r, !a.OwnCallback?));
    } else if a.CrossCallback? {
      AgedCross(s, a, r);
    } else {
      AgedOther(s, a, r);
      IdsGrow(s, a, r);
      AgedLater(Next(s, a).runners[r], s.nextId, Next(s, a).nextId);
    }
  }

  lemma AgedCross(s: State, a: Step, r: nat)
    requires Enabled(s, a) && r < |s.runners| && a.CrossCallback? && a.r != r && Aged(s.runners[r], s.nextId)
    ensures Aged(Next(s, a).runners[r], Next(s, a).nextId)
  {
    CrossEffect(s, a.q, a.r);
    if a.q == r {
      AgedAway(s.runners[r], Invocation(s.nextId, a.r, true), s.nextId);
    } else {
      Untouched(s, a, r);
    }
    AgedLater(Next(s, a).runners[r], s.nextId, s.nextId + 1);
  }

  lemma AgedOther(s: State, a: Step, r: nat)
    requires Enabled(s, a) && r < |s.runners| && CallerKnown(s, a) && !Enters(a, r) && !a.CrossCallback?
    requires Aged(s.runners[r], s.nextId) && Balanced(s.runners[r])
    ensures Aged(Next(s, a).runners[r], s.nextId)
  {
    var rs, t := s.runners[r], Next(s, a).runners[r];
    if !Touches(s, a, r) {
      Untouched(s, a, r);
    } else if a.Dispatch? {
      AgedDispatch(rs, Call(s.nextCall, r, a.p), s.nextId);
    } else if a.TakeTask? {
      AgedTake(rs, s.nextId);
    } else if a.CalloutEnds? || a.CrossResumes? {
      AgedFrameGone(rs, s.nextId);
    } else if a.TryReturn? {
      AgedTryReturn(rs, a.k, s.nextId);
    } else {
      AgedSame(rs, t, s.nextId);
    }
  }

  lemma LocatedStep(s: State, a: Step, c: Call)
    requires Enabled(s, a) && Located(s, c)
    ensures Located(Next(s, a), c)
  {
    if c !in s.result {
      IdsGrow(s, a, c.runner);
      if a == TakeTask(c.runner) {
        LocatedTake(s.runners[c.runner], c);
      } else if CallFrame(c) in s.runners[c.runner].frames {
        LocatedFrame(s, a, c);
      } else {
        LocatedTask(s, a, c);
      }
    }
  }

  lemma LocatedFrame(s: State, a: Step, c: Call)
    requires Enabled(s, a) && c.runner < |s.runners| && a != TakeTask(c.runner) && CallFrame(c) in s.runners[c.runner].frames
    ensures CallFrame(c) in Next(s, a).runners[c.runner].frames || c in Next(s, a).result
  {
    var frames := s.runners[c.runner].frames;
    FramesEffect(s, a, c.runner);
    assert frames == Front(frames) + [Last(frames)];
  }

  lemma LocatedTask(s: State, a: Step, c: Call)
    requires Enabled(s, a) && c.runner < |s.runners| && a != TakeTask(c.runner) && Callout(c) in s.runners[c.runner].tasks
    ensures Callout(c) in Next(s, a).runners[c.runner].tasks
  {
    TasksEffect(s, a, c.runner);
  }

  lemma LocatedTake(rs: RunnerState, c: Call)
    requires Idle(rs) && rs.tasks != [] && (Callout(c) in rs.tasks || CallFrame(c) in rs.frames)
    ensures Callout(c) in Take(rs).tasks || CallFrame(c) in Take(rs).frames
  {
    assert rs.tasks == [rs.tasks[0]] + rs.tasks[1..];
    assert rs.frames != [] ==> rs.frames == Front(rs.frames) + [Last(rs.frames)];
  }

  /** Only a dispatch makes a process wait. */
  lemma AwaitingStep(s: State, a: Step, p: Process)
    requires Enabled(s, a) && p in Next(s, a).awaiting
    ensures (p in s.awaiting && Next(s, a).awaiting[p] == s.awaiting[p])
      || (a.Dispatch? && a.p == p && Next(s, a).awaiting[p] == Call(s.nextCall, a.r, p))
  {
  }

  lemma WaitsStep(s: State, a: Step)
    requires Waits(s) && Enabled(s, a) && CallerKnown(s, a)
    ensures Waits(Next(s, a))
  {
    var t := Next(s, a);
    forall p | p in t.awaiting ensures t.awaiting[p].caller == p && Located(t, t.awaiting[p]) {
      AwaitingStep(s, a, p);
      if p in s.awaiting && t.awaiting[p] == s.awaiting[p] {
        LocatedStep(s, a, s.awaiting[p]);
      } else {
        var tasks := t.runners[a.r].tasks;
        assert tasks[|tasks| - 1] == Callout(t.awaiting[p]);
      }
    }
  }

  ghost predicate AgesHold(s: State) {
    Inv(s) && Waits(s) && forall r :: 0 <= r < |s.runners| ==> Aged(s.runners[r], s.nextId) && Balanced(s.runners[r])
  }

  lemma AgesHoldStep(s: State, a: Step)
    requires AgesHold(s) && Enabled(s, a)
    ensures AgesHold(Next(s, a))
  {
    InvStep(s, a);
    RunningIsKnown(s, a);
    WaitsStep(s, a);
    forall r | 0 <= r < |s.runners| ensures Aged(Next(s, a).runners[r], Next(s, a).nextId) && Balanced(Next(s, a).runners[r]) {
      AgedStep(s, a, r);
      BalancedStep(s, a, r);
    }
  }

  lemma {:induction false} AgesHoldRun(s: State, run: seq<Step>)
    requires AgesHold(s) && Valid(s, run)
    ensures AgesHold(Exec(s, run))
    decreases |run|
  {
    if run != [] {
      AgesHoldStep(s, run[0]);
      AgesHoldRun(Next(s, run[0]), run[1..]);
    }
  }

  lemma ReachableAgesHold(s: State)
    requires Reachable(s)
    ensures AgesHold(s)
  {
    var n: nat, run: seq<Step> :| Reaches(Init(n), run, s);
    AgesHoldInit(n);
    AgesHoldRun(Init(n), run);
  }

  lemma AgesHoldInit(n: nat)
    ensures AgesHold(Init(n))
  {
    forall r | 0 <= r < n ensures Aged(Init(n).runners[r], 0) && Balanced(Init(n).runners[r]) {
      assert Init(n).runners[r] == NEW_RUNNER;
    }
  }
}
