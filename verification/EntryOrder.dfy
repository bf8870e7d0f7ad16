/** When the drain of ReturnDrain can stall.

    `callbackFrontend` pushes an invocation on the runner's stack and queues it for the image without
    holding anything in between. Two entries of one runner that cross there reach the image in the
    order opposite to the native stack, and then the newest callback of the image waits for ever. That
    can happen exactly when two invocations of the runner are between push and enqueueing. */
module EntryOrder {
  import opened Prelude
  import opened Protocol
  import opened StackAgreement
  import opened ReturnDrain

  /** The newest callback of runner `r` waits, and nothing is coming that could wake it. */
  ghost predicate Stalled(s: State, r: nat) {
    && r < |s.runners| && s.runners[r].image != []
    && Last(s.runners[r].image).phase == Waiting && Coming(s, r) == []
  }

  /** No continuation without new entries stalls the runner. */
  ghost predicate NeverStalls(s: State, r: nat) {
    forall run :: Valid(s, run) && EntryFree(run) ==> !Stalled(Exec(s, run), r)
  }

  // ---- a stall is for ever ----

  lemma StalledComing(s: State, a: Step, r: nat)
    requires Homed(s) && Stalled(s, r) && Enabled(s, a) && !Entry(a)
    ensures Coming(Next(s, a), r) == [] && !Pushes(s, a, r)
  {
    if a.PushImage? { StalledGetsNothing(s, r); }
    NothingEnters(s, a, r);
    ComingOtherStep(s, a, r);
  }

  lemma NothingEnters(s: State, a: Step, r: nat)
    requires Enabled(s, a) && !Entry(a) && r < |s.runners| && Coming(s, r) == []
    ensures s.runners[r].entering == [] && Coming(s, r) + Arrival(s, a, r) == [] && !(a.Enqueue? && a.r == r)
  {
    assert |Coming(s, r)| == |Backlog(s, r)| + |s.runners[r].entering|;
  }

  lemma StalledGetsNothing(s: State, r: nat)
    requires Homed(s) && Stalled(s, r) && Enabled(s, PushImage)
    ensures s.inFlight.value.runner != r
  {
    if s.inFlight.value.runner == r { ComingPushStep(s, r); }
  }

  lemma StalledStep(s: State, a: Step, r: nat)
    requires Homed(s) && Stalled(s, r) && Enabled(s, a) && !Entry(a)
    ensures Stalled(Next(s, a), r) && Next(s, a).runners[r].native == s.runners[r].native
  {
    StalledComing(s, a, r);
    StalledTop(s, a, r);
  }

  lemma StalledTop(s: State, a: Step, r: nat)
    requires Stalled(s, r) && Enabled(s, a) && !Entry(a) && !Pushes(s, a, r)
    ensures
      var rs, t := s.runners[r], Next(s, a).runners[r];
      t.native == rs.native && t.image != [] && Last(t.image) == Last(rs.image)
  {
    if a.TryReturn? && a.r == r {
      StalledTryReturn(s.runners[r], a.k);
    } else if a.BlockEnds? && a.r == r {
      StalledBlockEnds(s.runners[r].image, a.k);
    } else {
      assert !Enabled(s, FinishReturn(r));
      SameImage(s, a, r);
      assert s.runners[r].native + [] == s.runners[r].native;
    }
  }

  lemma StalledBlockEnds(image: seq<Live>, k: nat)
    requires k < |image| && image[k].phase == Executing && Last(image).phase == Waiting
    ensures Last(WithPhase(image, k, Awake)) == Last(image)
  {
  }

  lemma StalledTryReturn(rs: RunnerState, k: nat)
    requires k < |rs.image| && rs.image[k].phase == Awake && Last(rs.image).phase == Waiting
    ensures var t := TryReturnAt(rs, k); t.native == rs.native && t.image != [] && Last(t.image) == Last(rs.image)
  {
  }

  /** Once stalled, the callbacks of the runner are never returned, whatever happens without entries. */
  lemma {:induction false} StalledForEver(s: State, run: seq<Step>, r: nat)
    requires Homed(s) && Stalled(s, r) && Valid(s, run) && EntryFree(run)
    ensures Stalled(Exec(s, run), r) && Exec(s, run).runners[r].native == s.runners[r].native
    decreases |run|
  {
    if run != [] {
      HomedStep(s, run[0]);
      StalledStep(s, run[0], r);
      StalledForEver(Next(s, run[0]), run[1..], r);
    }
  }

  // ---- at most one entry: no stall ----

  lemma {:induction false} FewEntriesStayFew(s: State, run: seq<Step>, r: nat)
    requires Valid(s, run) && EntryFree(run) && r < |s.runners| && |s.runners[r].entering| <= 1
    ensures OneAtATime(s, run, r)
    decreases |run|
  {
    if run != [] {
      EnteringStep(s, run[0], r);
      FewEntriesStayFew(Next(s, run[0]), run[1..], r);
    }
  }

  lemma FewEntriesNeverStall(s: State, r: nat)
    requires Inv(s) && r < |s.runners| && Ordered(s, r) && |s.runners[r].entering| <= 1
    ensures NeverStalls(s, r)
  {
    forall run | Valid(s, run) && EntryFree(run) ensures !Stalled(Exec(s, run), r) {
      FewEntriesStayFew(s, run, r);
      OneAtATimeIsOrderly(s, run, r);
      OrderedRun(s, run, r);
    }
  }

  // ---- two entries: a stall ----

  /** A process that waits for a callout is running its block, if it is the process of a callback. */
  ghost predicate WaitersRun(s: State) {
    forall p :: p in s.awaiting && p.OfCallback? ==> Runs(s, p.inv)
  }

  lemma WaitersRunStep(s: State, a: Step)
    requires WaitersRun(s) && Enabled(s, a)
    ensures WaitersRun(Next(s, a))
  {
    var t := Next(s, a);
    forall p | p in t.awaiting && p.OfCallback? ensures Runs(t, p.inv) {
      var i := p.inv;
      assert Runs(s, i);
      StaysRunning(s, a, i);
    }
  }

  lemma {:induction false} WaitersRunRun(s: State, run: seq<Step>)
    requires WaitersRun(s) && Valid(s, run)
    ensures WaitersRun(Exec(s, run))
    decreases |run|
  {
    if run != [] {
      WaitersRunStep(s, run[0]);
      WaitersRunRun(Next(s, run[0]), run[1..]);
    }
  }

  lemma ReachableWaitersRun(s: State)
    requires Reachable(s)
    ensures WaitersRun(s)
  {
    var n: nat, run: seq<Step> :| Reaches(Init(n), run, s);
    WaitersRunRun(Init(n), run);
  }

  /** The image takes what is queued, for the runner `r` that we look at. */
  ghost predicate Drains(s: State, t: State, r: nat)
    requires r < |s.runners|
  {
    && |t.runners| == |s.runners| && t.awaiting == s.awaiting
    && t.runners[r].native == s.runners[r].native && t.runners[r].entering == s.runners[r].entering
    && (Backlog(s, r) == [] ==> t.runners[r] == s.runners[r] && Backlog(t, r) == [])
    && (Backlog(s, r) != [] && Backlog(t, r) != [] ==> Last(Backlog(t, r)) == Last(Backlog(s, r)))
    && (Backlog(s, r) != [] && Backlog(t, r) == [] ==>
          t.runners[r].image != [] && Last(t.runners[r].image) == Live(Last(Backlog(s, r)), Executing))
  }

  /** Whether the callback process has to wait for the critical section. */
  predicate Blocked(s: State) {
    s.inFlight.Some? && s.inFlight.value.runner < |s.runners| && CanFinish(s.runners[s.inFlight.value.runner])
  }

  lemma DrainStep(s: State, r: nat) returns (a: Step)
    requires Inv(s) && r < |s.runners| && (s.inFlight.Some? || s.pending != [])
    ensures Enabled(s, a) && !Entry(a) && Drains(s, Next(s, a), r)
    ensures var t := Next(s, a);
      || (|t.pending| < |s.pending| && t.inFlight.Some?)
      || (t.pending == s.pending && s.inFlight.Some? && t.inFlight == None)
      || (t.pending == s.pending && s.inFlight == t.inFlight && Blocked(s) && !Blocked(t))
  {
    if s.inFlight == None {
      a := ReadPending;
      DrainRead(s, r);
    } else {
      var q := s.inFlight.value.runner;
      assert s.inFlight.value in InFlight(s) + s.pending;
      assert RunnerInv(s, q);
      if Blocked(s) {
        a := FinishReturn(q);
        DrainFinish(s, r);
      } else {
        a := PushImage;
        DrainPush(s, r);
      }
    }
  }

  lemma DrainRead(s: State, r: nat)
    requires r < |s.runners| && Enabled(s, ReadPending)
    ensures Drains(s, Next(s, ReadPending), r)
  {
    BacklogStep(s, ReadPending, r);
  }

  lemma DrainFinish(s: State, r: nat)
    requires r < |s.runners| && Blocked(s) && OnlyTopReturning(s.runners[s.inFlight.value.runner].image)
    ensures var a := FinishReturn(s.inFlight.value.runner); Enabled(s, a) && Drains(s, Next(s, a), r)
    ensures !Blocked(Next(s, FinishReturn(s.inFlight.value.runner)))
  {
    var q := s.inFlight.value.runner;
    BacklogStep(s, FinishReturn(q), r);
    BacklogStepFirst(s);
  }

  lemma DrainPush(s: State, r: nat)
    requires r < |s.runners| && Enabled(s, PushImage)
    ensures Drains(s, Next(s, PushImage), r)
  {
    BacklogStep(s, PushImage, r);
  }

  lemma BacklogStepFirst(s: State)
    requires s.inFlight.Some?
    ensures Backlog(s, s.inFlight.value.runner) != []
  {
    BacklogFirst(s.inFlight.value, s.pending, s.inFlight.value.runner);
  }

  lemma DrainsOn(s: State, t: State, u: State, r: nat)
    requires r < |s.runners| && Drains(s, t, r) && Drains(t, u, r)
    ensures Drains(s, u, r)
  {
  }

  lemma {:induction false} DrainQueue(s: State, r: nat) returns (run: seq<Step>)
    requires Inv(s) && r < |s.runners|
    ensures Valid(s, run) && EntryFree(run) && Drains(s, Exec(s, run), r)
    ensures Exec(s, run).pending == [] && Exec(s, run).inFlight == None && Inv(Exec(s, run))
    decreases |s.pending|, s.inFlight.Some?, Blocked(s)
  {
    if s.inFlight == None && s.pending == [] {
      run := [];
    } else {
      var a := DrainStep(s, r);
      InvStep(s, a);
      var rest := DrainQueue(Next(s, a), r);
      run := [a] + rest;
      ExecCons(s, a, rest);
      DrainsOn(s, Next(s, a), Exec(s, run), r);
    }
  }

  /** `t` is `s` after queueing everything that enters runner `r`, what was pushed first coming first. */
  ghost predicate QueuedAll(s: State, t: State, r: nat)
    requires r < |s.runners|
  {
    && |t.runners| == |s.runners| && t.awaiting == s.awaiting && t.inFlight == s.inFlight
    && t.runners[r].entering == [] && t.runners[r].native == s.runners[r].native
    && t.pending == s.pending + s.runners[r].entering
  }

  lemma {:induction false} QueueAll(s: State, r: nat) returns (run: seq<Step>)
    requires r < |s.runners|
    ensures Valid(s, run) && EntryFree(run) && QueuedAll(s, Exec(s, run), r)
    decreases |s.runners[r].entering|
  {
    var rs := s.runners[r];
    if rs.entering == [] {
      run := [];
    } else {
      var t := Next(s, Enqueue(r, 0));
      assert t.runners[r].entering == rs.entering[1..];
      var rest := QueueAll(t, r);
      run := [Enqueue(r, 0)] + rest;
      ExecCons(s, Enqueue(r, 0), rest);
      FirstThenRest(s.pending, rs.entering);
    }
  }

  lemma FirstThenRest(p: seq<Invocation>, e: seq<Invocation>)
    requires e != []
    ensures (p + [e[0]]) + e[1..] == p + e
  {
  }

  /** The newest entry overtakes all others; the image gets the second newest last. */
  lemma Overtake(s: State, r: nat) returns (run: seq<Step>)
    requires Inv(s) && r < |s.runners| && |s.runners[r].entering| >= 2
    ensures Valid(s, run) && EntryFree(run)
    ensures
      var t, second := Exec(s, run), s.runners[r].entering[|s.runners[r].entering| - 2];
      && |t.runners| == |s.runners| && t.awaiting == s.awaiting && Coming(t, r) == []
      && OnlyTopReturning(t.runners[r].image)
      && t.runners[r].native == s.runners[r].native
      && t.runners[r].image != [] && Last(t.runners[r].image) == Live(second, Executing)
  {
    var a := Enqueue(r, |s.runners[r].entering| - 1);
    var s1 := Next(s, a);
    InvStep(s, a);
    NewestQueued(s, r);
    var rest := TakenAll(s1, r);
    run := [a] + rest;
    ExecCons(s, a, rest);
  }

  lemma NewestQueued(s: State, r: nat)
    requires r < |s.runners| && |s.runners[r].entering| >= 2
    ensures
      var e, t := s.runners[r].entering, Next(s, Enqueue(r, |s.runners[r].entering| - 1));
      && t.runners[r].entering == Front(e) && Last(Front(e)) == e[|e| - 2]
      && t.runners[r].native == s.runners[r].native && t.awaiting == s.awaiting
  {
    var e := s.runners[r].entering;
    assert Without(e, |e| - 1) == Front(e);
  }

  /** The image takes everything, what was pushed last coming last. */
  lemma TakenAll(s: State, r: nat) returns (run: seq<Step>)
    requires Inv(s) && r < |s.runners| && s.runners[r].entering != []
    ensures Valid(s, run) && EntryFree(run)
    ensures
      var t := Exec(s, run);
      && |t.runners| == |s.runners| && t.awaiting == s.awaiting && Coming(t, r) == []
      && OnlyTopReturning(t.runners[r].image)
      && t.runners[r].native == s.runners[r].native
      && t.runners[r].image != [] && Last(t.runners[r].image) == Live(Last(s.runners[r].entering), Executing)
  {
    var queue := QueueAll(s, r);
    var s2 := Exec(s, queue);
    InvRun(s, queue);
    var drain := DrainQueue(s2, r);
    ExecConcat(s, queue, drain);
    run := queue + drain;
    LastHomed(s, r);
    LastQueued(s2, r, Last(s.runners[r].entering));
    assert RunnerInv(Exec(s, run), r);
  }

  lemma LastHomed(s: State, r: nat)
    requires Homed(s) && r < |s.runners| && s.runners[r].entering != []
    ensures Last(s.runners[r].entering).runner == r
  {
  }

  lemma LastQueued(s: State, r: nat, i: Invocation)
    requires s.pending != [] && Last(s.pending) == i && i.runner == r
    ensures Backlog(s, r) != [] && Last(Backlog(s, r)) == i
  {
    BacklogSnoc(InFlight(s), Front(s.pending), i, r);
    assert s.pending == Front(s.pending) + [i];
  }

  /** The block of the image top ends, but the native top is another invocation. */
  lemma RefusedTop(s: State, r: nat) returns (run: seq<Step>)
    requires r < |s.runners| && Coming(s, r) == [] && s.runners[r].image != [] && OnlyTopReturning(s.runners[r].image)
    requires
      var top := Last(s.runners[r].image);
      top.phase == Executing && OfCallback(top.inv) !in s.awaiting && !CanReturn(s.runners[r], top.inv)
    ensures Valid(s, run) && EntryFree(run) && Stalled(Exec(s, run), r)
  {
    var k := |s.runners[r].image| - 1;
    var ends, tries := BlockEnds(r, k, Void), TryReturn(r, k);
    TopEnds(s, r, k);
    var t := Next(s, ends);
    RefusedWaits(t, r, k);
    run := TwoSteps(s, ends, tries);
  }

  lemma TwoSteps(s: State, a: Step, b: Step) returns (run: seq<Step>)
    requires Enabled(s, a) && Enabled(Next(s, a), b) && !Entry(a) && !Entry(b)
    ensures Valid(s, run) && EntryFree(run) && Exec(s, run) == Next(Next(s, a), b)
  {
    ExecTwo(s, a, b);
    run := [a, b];
  }

  lemma ExecTwo(s: State, a: Step, b: Step)
    requires Enabled(s, a) && Enabled(Next(s, a), b)
    ensures Valid(s, [a, b]) && Exec(s, [a, b]) == Next(Next(s, a), b)
  {
    ExecOne(Next(s, a), b);
    ExecCons(s, a, [b]);
    assert [a] + [b] == [a, b];
  }

  lemma ExecOne(s: State, a: Step)
    requires Enabled(s, a)
    ensures Valid(s, [a]) && Exec(s, [a]) == Next(s, a)
  {
    var run := [a];
    assert run[1..] == [];
    assert Valid(Next(s, a), run[1..]) && Exec(Next(s, a), run[1..]) == Next(s, a);
  }

  /** The process of the image top is about to be refused, with nothing coming. */
  ghost predicate Refusable(s: State, r: nat) {
    && r < |s.runners| && Coming(s, r) == [] && s.runners[r].image != [] && OnlyTopReturning(s.runners[r].image)
    && Last(s.runners[r].image).phase == Awake && !CanReturn(s.runners[r], Last(s.runners[r].image).inv)
  }

  lemma TopEnds(s: State, r: nat, k: nat)
    requires r < |s.runners| && Coming(s, r) == [] && OnlyTopReturning(s.runners[r].image)
    requires k == |s.runners[r].image| - 1 && s.runners[r].image[k].phase == Executing
    requires OfCallback(s.runners[r].image[k].inv) !in s.awaiting && !CanReturn(s.runners[r], s.runners[r].image[k].inv)
    ensures Enabled(s, BlockEnds(r, k, Void)) && Refusable(Next(s, BlockEnds(r, k, Void)), r)
    ensures |Next(s, BlockEnds(r, k, Void)).runners[r].image| == k + 1
  {
    BacklogStep(s, BlockEnds(r, k, Void), r);
  }

  lemma RefusedWaits(s: State, r: nat, k: nat)
    requires Refusable(s, r) && k == |s.runners[r].image| - 1
    ensures Enabled(s, TryReturn(r, k)) && Stalled(Next(s, TryReturn(r, k)), r)
  {
    BacklogStep(s, TryReturn(r, k), r);
  }

  /** The second newest entry is not the native top, and its process does not wait for a callout. */
  lemma SecondNewest(s: State, r: nat)
    requires Inv(s) && WaitersRun(s) && r < |s.runners| && Ordered(s, r) && |s.runners[r].entering| >= 2
    ensures
      var second := s.runners[r].entering[|s.runners[r].entering| - 2];
      !CanReturn(s.runners[r], second) && OfCallback(second) !in s.awaiting
  {
    assert RunnerInv(s, r);
    var rs := s.runners[r];
    LastTwo(rs.native, Settled(rs.image), Backlog(s, r), rs.entering);
    NotRunning(s, r, rs.entering[|rs.entering| - 2]);
  }

  lemma LastTwo(native: seq<Invocation>, q: seq<Invocation>, b: seq<Invocation>, e: seq<Invocation>)
    requires native == q + (b + e) && |e| >= 2 && NoDup(native)
    ensures Last(native) != e[|e| - 2] && e[|e| - 2] in b + e
  {
    var n := |native|;
    assert native[n - 1] == e[|e| - 1] && native[n - 2] == e[|e| - 2];
    assert (b + e)[|b + e| - 2] == e[|e| - 2];
  }

  lemma TwoEntriesCanStall(s: State, r: nat) returns (run: seq<Step>)
    requires Inv(s) && WaitersRun(s) && r < |s.runners| && Ordered(s, r) && |s.runners[r].entering| >= 2
    ensures Valid(s, run) && EntryFree(run) && Stalled(Exec(s, run), r)
  {
    SecondNewest(s, r);
    var first := Overtake(s, r);
    var rest := RefusedTop(Exec(s, first), r);
    ExecConcat(s, first, rest);
    run := first + rest;
  }

  /** What is coming is not on the image stack, so its block does not run. */
  lemma NotRunning(s: State, r: nat, i: Invocation)
    requires Inv(s) && r < |s.runners| && i in Coming(s, r)
    ensures !Runs(s, i)
  {
    assert RunnerInv(s, r);
    ComingIsNative(s, r);
    forall k | 0 <= k < |s.runners[r].image| && s.runners[r].image[k].phase == Executing
      ensures s.runners[r].image[k].inv != i
    {
      SettledIsNative(s, r, k);
    }
  }

  // ---- the exact condition ----

  /** As long as the stacks of a runner agree, no continuation without new entries stalls it exactly
      when at most one of its invocations is between push and enqueueing. */
  lemma DrainCondition(s: State, r: nat)
    requires Reachable(s) && r < |s.runners| && Ordered(s, r)
    ensures NeverStalls(s, r) <==> |s.runners[r].entering| <= 1
  {
    ReachableInv(s);
    if |s.runners[r].entering| <= 1 {
      FewEntriesNeverStall(s, r);
    } else {
      ReachableWaitersRun(s);
      var run := TwoEntriesCanStall(s, r);
    }
  }

  /** So a lock around push and enqueueing, which makes every run one at a time, is enough. */
  lemma LockedEntriesNeverStall(n: nat, run: seq<Step>, r: nat)
    requires r < n && Valid(Init(n), run) && OneAtATime(Init(n), run, r)
    ensures NeverStalls(Exec(Init(n), run), r)
  {
    var s := Exec(Init(n), run);
    OneAtATimeIsOrderly(Init(n), run, r);
    assert Reaches(Init(n), run, s);
    RunnersStay(Init(n), run);
    OrderlyReachedOrdered(s, r);
    LastOfOneAtATime(Init(n), run, r);
    FewEntriesNeverStall(s, r);
  }

  lemma {:induction false} LastOfOneAtATime(s: State, run: seq<Step>, r: nat)
    requires r < |s.runners| && Valid(s, run) && OneAtATime(s, run, r)
    ensures r < |Exec(s, run).runners| && |Exec(s, run).runners[r].entering| <= 1
    decreases |run|
  {
    if run != [] {
      LastOfOneAtATime(Next(s, run[0]), run[1..], r);
    }
  }
}
