/** When a runner whose callbacks call out on itself only can stall.

    EntryOrder says which states with agreeing stacks can stall. Here the stacks may already have been
    crossed by entries of two threads. What has crossed can come apart again only by luck: the return of
    a callback that has overtaken another one before that one reaches the image. So the image can always
    take everything first, and then the crossing is found. Nothing else can hold it up: the newest callback
    of the image does not wait for a callout for ever, because a function that is still running would have
    called back, and such a callback would be newer on the image stack. */
module StallCondition {
  import opened Prelude
  import opened Protocol
  import opened Frames
  import opened StackAgreement
  import opened ReturnDrain
  import opened EntryOrder
  import opened CallGraph
  import opened Quiescence
  import Ages

  /** Functions on the worker of `r` call no callbacks of other runners, and blocks of `r` call out on `r`. */
  predicate KeepsToItself(e: Permits, r: nat) {
    && (forall x :: x in e.cross ==> x.0 != r)
    && (forall x :: x in e.calls && x.0 == r ==> x.1 == r)
  }

  // ---- entries that have crossed ----

  /** Without returns, or with nothing coming, stacks that do not agree go on not agreeing. */
  lemma DisagreeStep(s: State, a: Step, r: nat)
    requires Homed(s) && Enabled(s, a) && r < |s.runners| && !Entry(a) && OrderlyStep(a, r)
    requires OnlyTopReturning(s.runners[r].image) && (Returns(s, a, r) ==> Coming(s, r) == [])
    requires Agree(Next(s, a).runners[r], Coming(Next(s, a), r))
    ensures Agree(s.runners[r], Coming(s, r))
  {
    SettledStep(s, a, r);
    var rs, t := s.runners[r], Next(s, a).runners[r];
    if Pushes(s, a, r) {
      ComingPushStep(s, r);
      Associative(Settled(rs.image), [s.inFlight.value], Coming(Next(s, a), r));
    } else {
      NoArrival(s, a, r);
      if Returns(s, a, r) { ReturnedApart(rs.native, t.native, Settled(rs.image), Settled(t.image), rs.image[a.k].inv); }
    }
  }

  lemma NoArrival(s: State, a: Step, r: nat)
    requires Homed(s) && Enabled(s, a) && r < |s.runners| && !Entry(a) && OrderlyStep(a, r) && !Pushes(s, a, r)
    ensures Coming(Next(s, a), r) == Coming(s, r) && s.runners[r].native + Arrival(s, a, r) == s.runners[r].native
  {
    if a.Enqueue? && a.r == r {
      ComingEnqueueStep(s, r, a.k);
    } else {
      ComingOtherStep(s, a, r);
    }
    assert s.runners[r].native + [] == s.runners[r].native && Coming(s, r) + [] == Coming(s, r);
  }

  lemma ReturnedApart(n: seq<Invocation>, n': seq<Invocation>, q: seq<Invocation>, q': seq<Invocation>, i: Invocation)
    requires n == n' + [i] && q == q' + [i] && n' == q' + []
    ensures n == q + []
  {
    assert n' == q';
  }

  /** What is coming for runner `r` can be brought further without any return. */
  lemma ComingMoves(s: State, r: nat) returns (a: Step)
    requires Inv(s) && r < |s.runners| && Coming(s, r) != []
    ensures Enabled(s, a) && !Fresh(a) && (a.Enqueue? ==> a.k == 0) && !a.TryReturn?
  {
    if s.runners[r].entering != [] {
      a := Enqueue(r, 0);
    } else if s.inFlight.Some? {
      InFlightMoves(s);
      a := if Enabled(s, PushImage) then PushImage else FinishReturn(s.inFlight.value.runner);
    } else {
      assert Backlog(s, r) != [];
      a := ReadPending;
    }
  }

  /** A step towards rest after which the stacks of runner `r` do not agree either. */
  lemma StepApart(s: State, r: nat) returns (a: Step)
    requires Inv(s) && r < |s.runners| && !Agree(s.runners[r], Coming(s, r)) && !AtRest(s)
    ensures Enabled(s, a) && !Fresh(a) && r < |Next(s, a).runners| && !Agree(Next(s, a).runners[r], Coming(Next(s, a), r))
  {
    if Coming(s, r) != [] {
      a := ComingMoves(s, r);
    } else {
      a :| !Fresh(a) && Enabled(s, a);
      if a.Enqueue? { a := Enqueue(a.r, 0); }
    }
    IdsGrow(s, a, r);
    StaysApart(s, a, r);
  }

  lemma StaysApart(s: State, a: Step, r: nat)
    requires Inv(s) && Enabled(s, a) && !Fresh(a) && r < |s.runners| && (a.Enqueue? ==> a.k == 0)
    requires !Agree(s.runners[r], Coming(s, r)) && (a.TryReturn? ==> Coming(s, r) == [])
    ensures !Agree(Next(s, a).runners[r], Coming(Next(s, a), r))
  {
    assert RunnerInv(s, r);
    if Agree(Next(s, a).runners[r], Coming(Next(s, a), r)) { DisagreeStep(s, a, r); }
  }

  /** A run to rest on which the stacks of runner `r` do not come to agree. */
  lemma {:induction false} RestApart(s: State, r: nat, n: nat) returns (run: seq<Step>)
    requires Inv(s) && r < |s.runners| && !Agree(s.runners[r], Coming(s, r)) && Population(s) <= n
    ensures Valid(s, run) && NothingFresh(run) && AtRest(Exec(s, run)) && Inv(Exec(s, run))
    ensures r < |Exec(s, run).runners| && !Agree(Exec(s, run).runners[r], Coming(Exec(s, run), r))
    decreases Chores(s, n)
  {
    if AtRest(s) {
      run := [];
    } else {
      var a := StepApart(s, r);
      ChoresStep(s, a, n);
      InvStep(s, a);
      var rest := RestApart(Next(s, a), r, n);
      run := [a] + rest;
      ExecCons(s, a, rest);
    }
  }

  // ---- a callout of the runner's own callbacks always ends ----

  /** How many own-thread callbacks are at place `p` of the image stack or below. */
  function OwnUpTo(image: seq<Live>, p: nat): nat
    requires p < |image|
  {
    |Own(Invocations(image)[..p + 1])|
  }

  function LoopsBelow(frames: seq<Frame>, m: nat): nat
    requires m < |frames|
  {
    |BackInvocations(frames[..m])|
  }

  /** Below a callout on the C stack there are at least as many loops as own-thread callbacks were on the
      image stack up to the one that called. */
  ghost predicate Covered(rs: RunnerState) {
    forall m, p :: 0 <= m < |rs.frames| && 0 <= p < |rs.image| && CalledFrom(rs, m, p) ==>
      OwnUpTo(rs.image, p) <= LoopsBelow(rs.frames, m)
  }

  /** The function at place `m` of the C stack was called by the running block at place `p` of the image stack. */
  predicate CalledFrom(rs: RunnerState, m: nat, p: nat)
    requires m < |rs.frames| && p < |rs.image|
  {
    rs.frames[m].CallFrame? && rs.frames[m].call.caller == OfCallback(rs.image[p].inv) && rs.image[p].phase == Executing
  }

  /** The call is queued or running. */
  predicate Made(rs: RunnerState, c: Call) {
    Callout(c) in rs.tasks || CallFrame(c) in rs.frames
  }

  /** Nobody has called who is still coming. */
  ghost predicate CallersArrived(rs: RunnerState, coming: seq<Invocation>) {
    forall c :: Made(rs, c) && c.caller.OfCallback? ==> c.caller.inv !in coming
  }

  // -- callers have arrived --

  /** What is coming after a step was coming, or is new. */
  lemma ComingStep(s: State, a: Step, r: nat)
    requires Homed(s) && Enabled(s, a) && r < |s.runners|
    ensures forall i :: i in Coming(Next(s, a), r) ==> i in Coming(s, r) || i.id == s.nextId
  {
    if Pushes(s, a, r) {
      ComingPushStep(s, r);
    } else if a.Enqueue? && a.r == r {
      ComingEnqueueStep(s, r, a.k);
      forall i | i in Coming(Next(s, a), r) ensures i in Coming(s, r) {
        assert i in multiset(Coming(Next(s, a), r));
      }
    } else {
      ComingOtherStep(s, a, r);
    }
  }

  /** Only a dispatch makes a call. */
  lemma MadeStep(s: State, a: Step, r: nat, c: Call)
    requires Enabled(s, a) && r < |s.runners| && Made(Next(s, a).runners[r], c)
    ensures Made(s.runners[r], c) || (a.Dispatch? && a.r == r && c == Call(s.nextCall, r, a.p))
  {
    TasksEffect(s, a, r);
    FramesEffect(s, a, r);
  }

  lemma MadeKnown(rs: RunnerState, c: Call, nextId: nat)
    requires Ages.CallersOlder(rs, nextId) && Made(rs, c) && c.caller.OfCallback?
    ensures c.caller.inv.id < nextId
  {
  }

  lemma ArrivedStep(s: State, a: Step, r: nat)
    requires Inv(s) && Enabled(s, a) && r < |s.runners| && Ages.CallerKnown(s, a) && Ages.CallersOlder(s.runners[r], s.nextId)
    requires CallersArrived(s.runners[r], Coming(s, r))
    ensures CallersArrived(Next(s, a).runners[r], Coming(Next(s, a), r))
  {
    ComingStep(s, a, r);
    forall c | Made(Next(s, a).runners[r], c) && c.caller.OfCallback? ensures c.caller.inv !in Coming(Next(s, a), r) {
      MadeStep(s, a, r, c);
      if Made(s.runners[r], c) {
        MadeKnown(s.runners[r], c, s.nextId);
      } else if c.caller.inv in Coming(s, r) {
        NotRunning(s, r, c.caller.inv);
      }
    }
  }

  // -- loops cover callbacks --

  /** The image stack of invocations grows and shrinks at the top only, and no block starts anew. */
  ghost predicate ImageStep(before: seq<Live>, after: seq<Live>, pushed: seq<Invocation>) {
    && |after| <= |before| + |pushed|
    && (forall k :: 0 <= k < |after| && k < |before| ==> after[k].inv == before[k].inv)
    && (forall k :: 0 <= k < |after| && k < |before| && after[k].phase == Executing ==> before[k].phase == Executing)
    && (forall k :: |before| <= k < |after| ==> |pushed| == 1 && after[k].inv == pushed[0])
  }

  lemma ImageEffect(s: State, a: Step, r: nat)
    requires Enabled(s, a) && r < |s.runners|
    ensures ImageStep(s.runners[r].image, Next(s, a).runners[r].image, if Pushes(s, a, r) then [s.inFlight.value] else [])
  {
    if a.CrossCallback? { CrossEffect(s, a.q, a.r); }
    if !Touches(s, a, r) { Untouched(s, a, r); }
  }

  lemma {:induction false} OwnCounts(a: seq<Invocation>, b: seq<Invocation>)
    requires multiset(a) == multiset(b)
    ensures |Own(a)| == |Own(b)|
    decreases |a|
  {
    if a == [] {
      assert |multiset(b)| == 0;
    } else {
      var k := WithoutLast(a, b);
      OwnCounts(Front(a), Without(b, k));
      SelectFront((i: Invocation) => !i.foreign, a);
      OwnWithout(b, k);
    }
  }

  lemma WithoutLast(a: seq<Invocation>, b: seq<Invocation>) returns (k: nat)
    requires a != [] && multiset(a) == multiset(b)
    ensures k < |b| && b[k] == Last(a) && multiset(Front(a)) == multiset(Without(b, k))
  {
    assert a == Front(a) + [Last(a)];
    assert Last(a) in multiset(b);
    k :| 0 <= k < |b| && b[k] == Last(a);
    WithoutCounts(b, k);
    OneLess(multiset(Front(a)), multiset(Without(b, k)), Last(a));
  }

  lemma OneLess(p: multiset<Invocation>, q: multiset<Invocation>, x: Invocation)
    requires p + multiset{x} == q + multiset{x}
    ensures p == q
  {
    assert p == p + multiset{x} - multiset{x};
  }

  lemma OwnWithout(q: seq<Invocation>, k: nat)
    requires k < |q|
    ensures |Own(q)| == |Own(Without(q, k))| + if q[k].foreign then 0 else 1
  {
    var own := (i: Invocation) => !i.foreign;
    assert q == q[..k] + ([q[k]] + q[k + 1..]);
    SelectConcat(own, q[..k], [q[k]] + q[k + 1..]);
    SelectConcat(own, [q[k]], q[k + 1..]);
    SelectConcat(own, q[..k], q[k + 1..]);
    assert [q[k]][1..] == [];
  }

  lemma OwnPrefix(q: seq<Invocation>, p: nat)
    requires p <= |q|
    ensures |Own(q[..p])| <= |Own(q)|
  {
    assert q == q[..p] + q[p..];
    SelectConcat((i: Invocation) => !i.foreign, q[..p], q[p..]);
  }

  /** Own-thread callbacks up to a running one are on the native stack. */
  lemma OwnOnNative(rs: RunnerState, coming: seq<Invocation>, p: nat)
    requires Counted(rs, coming) && p < |rs.image| && rs.image[p].phase == Executing
    ensures OwnUpTo(rs.image, p) <= |Own(rs.native)|
  {
    var q := Settled(rs.image);
    assert q[..p + 1] == Invocations(rs.image)[..p + 1];
    OwnPrefix(q, p + 1);
    OwnCounts(rs.native, q + coming);
    assert (q + coming)[..|q|] == q;
    OwnPrefix(q + coming, |q|);
  }

  lemma {:induction false} LoopsPrefix(frames: seq<Frame>, m: nat)
    requires m <= |frames|
    ensures |BackInvocations(frames[..m])| <= |BackInvocations(frames)|
    decreases |frames|
  {
    if m == |frames| {
      assert frames[..m] == frames;
    } else {
      LoopsPrefix(Front(frames), m);
      assert Front(frames)[..m] == frames[..m];
    }
  }

  lemma CoveredStep(s: State, a: Step, r: nat)
    requires Inv(s) && Enabled(s, a) && r < |s.runners| && Balanced(s.runners[r])
    requires Covered(s.runners[r]) && CallersArrived(s.runners[r], Coming(s, r))
    ensures Covered(Next(s, a).runners[r])
  {
    var t := Next(s, a).runners[r];
    forall m: nat, p: nat | m < |t.frames| && p < |t.image| && CalledFrom(t, m, p)
      ensures OwnUpTo(t.image, p) <= LoopsBelow(t.frames, m)
    {
      ImageEffect(s, a, r);
      if p < |s.runners[r].image| {
        CoveredAt(s, a, r, m, p);
      } else {
        PushedHasNotCalled(s, a, r, m);
      }
    }
  }

  lemma CoveredAt(s: State, a: Step, r: nat, m: nat, p: nat)
    requires Inv(s) && Enabled(s, a) && r < |s.runners| && Balanced(s.runners[r]) && Covered(s.runners[r])
    requires m < |Next(s, a).runners[r].frames| && p < |Next(s, a).runners[r].image| && p < |s.runners[r].image|
    requires CalledFrom(Next(s, a).runners[r], m, p)
    requires ImageStep(s.runners[r].image, Next(s, a).runners[r].image, if Pushes(s, a, r) then [s.inFlight.value] else [])
    ensures OwnUpTo(Next(s, a).runners[r].image, p) <= LoopsBelow(Next(s, a).runners[r].frames, m)
  {
    var rs, t := s.runners[r], Next(s, a).runners[r];
    SamePrefix(rs.image, t.image, p);
    FramePlace(s, a, r, m);
    if m < |rs.frames| {
      assert CalledFrom(rs, m, p);
    } else {
      assert RunnerInv(s, r);
      OwnOnNative(rs, Coming(s, r), p);
    }
  }

  /** What is under a function on the C stack stays. */
  lemma FramePlace(s: State, a: Step, r: nat, m: nat)
    requires Enabled(s, a) && r < |s.runners| && m < |Next(s, a).runners[r].frames|
    ensures
      var frames, after := s.runners[r].frames, Next(s, a).runners[r].frames;
      if m < |frames| then after[m] == frames[m] && after[..m] == frames[..m] else after[..m] == frames
  {
    FramesEffect(s, a, r);
  }

  lemma SamePrefix(before: seq<Live>, after: seq<Live>, p: nat)
    requires p < |before| && p < |after| && forall k :: 0 <= k <= p ==> after[k].inv == before[k].inv
    ensures OwnUpTo(after, p) == OwnUpTo(before, p)
  {
    assert Invocations(after)[..p + 1] == Invocations(before)[..p + 1];
  }

  lemma PushedHasNotCalled(s: State, a: Step, r: nat, m: nat)
    requires Homed(s) && Enabled(s, a) && r < |s.runners| && CallersArrived(s.runners[r], Coming(s, r))
    requires m < |Next(s, a).runners[r].frames| && Pushes(s, a, r)
    ensures Next(s, a).runners[r].frames[m].CallFrame? ==>
      Next(s, a).runners[r].frames[m].call.caller != OfCallback(s.inFlight.value)
  {
    ComingPushStep(s, r);
    FramesEffect(s, a, r);
    var f := s.runners[r].frames[m];
    if f.CallFrame? { assert Made(s.runners[r], f.call); }
  }

  // -- over a run --

  ghost predicate ToItself(s: State, r: nat) {
    && Ages.AgesHold(s) && r < |s.runners| && !Away(s.runners[r])
    && Covered(s.runners[r]) && CallersArrived(s.runners[r], Coming(s, r))
  }

  lemma ToItselfStep(s: State, a: Step, r: nat, e: Permits)
    requires ToItself(s, r) && Enabled(s, a) && WithinStep(a, e) && KeepsToItself(e, r)
    ensures ToItself(Next(s, a), r)
  {
    IdsGrow(s, a, r);
    Ages.AgesHoldStep(s, a);
    Ages.RunningIsKnown(s, a);
    assert Ages.Aged(s.runners[r], s.nextId) && Balanced(s.runners[r]);
    AwayEffect(s, a, r);
    CoveredStep(s, a, r);
    ArrivedStep(s, a, r);
  }

  lemma {:induction false} ToItselfRun(s: State, run: seq<Step>, r: nat, e: Permits)
    requires ToItself(s, r) && CallsPermitted(s, e) && Valid(s, run) && Within(run, e) && KeepsToItself(e, r)
    ensures ToItself(Exec(s, run), r) && CallsPermitted(Exec(s, run), e)
    decreases |run|
  {
    if run != [] {
      ToItselfStep(s, run[0], r, e);
      CallsPermittedStep(s, run[0], e);
      ToItselfRun(Next(s, run[0]), run[1..], r, e);
    }
  }

  lemma InitToItself(n: nat, r: nat, e: Permits)
    requires r < n
    ensures ToItself(Init(n), r) && CallsPermitted(Init(n), e)
  {
    Ages.AgesHoldInit(n);
    assert Init(n).runners[r] == NEW_RUNNER;
  }

  /** With the loops that it would need the runner would have a callback that is newer on its image stack. */
  lemma NoSuchFrame(rs: RunnerState, m: nat)
    requires Covered(rs) && Balanced(rs) && rs.tasks == [] && Counted(rs, []) && !InFunction(rs) && !Away(rs)
    requires m < |rs.frames| && rs.image != []
    ensures !CalledFrom(rs, m, |rs.image| - 1)
  {
    if CalledFrom(rs, m, |rs.image| - 1) {
      MoreLoops(rs, m);
      AllOwn(rs);
    }
  }

  /** At rest the newest callback of the runner does not wait for a callout. */
  lemma TopDoesNotWait(s: State, r: nat, e: Permits)
    requires ToItself(s, r) && CallsPermitted(s, e) && KeepsToItself(e, r) && AtRest(s)
    ensures !TopBlocked(s, r)
  {
    RestingRunner(s, r);
    if TopBlocked(s, r) {
      var m := AwaitedFrame(s, r, e);
      NoSuchFrame(s.runners[r], m);
    }
  }

  lemma RestingRunner(s: State, r: nat)
    requires ToItself(s, r) && AtRest(s)
    ensures
      var rs := s.runners[r];
      rs.tasks == [] && Counted(rs, []) && Balanced(rs) && Covered(rs) && !InFunction(rs) && !Away(rs)
  {
    AtRestQueues(s, r);
    AtRestIsQuiet(s);
    QuietHasNothingComing(s);
    assert RunnerInv(s, r);
  }

  /** The callout is on the C stack of the runner itself. */
  lemma AwaitedFrame(s: State, r: nat, e: Permits) returns (m: nat)
    requires ToItself(s, r) && CallsPermitted(s, e) && KeepsToItself(e, r) && AtRest(s) && TopBlocked(s, r)
    ensures m < |s.runners[r].frames| && CalledFrom(s.runners[r], m, |s.runners[r].image| - 1)
  {
    var i := Last(s.runners[r].image).inv;
    assert i.runner == r;
    RestingRunner(s, r);
    CalledHere(s, i, r, e);
    m := FrameOf(s.runners[r], s.awaiting[OfCallback(i)]);
  }

  lemma CalledHere(s: State, i: Invocation, r: nat, e: Permits)
    requires Ages.Waits(s) && CallsPermitted(s, e) && KeepsToItself(e, r) && AtRest(s)
    requires OfCallback(i) in s.awaiting && i.runner == r < |s.runners|
    ensures
      var c := s.awaiting[OfCallback(i)];
      c.caller == OfCallback(i) && (Callout(c) in s.runners[r].tasks || CallFrame(c) in s.runners[r].frames)
  {
    var c := s.awaiting[OfCallback(i)];
    assert (r, c.runner) in e.calls;
    assert !Enabled(s, CallerResumes(OfCallback(i)));
    assert Ages.Located(s, c);
  }

  lemma MoreLoops(rs: RunnerState, m: nat)
    requires m < |rs.frames| && !InFunction(rs) && !Away(rs) && !rs.rootReturned && rs.frames[m].CallFrame?
    ensures LoopsBelow(rs.frames, m) < |BackInvocations(rs.frames)|
  {
    LoopsPrefix(Front(rs.frames), m);
    assert Front(rs.frames)[..m] == rs.frames[..m];
  }

  lemma AllOwn(rs: RunnerState)
    requires Counted(rs, []) && rs.image != [] && Last(rs.image).phase == Executing
    ensures OwnUpTo(rs.image, |rs.image| - 1) == |Own(rs.native)|
  {
    var q := Settled(rs.image);
    assert q + [] == q && q == Invocations(rs.image)[..|rs.image|];
    OwnCounts(rs.native, q);
  }

  // ---- the main result ----

  /** At rest, stacks that do not agree have stalled. */
  lemma ApartIsStalled(s: State, r: nat)
    requires Inv(s) && AtRest(s) && r < |s.runners| && !Agree(s.runners[r], Coming(s, r)) && !TopBlocked(s, r)
    ensures Stalled(s, r)
  {
    AtRestIsQuiet(s);
    QuietHasNothingComing(s);
    assert RunnerInv(s, r);
    var image := s.runners[r].image;
    if image == [] {
      NothingLeft(s.runners[r]);
    } else {
      assert !Enabled(s, FinishReturn(r)) && !Enabled(s, TryReturn(r, |image| - 1));
      assert !Enabled(s, BlockEnds(r, |image| - 1, Void));
    }
  }

  lemma NothingLeft(rs: RunnerState)
    requires Counted(rs, []) && rs.image == []
    ensures Agree(rs, [])
  {
    assert Settled(rs.image) + [] == [];
    assert |multiset(rs.native)| == 0;
  }

  lemma ApartStalls(s: State, r: nat, e: Permits) returns (run: seq<Step>)
    requires ToItself(s, r) && CallsPermitted(s, e) && KeepsToItself(e, r) && !Agree(s.runners[r], Coming(s, r))
    ensures Valid(s, run) && EntryFree(run) && Stalled(Exec(s, run), r)
  {
    run := RestApart(s, r, Population(s));
    assert Within(run, e);
    ToItselfRun(s, run, r, e);
    TopDoesNotWait(Exec(s, run), r, e);
    ApartIsStalled(Exec(s, run), r);
  }

  /** A runner that keeps to itself, in whatever state a run has left it: no continuation without new entries
      stalls it exactly when its stacks agree, its newest callback does not wait for nothing, and at most one
      of its invocations is between push and enqueueing. */
  lemma StallsIff(n: nat, run: seq<Step>, r: nat, e: Permits)
    requires r < n && Valid(Init(n), run) && Within(run, e) && KeepsToItself(e, r)
    ensures
      var s := Exec(Init(n), run);
      r < |s.runners| && (NeverStalls(s, r) <==> Ordered(s, r) && |s.runners[r].entering| <= 1)
  {
    var s := Exec(Init(n), run);
    assert Reaches(Init(n), run, s);
    InitToItself(n, r, e);
    ToItselfRun(Init(n), run, r, e);
    if Ordered(s, r) {
      DrainCondition(s, r);
    } else if Agree(s.runners[r], Coming(s, r)) {
      assert Valid(s, []) && EntryFree([]) && Stalled(Exec(s, []), r);
    } else {
      var stall := ApartStalls(s, r, e);
      assert Valid(s, stall) && EntryFree(stall) && Stalled(Exec(s, stall), r);
    }
  }

  // ---- one runner ----

  const ALONE := Permits({}, {(0, 0)})

  lemma {:induction false} AloneWithin(s: State, run: seq<Step>)
    requires |s.runners| == 1 && Valid(s, run)
    ensures Within(run, ALONE)
    decreases |run|
  {
    if run != [] {
      IdsGrow(s, run[0], 0);
      AloneWithin(Next(s, run[0]), run[1..]);
      assert run == [run[0]] + run[1..];
    }
  }

  /** With one runner the condition holds of every run. */
  lemma OneRunnerStallsIff(run: seq<Step>)
    requires Valid(Init(1), run)
    ensures
      var s := Exec(Init(1), run);
      |s.runners| == 1 && (NeverStalls(s, 0) <==> Ordered(s, 0) && |s.runners[0].entering| <= 1)
  {
    AloneWithin(Init(1), run);
    RunnersStay(Init(1), run);
    StallsIff(1, run, 0, ALONE);
  }
}
