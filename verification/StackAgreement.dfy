/** The two stacks of a runner, and why the guard of the primitive is enough.

    In every run, the native stack of a runner holds its image stack, the invocation in flight, the
    pending queue and the invocations on their way into that queue, each once. As long as invocations
    are queued in the order in which they were pushed, it holds them in exactly this order, and the
    guard answers true exactly when nothing is on its way. The one exception is an image top that the
    primitive has already returned and `returnCallback:` is about to pop. */
module StackAgreement {
  import opened Prelude
  import opened Protocol

  function Of(q: seq<Invocation>, r: nat): (o: seq<Invocation>) {
    Select((i: Invocation) => i.runner == r, q)
  }

  function InFlight(s: State): seq<Invocation> {
    if s.inFlight.Some? then [s.inFlight.value] else []
  }

  /** What was queued for runner `r` and is not on its image stack yet, oldest first. */
  function Backlog(s: State, r: nat): seq<Invocation> {
    Of(InFlight(s) + s.pending, r)
  }

  /** What was pushed on the native stack of runner `r` and is not on its image stack yet. */
  function Coming(s: State, r: nat): seq<Invocation>
    requires r < |s.runners|
  {
    Backlog(s, r) + s.runners[r].entering
  }

  function Invocations(image: seq<Live>): (q: seq<Invocation>)
    ensures |q| == |image| && forall k :: 0 <= k < |image| ==> q[k] == image[k].inv
  {
    seq(|image|, k requires 0 <= k < |image| => image[k].inv)
  }

  /** The image stack without a top that the primitive has already returned. */
  function Settled(image: seq<Live>): seq<Invocation> {
    if image != [] && Last(image).phase == Returning then Invocations(Front(image)) else Invocations(image)
  }

  // ---- what holds in every run ----

  /** Only the top of an image stack can be inside the critical section. */
  ghost predicate OnlyTopReturning(image: seq<Live>) {
    forall k :: 0 <= k < |image| - 1 ==> image[k].phase != Returning
  }

  /** The native stack holds what is settled and what is coming, each once. */
  ghost predicate Counted(rs: RunnerState, coming: seq<Invocation>) {
    OnlyTopReturning(rs.image) && multiset(rs.native) == multiset(Settled(rs.image) + coming)
  }

  /** Live invocations are distinct. */
  ghost predicate Distinct(rs: RunnerState, r: nat, nextId: nat) {
    NoDup(rs.native) && forall k :: 0 <= k < |rs.native| ==> rs.native[k].id < nextId && rs.native[k].runner == r
  }

  /** Every invocation knows its runner. */
  ghost predicate Homed(s: State) {
    && (forall i :: i in InFlight(s) + s.pending ==> i.runner < |s.runners|)
    && (forall r, k :: 0 <= r < |s.runners| && 0 <= k < |s.runners[r].image| ==> s.runners[r].image[k].inv.runner == r)
    && (forall r, k :: 0 <= r < |s.runners| && 0 <= k < |s.runners[r].entering| ==> s.runners[r].entering[k].runner == r)
  }

  ghost predicate RunnerInv(s: State, r: nat)
    requires r < |s.runners|
  {
    Distinct(s.runners[r], r, s.nextId) && Counted(s.runners[r], Coming(s, r))
  }

  ghost predicate Inv(s: State) {
    Homed(s) && forall r :: 0 <= r < |s.runners| ==> RunnerInv(s, r)
  }

  // ---- what holds when invocations are queued in the order of their pushes ----

  /** ... in this order. */
  ghost predicate Agree(rs: RunnerState, coming: seq<Invocation>) {
    OnlyTopReturning(rs.image) && rs.native == Settled(rs.image) + coming
  }

  /** A process that waits while its invocation is the image top waits for something to come. */
  ghost predicate WaitsForComing(rs: RunnerState, coming: seq<Invocation>) {
    rs.image != [] && Last(rs.image).phase == Waiting ==> coming != []
  }

  ghost predicate Ordered(s: State, r: nat)
    requires r < |s.runners|
  {
    Agree(s.runners[r], Coming(s, r)) && WaitsForComing(s.runners[r], Coming(s, r))
  }

  /** On runner `r`, only the invocation that was pushed first is queued. */
  predicate OrderlyStep(a: Step, r: nat) {
    a.Enqueue? && a.r == r ==> a.k == 0
  }

  predicate OrderlyRun(run: seq<Step>, r: nat) {
    forall k :: 0 <= k < |run| ==> OrderlyStep(run[k], r)
  }

  ghost predicate OrderlyReached(s: State, r: nat) {
    exists n: nat, run: seq<Step> :: Reaches(Init(n), run, s) && OrderlyRun(run, r)
  }

  /** At every moment of the run at most one invocation of runner `r` is between its push and its
      enqueueing. A lock around the two statements ensures this. */
  predicate OneAtATime(s: State, run: seq<Step>, r: nat)
    requires Valid(s, run) && r < |s.runners|
    decreases |run|
  {
    && |s.runners[r].entering| <= 1
    && (run == [] || OneAtATime(Next(s, run[0]), run[1..], r))
  }

  lemma {:induction false} OneAtATimeIsOrderly(s: State, run: seq<Step>, r: nat)
    requires Valid(s, run) && r < |s.runners| && OneAtATime(s, run, r)
    ensures OrderlyRun(run, r)
    decreases |run|
  {
    if run != [] {
      OneAtATimeIsOrderly(Next(s, run[0]), run[1..], r);
      assert run == [run[0]] + run[1..];
    }
  }

  // ---- how a step changes the parts ----

  /** The primitive answers true for the image top of runner `r`. */
  predicate Returns(s: State, a: Step, r: nat) {
    a.TryReturn? && a.r == r && r < |s.runners| && a.k < |s.runners[r].image| && ReturnSucceeds(s.runners[r], a.k)
  }

  /** The callback process pushes on the image stack of runner `r`. */
  predicate Pushes(s: State, a: Step, r: nat) {
    a.PushImage? && s.inFlight.Some? && s.inFlight.value.runner == r
  }

  lemma HomedStep(s: State, a: Step)
    requires Homed(s) && Enabled(s, a)
    ensures Homed(Next(s, a))
  {
    HomedBacklog(s, a);
    HomedImages(s, a);
    HomedEntering(s, a);
  }

  lemma HomedBacklog(s: State, a: Step)
    requires Homed(s) && Enabled(s, a)
    ensures var t := Next(s, a); forall i :: i in InFlight(t) + t.pending ==> i.runner < |t.runners|
  {
    var t := Next(s, a);
    forall i | i in InFlight(t) + t.pending ensures i in InFlight(s) + s.pending || i.runner < |s.runners| {
      if i !in InFlight(t) && !a.ReadPending? { assert i in t.pending; }
    }
  }

  lemma HomedImages(s: State, a: Step)
    requires Homed(s) && Enabled(s, a)
    ensures var t := Next(s, a);
      forall r, k :: 0 <= r < |t.runners| && 0 <= k < |t.runners[r].image| ==> t.runners[r].image[k].inv.runner == r
  {
    var t := Next(s, a);
    forall r, k | 0 <= r < |t.runners| && 0 <= k < |t.runners[r].image| ensures t.runners[r].image[k].inv.runner == r {
      if !Touches(s, a, r) {
        Untouched(s, a, r);
      } else if !a.PushImage? {
        assert s.runners[r].image[k].inv.runner == r;
      }
    }
  }

  lemma HomedEntering(s: State, a: Step)
    requires Homed(s) && Enabled(s, a)
    ensures var t := Next(s, a);
      forall r, k :: 0 <= r < |t.runners| && 0 <= k < |t.runners[r].entering| ==> t.runners[r].entering[k].runner == r
  {
    var t := Next(s, a);
    forall r, k | 0 <= r < |t.runners| && 0 <= k < |t.runners[r].entering| ensures t.runners[r].entering[k].runner == r {
      if !Touches(s, a, r) {
        Untouched(s, a, r);
      } else if a.Enqueue? && k >= a.k {
        assert t.runners[r].entering[k] == s.runners[r].entering[k + 1];
      }
    }
  }

  lemma BacklogSnoc(a: seq<Invocation>, b: seq<Invocation>, i: Invocation, r: nat)
    ensures Of(a + (b + [i]), r) == Of(a + b, r) + if i.runner == r then [i] else []
  {
    Associative(a, b, [i]);
    SelectSnoc((i: Invocation) => i.runner == r, a + b, i);
  }

  lemma BacklogFirst(i: Invocation, q: seq<Invocation>, r: nat)
    ensures Of([i] + q, r) == (if i.runner == r then [i] else []) + Of([] + q, r)
  {
    assert ([i] + q)[1..] == [] + q == q;
  }

  lemma BacklogStep(s: State, a: Step, r: nat)
    requires Enabled(s, a) && r < |s.runners|
    ensures match a
      case Enqueue(q, k) =>
        var i := s.runners[q].entering[k];
        Backlog(Next(s, a), r) == Backlog(s, r) + if i.runner == r then [i] else []
      case PushImage =>
        Backlog(s, r) == (if s.inFlight.value.runner == r then [s.inFlight.value] else []) + Backlog(Next(s, a), r)
      case _ => Backlog(Next(s, a), r) == Backlog(s, r)
  {
    match a
    case Enqueue(q, k) => BacklogSnoc(InFlight(s), s.pending, s.runners[q].entering[k], r);
    case PushImage => BacklogFirst(s.inFlight.value, s.pending, r);
    case ReadPending => assert [s.pending[0]] + s.pending[1..] == [] + s.pending;
    case _ =>
  }

  /** The invocation that a step pushes on the native stack of runner `r`. */
  function Arrival(s: State, a: Step, r: nat): seq<Invocation> {
    if Enters(a, r) then [Invocation(s.nextId, r, !a.OwnCallback?)] else []
  }

  lemma BacklogEffect(s: State, a: Step, r: nat)
    requires Homed(s) && Enabled(s, a) && r < |s.runners|
    ensures
      var before, after := Backlog(s, r), Backlog(Next(s, a), r);
      if Pushes(s, a, r) then before == [s.inFlight.value] + after
      else after == before + Queued(s, a, r)
  {
    BacklogStep(s, a, r);
    assert a.Enqueue? ==> s.runners[a.r].entering[a.k].runner == a.r;
  }

  /** The invocation of runner `r` that a step queues for the image. */
  function Queued(s: State, a: Step, r: nat): seq<Invocation>
    requires Enabled(s, a) && r < |s.runners|
  {
    if a.Enqueue? && a.r == r then [s.runners[r].entering[a.k]] else []
  }

  lemma ComingEnqueueStep(s: State, r: nat, k: nat)
    requires Homed(s) && Enabled(s, Enqueue(r, k))
    ensures
      var before, after := Coming(s, r), Coming(Next(s, Enqueue(r, k)), r);
      multiset(after) == multiset(before) && (k == 0 ==> after == before)
  {
    var t := Next(s, Enqueue(r, k));
    BacklogEffect(s, Enqueue(r, k), r);
    ComingEnqueue(Backlog(s, r), s.runners[r].entering, Backlog(t, r), t.runners[r].entering, k);
  }

  lemma ComingPushStep(s: State, r: nat)
    requires Homed(s) && Enabled(s, PushImage) && s.inFlight.value.runner == r
    ensures Coming(s, r) == [s.inFlight.value] + Coming(Next(s, PushImage), r)
  {
    var t := Next(s, PushImage);
    BacklogEffect(s, PushImage, r);
    Associative([s.inFlight.value], Backlog(t, r), s.runners[r].entering);
  }

  lemma ComingOtherStep(s: State, a: Step, r: nat)
    requires Homed(s) && Enabled(s, a) && r < |s.runners| && !Pushes(s, a, r) && !(a.Enqueue? && a.r == r)
    ensures Coming(Next(s, a), r) == Coming(s, r) + Arrival(s, a, r)
  {
    var t := Next(s, a);
    BacklogEffect(s, a, r);
    EnteringStep(s, a, r);
    ComingArrival(Backlog(s, r), s.runners[r].entering, Backlog(t, r), t.runners[r].entering, Arrival(s, a, r));
  }

  lemma ComingArrival(b: seq<Invocation>, e: seq<Invocation>, b': seq<Invocation>, e': seq<Invocation>, arrival: seq<Invocation>)
    requires b' == b + [] && e' == e + arrival
    ensures b' + e' == (b + e) + arrival
  {
  }

  lemma ComingEnqueue(b: seq<Invocation>, e: seq<Invocation>, b': seq<Invocation>, e': seq<Invocation>, k: nat)
    requires k < |e| && b' == b + [e[k]] && e' == Without(e, k)
    ensures multiset(b' + e') == multiset(b + e)
    ensures k == 0 ==> b' + e' == b + e
  {
    WithoutCounts(e, k);
  }

  /** What an entry, and only an entry, pushes on the native stack. */
  lemma ArrivalStep(s: State, a: Step, r: nat)
    requires Enabled(s, a) && r < |s.runners| && !a.TryReturn?
    ensures Next(s, a).runners[r].native == s.runners[r].native + Arrival(s, a, r)
  {
    var native := s.runners[r].native;
    assert native + [] == native;
    if Enters(a, r) { EnterEffect(s, a, r); } else { NothingArrives(s, a, r); }
  }

  lemma NothingArrives(s: State, a: Step, r: nat)
    requires Enabled(s, a) && r < |s.runners| && !Enters(a, r) && !a.TryReturn?
    ensures Next(s, a).runners[r].native == s.runners[r].native
  {
    if !Touches(s, a, r) { Untouched(s, a, r); }
  }

  lemma EnteringStep(s: State, a: Step, r: nat)
    requires Enabled(s, a) && r < |s.runners|
    ensures Next(s, a).runners[r].entering ==
      if a.Enqueue? && a.r == r then Without(s.runners[r].entering, a.k) else s.runners[r].entering + Arrival(s, a, r)
  {
    var entering := s.runners[r].entering;
    assert entering + [] == entering;
    if Enters(a, r) { EnterEffect(s, a, r); } else { NothingQueues(s, a, r); }
  }

  lemma NothingQueues(s: State, a: Step, r: nat)
    requires Enabled(s, a) && r < |s.runners| && !Enters(a, r)
    ensures Next(s, a).runners[r].entering ==
      if a.Enqueue? && a.r == r then Without(s.runners[r].entering, a.k) else s.runners[r].entering
  {
    if !Touches(s, a, r) { Untouched(s, a, r); }
  }

  lemma SettledUnlocked(image: seq<Live>)
    requires OnlyTopReturning(image) && forall k :: 0 <= k < |image| ==> image[k].phase != Returning
    ensures Settled(image) == Invocations(image)
  {
  }

  lemma SettledTryReturn(rs: RunnerState, k: nat)
    requires OnlyTopReturning(rs.image) && k < |rs.image| && !Locked(rs)
    ensures
      var t := TryReturnAt(rs, k);
      && OnlyTopReturning(t.image)
      && if ReturnSucceeds(rs, k) then
           Settled(rs.image) == Settled(t.image) + [rs.image[k].inv] && rs.native == t.native + [rs.image[k].inv]
         else Settled(t.image) == Settled(rs.image) && t.native == rs.native
  {
    SettledUnlocked(rs.image);
    var t := TryReturnAt(rs, k);
    if ReturnSucceeds(rs, k) {
      assert Settled(t.image) == Front(Invocations(rs.image));
    } else {
      SettledUnlocked(t.image);
      assert Invocations(t.image) == Invocations(rs.image);
    }
  }

  lemma SettledPush(image: seq<Live>, inv: Invocation)
    requires OnlyTopReturning(image) && forall k :: 0 <= k < |image| ==> image[k].phase != Returning
    ensures OnlyTopReturning(image + [Live(inv, Executing)])
    ensures Settled(image + [Live(inv, Executing)]) == Settled(image) + [inv]
  {
    SettledUnlocked(image);
    SettledUnlocked(image + [Live(inv, Executing)]);
    assert Invocations(image + [Live(inv, Executing)]) == Invocations(image) + [inv];
  }

  lemma SettledBlockEnds(image: seq<Live>, k: nat)
    requires OnlyTopReturning(image) && k < |image| && image[k].phase == Executing
    ensures OnlyTopReturning(WithPhase(image, k, Awake)) && Settled(WithPhase(image, k, Awake)) == Settled(image)
  {
  }

  lemma SettledFinish(image: seq<Live>)
    requires OnlyTopReturning(image) && image != [] && Last(image).phase == Returning
    ensures OnlyTopReturning(WakeAll(Front(image))) && Settled(WakeAll(Front(image))) == Settled(image)
  {
    SettledUnlocked(WakeAll(Front(image)));
    assert Invocations(WakeAll(Front(image))) == Settled(image);
  }

  /** The settled part of the image stack and the native stack, over one step. */
  lemma SettledStep(s: State, a: Step, r: nat)
    requires Enabled(s, a) && r < |s.runners| && OnlyTopReturning(s.runners[r].image)
    ensures
      var rs, t := s.runners[r], Next(s, a).runners[r];
      && OnlyTopReturning(t.image)
      && if Pushes(s, a, r) then Settled(t.image) == Settled(rs.image) + [s.inFlight.value] && t.native == rs.native
         else if Returns(s, a, r) then
           Settled(rs.image) == Settled(t.image) + [rs.image[a.k].inv] && rs.native == t.native + [rs.image[a.k].inv]
         else Settled(t.image) == Settled(rs.image) && t.native == rs.native + Arrival(s, a, r)
  {
    var rs := s.runners[r];
    if a.PushImage? && Touches(s, a, r) {
      SettledPush(rs.image, s.inFlight.value);
      assert rs.native + [] == rs.native;
    } else if a.BlockEnds? && a.r == r {
      SettledBlockEnds(rs.image, a.k);
    } else if a.TryReturn? && a.r == r {
      SettledTryReturn(rs, a.k);
    } else if a.FinishReturn? && a.r == r {
      SettledFinish(rs.image);
    } else {
      SameImage(s, a, r);
    }
  }

  lemma SameImage(s: State, a: Step, r: nat)
    requires Enabled(s, a) && r < |s.runners|
    requires !(Touches(s, a, r) && (a.PushImage? || a.BlockEnds? || a.TryReturn? || a.FinishReturn?))
    ensures Next(s, a).runners[r].image == s.runners[r].image
    ensures Next(s, a).runners[r].native == s.runners[r].native + Arrival(s, a, r)
  {
    if a.TryReturn? {
      Untouched(s, a, r);
      assert s.runners[r].native + [] == s.runners[r].native;
    } else {
      ArrivalStep(s, a, r);
      if a.CrossCallback? { CrossEffect(s, a.q, a.r); }
      if !Touches(s, a, r) { Untouched(s, a, r); }
    }
  }

  // ---- every step keeps the invariants ----

  lemma CountedStep(s: State, a: Step, r: nat)
    requires Homed(s) && Enabled(s, a) && r < |s.runners| && Counted(s.runners[r], Coming(s, r))
    ensures Counted(Next(s, a).runners[r], Coming(Next(s, a), r))
  {
    SettledStep(s, a, r);
    if Pushes(s, a, r) {
      CountedPush(s, r);
    } else if a.Enqueue? && a.r == r {
      ComingEnqueueStep(s, r, a.k);
      var rs, t := s.runners[r], Next(s, a);
      CountsRearranged(rs.native, t.runners[r].native, Settled(rs.image), Coming(s, r), Coming(t, r));
    } else {
      CountedOther(s, a, r);
    }
  }

  lemma CountedPush(s: State, r: nat)
    requires Homed(s) && Enabled(s, PushImage) && s.inFlight.value.runner == r && Counted(s.runners[r], Coming(s, r))
    ensures Counted(Next(s, PushImage).runners[r], Coming(Next(s, PushImage), r))
  {
    SettledStep(s, PushImage, r);
    ComingPushStep(s, r);
    Associative(Settled(s.runners[r].image), [s.inFlight.value], Coming(Next(s, PushImage), r));
  }

  lemma CountedOther(s: State, a: Step, r: nat)
    requires Homed(s) && Enabled(s, a) && r < |s.runners| && Counted(s.runners[r], Coming(s, r))
    requires !Pushes(s, a, r) && !(a.Enqueue? && a.r == r)
    ensures Counted(Next(s, a).runners[r], Coming(Next(s, a), r))
  {
    var rs, t := s.runners[r], Next(s, a).runners[r];
    var coming := Coming(Next(s, a), r);
    SettledStep(s, a, r);
    ComingOtherStep(s, a, r);
    if Returns(s, a, r) {
      CountsReturn(rs.native, t.native, Settled(rs.image), Settled(t.image), rs.image[a.k].inv, Coming(s, r), coming);
    } else {
      CountsArrival(rs.native, t.native, Settled(rs.image), Coming(s, r), coming, Arrival(s, a, r));
    }
  }

  lemma CountsRearranged(n: seq<Invocation>, n': seq<Invocation>, q: seq<Invocation>, c: seq<Invocation>, c': seq<Invocation>)
    requires multiset(n) == multiset(q + c) && n' == n + [] && multiset(c') == multiset(c)
    ensures multiset(n') == multiset(q + c')
  {
    assert n' == n;
    assert multiset(q + c) == multiset(q) + multiset(c) == multiset(q + c');
  }

  lemma CountsReturn(n: seq<Invocation>, n': seq<Invocation>, q: seq<Invocation>, q': seq<Invocation>, i: Invocation,
                     c: seq<Invocation>, c': seq<Invocation>)
    requires n == n' + [i] && q == q' + [i] && c' == c + [] && multiset(n) == multiset(q + c)
    ensures multiset(n') == multiset(q' + c')
  {
    assert c' == c;
    assert multiset(n) == multiset(n') + multiset{i};
    assert multiset(q + c) == multiset(q) + multiset(c) && multiset(q) == multiset(q') + multiset{i};
    assert multiset(q' + c) == multiset(q') + multiset(c);
    assert multiset(n') == multiset(n) - multiset{i};
  }

  lemma CountsArrival(n: seq<Invocation>, n': seq<Invocation>, q: seq<Invocation>, c: seq<Invocation>, c': seq<Invocation>, arrived: seq<Invocation>)
    requires multiset(n) == multiset(q + c) && n' == n + arrived && c' == c + arrived
    ensures multiset(n') == multiset(q + c')
  {
    assert multiset(n') == multiset(q) + multiset(c) + multiset(arrived);
    assert multiset(q + c') == multiset(q) + multiset(c) + multiset(arrived);
  }

  lemma DistinctStep(s: State, a: Step, r: nat)
    requires Enabled(s, a) && r < |s.runners| && Distinct(s.runners[r], r, s.nextId)
    ensures Distinct(Next(s, a).runners[r], r, Next(s, a).nextId)
  {
    if a.TryReturn? {
      if !Touches(s, a, r) { Untouched(s, a, r); }
    } else {
      ArrivalStep(s, a, r);
      IdsGrow(s, a, r);
      DistinctArrival(s.runners[r].native, Arrival(s, a, r), s.nextId);
    }
  }

  lemma DistinctArrival(native: seq<Invocation>, arrival: seq<Invocation>, nextId: nat)
    requires NoDup(native) && (forall k :: 0 <= k < |native| ==> native[k].id < nextId)
    requires |arrival| <= 1 && forall k :: 0 <= k < |arrival| ==> arrival[k].id == nextId
    ensures NoDup(native + arrival)
  {
  }

  lemma InvStep(s: State, a: Step)
    requires Inv(s) && Enabled(s, a)
    ensures Inv(Next(s, a))
  {
    HomedStep(s, a);
    forall r | 0 <= r < |s.runners| ensures RunnerInv(Next(s, a), r) {
      assert RunnerInv(s, r);
      DistinctStep(s, a, r);
      CountedStep(s, a, r);
    }
  }

  /** Given a match with the image top, the primitive answers true exactly when nothing that
      entered the runner later is in flight, pending or on its way into the queue. */
  lemma PrimitiveAnswers(rs: RunnerState, coming: seq<Invocation>)
    requires Agree(rs, coming) && NoDup(rs.native) && rs.image != [] && !Locked(rs)
    ensures CanReturn(rs, Last(rs.image).inv) <==> coming == []
  {
    SettledUnlocked(rs.image);
    var n := |rs.image|;
    assert rs.native[n - 1] == rs.image[n - 1].inv;
  }

  lemma AgreeStep(s: State, a: Step, r: nat)
    requires Homed(s) && Enabled(s, a) && r < |s.runners| && OrderlyStep(a, r)
    requires Agree(s.runners[r], Coming(s, r)) && NoDup(s.runners[r].native)
    ensures Agree(Next(s, a).runners[r], Coming(Next(s, a), r))
  {
    SettledStep(s, a, r);
    var rs, t := s.runners[r], Next(s, a).runners[r];
    if Pushes(s, a, r) {
      ComingPushStep(s, r);
      Associative(Settled(rs.image), [s.inFlight.value], Coming(Next(s, a), r));
    } else if a.Enqueue? && a.r == r {
      ComingEnqueueStep(s, r, a.k);
      assert rs.native + [] == rs.native;
    } else {
      ComingOtherStep(s, a, r);
      if Returns(s, a, r) {
        PrimitiveAnswers(rs, Coming(s, r));
        AgreeReturn(rs.native, t.native, Settled(rs.image), Settled(t.image), rs.image[a.k].inv);
      } else {
        Associative(Settled(rs.image), Coming(s, r), Arrival(s, a, r));
      }
    }
  }

  lemma AgreeReturn(n: seq<Invocation>, n': seq<Invocation>, q: seq<Invocation>, q': seq<Invocation>, i: Invocation)
    requires n == n' + [i] && q == q' + [i] && n == q + []
    ensures n' == q' + ([] + [])
  {
    assert n' == Front(n) && q' == Front(q);
  }

  lemma WaitsStep(s: State, a: Step, r: nat)
    requires Homed(s) && Enabled(s, a) && r < |s.runners| && OrderlyStep(a, r)
    requires Ordered(s, r) && NoDup(s.runners[r].native)
    ensures WaitsForComing(Next(s, a).runners[r], Coming(Next(s, a), r))
  {
    if a.Enqueue? && a.r == r {
      ComingEnqueueStep(s, r, a.k);
    } else if !Pushes(s, a, r) {
      ComingOtherStep(s, a, r);
    }
    if a.TryReturn? && a.r == r { PrimitiveAnswers(s.runners[r], Coming(s, r)); }
    WaitingTop(s, a, r);
  }

  /** The image top starts to wait only when the guard refuses it. */
  lemma WaitingTop(s: State, a: Step, r: nat)
    requires Enabled(s, a) && r < |s.runners|
    ensures
      var before, after := s.runners[r].image, Next(s, a).runners[r].image;
      after != [] && Last(after).phase == Waiting ==>
        && !Pushes(s, a, r)
        && ((before != [] && Last(before).phase == Waiting)
            || (a.TryReturn? && a.r == r && !CanReturn(s.runners[r], Last(before).inv)))
  {
    if !Touches(s, a, r) { Untouched(s, a, r); }
  }

  lemma OrderedStep(s: State, a: Step, r: nat)
    requires Inv(s) && Enabled(s, a) && r < |s.runners| && OrderlyStep(a, r) && Ordered(s, r)
    ensures Ordered(Next(s, a), r)
  {
    assert RunnerInv(s, r);
    AgreeStep(s, a, r);
    WaitsStep(s, a, r);
  }

  lemma {:induction false} InvRun(s: State, run: seq<Step>)
    requires Inv(s) && Valid(s, run)
    ensures Inv(Exec(s, run))
    decreases |run|
  {
    if run != [] {
      InvStep(s, run[0]);
      InvRun(Next(s, run[0]), run[1..]);
    }
  }

  lemma {:induction false} OrderedRun(s: State, run: seq<Step>, r: nat)
    requires Inv(s) && Valid(s, run) && r < |s.runners| && OrderlyRun(run, r) && Ordered(s, r)
    ensures r < |Exec(s, run).runners| && Ordered(Exec(s, run), r)
    decreases |run|
  {
    if run != [] {
      assert OrderlyStep(run[0], r);
      InvStep(s, run[0]);
      OrderedStep(s, run[0], r);
      OrderedRun(Next(s, run[0]), run[1..], r);
    }
  }

  // ---- the main results ----

  lemma InitInv(n: nat)
    ensures Inv(Init(n)) && forall r :: 0 <= r < n ==> Ordered(Init(n), r)
  {
    forall r | 0 <= r < n ensures RunnerInv(Init(n), r) && Ordered(Init(n), r) {
      assert Init(n).runners[r] == NEW_RUNNER;
    }
  }

  /** In every reachable state, whatever the interleaving, the native stack of each runner holds its
      settled image stack and what is coming, each once, and live invocations are distinct. */
  lemma ReachableInv(s: State)
    requires Reachable(s)
    ensures Inv(s)
  {
    var n: nat, run: seq<Step> :| Reaches(Init(n), run, s);
    InitInv(n);
    InvRun(Init(n), run);
  }

  lemma OrderlyReachedOrdered(s: State, r: nat)
    requires OrderlyReached(s, r) && r < |s.runners|
    ensures Reachable(s) && Inv(s) && Ordered(s, r)
  {
    var n: nat, run: seq<Step> :| Reaches(Init(n), run, s) && OrderlyRun(run, r);
    ReachableInv(s);
    RunnersStay(Init(n), run);
    InitInv(n);
    OrderedRun(Init(n), run, r);
  }

  /** Two-stack agreement, spelled out. */
  lemma StacksAgree(s: State, r: nat)
    requires OrderlyReached(s, r) && r < |s.runners|
    ensures var rs := s.runners[r];
      if CanFinish(rs) then rs.native == Invocations(Front(rs.image)) + (Backlog(s, r) + rs.entering)
      else !Locked(rs) && rs.native == Invocations(rs.image) + (Backlog(s, r) + rs.entering)
  {
    OrderlyReachedOrdered(s, r);
    AgreeSpelledOut(s.runners[r], Coming(s, r));
  }

  lemma AgreeSpelledOut(rs: RunnerState, coming: seq<Invocation>)
    requires Agree(rs, coming)
    ensures if CanFinish(rs) then rs.native == Invocations(Front(rs.image)) + coming
      else !Locked(rs) && rs.native == Invocations(rs.image) + coming
  {
  }

  /** The guard, in every state that an orderly run reaches. */
  lemma GuardMeansNothingComing(s: State, r: nat)
    requires OrderlyReached(s, r) && r < |s.runners| && s.runners[r].image != [] && !Locked(s.runners[r])
    ensures CanReturn(s.runners[r], Last(s.runners[r].image).inv) <==> Backlog(s, r) + s.runners[r].entering == []
  {
    OrderlyReachedOrdered(s, r);
    assert RunnerInv(s, r);
    PrimitiveAnswers(s.runners[r], Coming(s, r));
  }

  /** Two parts of a rearrangement of distinct elements. */
  lemma PartsDistinct(native: seq<Invocation>, a: seq<Invocation>, b: seq<Invocation>)
    requires NoDup(native) && multiset(native) == multiset(a + b)
    ensures NoDup(a) && NoDup(b)
    ensures forall i :: i in a || i in b <==> i in native
    ensures forall k :: 0 <= k < |a| ==> a[k] !in b
  {
    Rearranged(native, a + b);
    forall i ensures i in a || i in b <==> i in native {
      assert i in native <==> i in multiset(native);
      assert i in a + b <==> i in multiset(a + b);
    }
    forall j, k | 0 <= j < k < |a| ensures a[j] != a[k] {
      assert (a + b)[j] == a[j] && (a + b)[k] == a[k];
    }
    forall j, k | 0 <= j < |a| && 0 <= k < |b| ensures a[j] != b[k] {
      assert (a + b)[j] == a[j] && (a + b)[|a| + k] == b[k];
    }
    forall j, k | 0 <= j < k < |b| ensures b[j] != b[k] {
      assert (a + b)[|a| + j] == b[j] && (a + b)[|a| + k] == b[k];
    }
  }

  /** An image entry that is not being returned is on the native stack, and is not coming again. */
  lemma SettledIsNative(s: State, r: nat, k: nat)
    requires r < |s.runners| && RunnerInv(s, r) && k < |s.runners[r].image| && s.runners[r].image[k].phase != Returning
    ensures var i := s.runners[r].image[k].inv; i in s.runners[r].native && i !in Coming(s, r) && i.id < s.nextId
    ensures forall j :: 0 <= j < |s.runners[r].image| && j != k && s.runners[r].image[j].phase != Returning ==>
      s.runners[r].image[j].inv != s.runners[r].image[k].inv
  {
    var rs := s.runners[r];
    var settled := Settled(rs.image);
    PartsDistinct(rs.native, settled, Coming(s, r));
    assert settled[k] == rs.image[k].inv;
    forall j | 0 <= j < |rs.image| && j != k && rs.image[j].phase != Returning ensures rs.image[j].inv != rs.image[k].inv {
      assert settled[j] == rs.image[j].inv;
    }
  }

  /** What is coming is on the native stack, once. */
  lemma ComingIsNative(s: State, r: nat)
    requires r < |s.runners| && RunnerInv(s, r)
    ensures forall i :: i in Coming(s, r) ==> i in s.runners[r].native && i.id < s.nextId && i.runner == r
    ensures NoDup(Coming(s, r)) && NoDup(s.runners[r].entering)
  {
    var rs := s.runners[r];
    PartsDistinct(rs.native, Settled(rs.image), Coming(s, r));
    SuffixDistinct(Backlog(s, r), rs.entering);
  }

  lemma SuffixDistinct(a: seq<Invocation>, b: seq<Invocation>)
    requires NoDup(a + b)
    ensures NoDup(b)
  {
    forall j, k | 0 <= j < k < |b| ensures b[j] != b[k] {
      assert (a + b)[|a| + j] == b[j] && (a + b)[|a| + k] == b[k];
    }
  }

  // ---- entries of the worker's own thread ----

  /** The worker's own thread can be inside one entry only, the innermost. */
  ghost predicate OwnEntryInnermost(rs: RunnerState) {
    forall k :: 0 <= k < |rs.entering| && !rs.entering[k].foreign ==>
      rs.frames != [] && Last(rs.frames) == BackFrame(rs.entering[k])
  }

  lemma OwnEntryStep(s: State, a: Step, r: nat)
    requires Enabled(s, a) && r < |s.runners| && OwnEntryInnermost(s.runners[r])
    ensures OwnEntryInnermost(Next(s, a).runners[r])
  {
    if a.CrossCallback? {
      CrossEffect(s, a.q, a.r);
      if !Touches(s, a, r) { Untouched(s, a, r); }
    } else if !Touches(s, a, r) {
      Untouched(s, a, r);
    } else if a.Enqueue? {
      assert forall i :: i in Next(s, a).runners[r].entering ==> i in s.runners[r].entering;
    }
  }

  predicate NoForeignEntry(run: seq<Step>, r: nat) {
    forall k :: 0 <= k < |run| && Enters(run[k], r) ==> run[k].OwnCallback?
  }

  lemma OwnEntryAlone(s: State, r: nat)
    requires r < |s.runners| && RunnerInv(s, r) && OwnEntryInnermost(s.runners[r])
    requires forall i :: i in s.runners[r].entering ==> !i.foreign
    ensures |s.runners[r].entering| <= 1
  {
    ComingIsNative(s, r);
    var rs := s.runners[r];
    forall k | 0 <= k < |rs.entering| ensures rs.frames != [] && Last(rs.frames) == BackFrame(rs.entering[k]) {
      assert rs.entering[k] in rs.entering;
    }
    if rs.entering != [] {
      var first := rs.entering[0];
      AllOneFrame(rs.entering, BackFrame(first));
    }
  }

  lemma AllOneFrame(entering: seq<Invocation>, f: Frame)
    requires forall k :: 0 <= k < |entering| ==> f == BackFrame(entering[k])
    ensures |entering| > 1 ==> entering[0] == entering[1]
  {
  }

  lemma OwnEntriesStep(s: State, a: Step, r: nat)
    requires Enabled(s, a) && r < |s.runners| && (Enters(a, r) ==> a.OwnCallback?)
    requires forall i :: i in s.runners[r].entering ==> !i.foreign
    ensures forall i :: i in Next(s, a).runners[r].entering ==> !i.foreign
  {
    EnteringStep(s, a, r);
  }

  /** Without callbacks from other threads, entries are one at a time with no lock at all. */
  lemma {:induction false} OwnEntriesAreOneAtATime(s: State, run: seq<Step>, r: nat)
    requires Inv(s) && Valid(s, run) && r < |s.runners| && NoForeignEntry(run, r)
    requires OwnEntryInnermost(s.runners[r]) && forall i :: i in s.runners[r].entering ==> !i.foreign
    ensures OneAtATime(s, run, r)
    decreases |run|
  {
    assert RunnerInv(s, r);
    OwnEntryAlone(s, r);
    if run != [] {
      InvStep(s, run[0]);
      OwnEntryStep(s, run[0], r);
      OwnEntriesStep(s, run[0], r);
      OwnEntriesAreOneAtATime(Next(s, run[0]), run[1..], r);
    }
  }

  /** So on a runner that only its own thread enters, every run is orderly. */
  lemma OwnThreadIsOrderly(n: nat, run: seq<Step>, r: nat)
    requires r < n && Valid(Init(n), run) && NoForeignEntry(run, r)
    ensures OneAtATime(Init(n), run, r) && OrderlyRun(run, r)
  {
    InitInv(n);
    assert Init(n).runners[r] == NEW_RUNNER;
    OwnEntriesAreOneAtATime(Init(n), run, r);
    OneAtATimeIsOrderly(Init(n), run, r);
  }
}
