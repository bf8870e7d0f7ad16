/** Once nothing enters any more, every live callback returns, in reverse entry order.

    The retry loop of `returnCallback:` with `signalAll` cannot run for ever: what the image does
    between entries is bounded by a budget computed from the state. When invocations are queued in
    the order of their pushes it cannot stall either: when the image has nothing left to do, every
    callback has returned unless the newest one of a runner is itself blocked inside a callout.
    EntryOrder says exactly when it can stall. */
module ReturnDrain {
  import opened Prelude
  import opened Protocol
  import opened StackAgreement

  predicate Entry(a: Step) {
    a.OwnCallback? || a.ForeignCallback? || a.CrossCallback?
  }

  predicate ImageStep(a: Step) {
    a.ReadPending? || a.PushImage? || a.BlockEnds? || a.TryReturn? || a.FinishReturn?
  }

  predicate EntryFree(run: seq<Step>) {
    forall k :: 0 <= k < |run| ==> !Entry(run[k])
  }

  /** A step that brings a pushed invocation further on its way to its return. */
  predicate Settles(a: Step) {
    a.Enqueue? || ImageStep(a)
  }

  function SettlingSteps(run: seq<Step>): nat {
    if run == [] then 0 else (if Settles(run[0]) then 1 else 0) + SettlingSteps(run[1..])
  }

  // ---- order ----

  /** `t` is `s` after returning the newest invocations of `s`, newest first, and nothing else. */
  ghost predicate ReturnedSince(s: RunnerState, t: RunnerState) {
    && |t.native| <= |s.native|
    && t.native == s.native[..|t.native|]
    && t.returned == s.returned + Reverse(s.native[|t.native|..])
  }

  lemma ReverseSnoc<T>(x: T, q: seq<T>)
    ensures Reverse([x] + q) == Reverse(q) + [x]
  {
  }

  lemma ReturnedOne(s0: RunnerState, rs: RunnerState, t: RunnerState)
    requires ReturnedSince(s0, rs) && rs.native != []
    requires t.native == Front(rs.native) && t.returned == rs.returned + [Last(rs.native)]
    ensures ReturnedSince(s0, t)
  {
    var n := |t.native|;
    assert s0.native[n..] == [Last(rs.native)] + s0.native[n + 1..];
    ReverseSnoc(Last(rs.native), s0.native[n + 1..]);
    Associative(s0.returned, Reverse(s0.native[n + 1..]), [Last(rs.native)]);
  }

  lemma ReturnedSinceStep(s0: RunnerState, s: State, a: Step, r: nat)
    requires Enabled(s, a) && !Entry(a) && r < |s.runners| && ReturnedSince(s0, s.runners[r])
    ensures ReturnedSince(s0, Next(s, a).runners[r])
  {
    var rs, t := s.runners[r], Next(s, a).runners[r];
    if !Touches(s, a, r) {
      Untouched(s, a, r);
    } else if a.TryReturn? && ReturnSucceeds(rs, a.k) {
      ReturnedOne(s0, rs, t);
    }
  }

  lemma {:induction false} ReturnedSinceRun(s0: RunnerState, s: State, run: seq<Step>, r: nat)
    requires Valid(s, run) && EntryFree(run) && r < |s.runners| && ReturnedSince(s0, s.runners[r])
    ensures r < |Exec(s, run).runners| && ReturnedSince(s0, Exec(s, run).runners[r])
    decreases |run|
  {
    if run != [] {
      ReturnedSinceStep(s0, s, run[0], r);
      ReturnedSinceRun(s0, Next(s, run[0]), run[1..], r);
    }
  }

  // ---- no stall ----

  /** No pushed invocation can be brought any further. */
  ghost predicate Quiet(s: State) {
    forall a :: Settles(a) ==> !Enabled(s, a)
  }

  /** The newest callback of runner `r` is blocked inside a callout of its own. */
  predicate TopBlocked(s: State, r: nat)
    requires r < |s.runners|
  {
    var image := s.runners[r].image;
    image != [] && Last(image).phase == Executing && OfCallback(Last(image).inv) in s.awaiting
  }

  lemma InFlightMoves(s: State)
    requires Inv(s) && s.inFlight.Some?
    ensures Enabled(s, PushImage) || Enabled(s, FinishReturn(s.inFlight.value.runner))
  {
    assert s.inFlight.value in InFlight(s) + s.pending;
    assert RunnerInv(s, s.inFlight.value.runner);
  }

  lemma QuietHasNothingComing(s: State)
    requires Inv(s) && Quiet(s)
    ensures s.inFlight == None && s.pending == []
    ensures forall r :: 0 <= r < |s.runners| ==> Coming(s, r) == []
  {
    assert !Enabled(s, ReadPending);
    if s.inFlight.Some? { InFlightMoves(s); }
    forall r | 0 <= r < |s.runners| ensures Coming(s, r) == [] {
      assert !Enabled(s, Enqueue(r, 0));
      NothingQueued(s, r);
    }
  }

  lemma NothingQueued(s: State, r: nat)
    requires s.inFlight == None && s.pending == [] && r < |s.runners| && s.runners[r].entering == []
    ensures Coming(s, r) == []
  {
  }

  /** When nothing moves, an orderly runner has returned everything or its newest callback is blocked. */
  lemma QuietRunner(s: State, r: nat)
    requires Inv(s) && Quiet(s) && r < |s.runners| && Ordered(s, r)
    ensures TopBlocked(s, r) || (s.runners[r].image == [] && s.runners[r].native == [])
  {
    QuietHasNothingComing(s);
    assert RunnerInv(s, r);
    var image := s.runners[r].image;
    if image != [] {
      assert !Enabled(s, FinishReturn(r)) && !Enabled(s, TryReturn(r, |image| - 1));
      assert !Enabled(s, BlockEnds(r, |image| - 1, Void));
    }
  }

  // ---- no endless retry ----

  function Weight(p: Phase): nat {
    if p == Executing then 2 else if p == Awake then 1 else 0
  }

  function Weights(image: seq<Live>): (w: nat)
    ensures w <= 2 * |image|
  {
    if image == [] then 0 else Weights(Front(image)) + Weight(Last(image).phase)
  }

  /** Invocations on the image stacks, and what their processes still have to do before they wait. */
  function Stacked(runners: seq<RunnerState>): nat {
    if runners == [] then 0 else Stacked(Front(runners)) + |Last(runners).image|
  }

  function Unsettled(runners: seq<RunnerState>): nat {
    if runners == [] then 0 else Unsettled(Front(runners)) + Weights(Last(runners).image)
  }

  function Incoming(runners: seq<RunnerState>): nat {
    if runners == [] then 0 else Incoming(Front(runners)) + |Last(runners).entering|
  }

  function Unpushed(s: State): nat {
    3 * Incoming(s.runners) + 2 * |s.pending| + if s.inFlight.Some? then 1 else 0
  }

  /** All invocations alive in the image or on their way to it. */
  function Population(s: State): nat {
    Incoming(s.runners) + |s.pending| + (if s.inFlight.Some? then 1 else 0) + Stacked(s.runners)
  }

  /** An upper bound of the settling steps left, for at most `n` invocations alive. */
  function Budget(s: State, n: nat): nat {
    Cost(n, Unpushed(s), Stacked(s.runners), Unsettled(s.runners))
  }

  function Cost(n: nat, unpushed: nat, stacked: nat, unsettled: nat): nat {
    (n + 3) * unpushed + n * stacked + unsettled
  }

  lemma {:induction false} SumsUpdate(runners: seq<RunnerState>, r: nat, rs: RunnerState)
    requires r < |runners|
    ensures Stacked(runners[r := rs]) + |runners[r].image| == Stacked(runners) + |rs.image|
    ensures Unsettled(runners[r := rs]) + Weights(runners[r].image) == Unsettled(runners) + Weights(rs.image)
    ensures Incoming(runners[r := rs]) + |runners[r].entering| == Incoming(runners) + |rs.entering|
    decreases |runners|
  {
    var u := runners[r := rs];
    if r == |runners| - 1 {
      assert Front(u) == Front(runners);
    } else {
      SumsUpdate(Front(runners), r, rs);
      assert Front(u) == Front(runners)[r := rs];
    }
  }

  lemma {:induction false} SumsSame(a: seq<RunnerState>, b: seq<RunnerState>)
    requires |a| == |b| && forall r :: 0 <= r < |a| ==> a[r].image == b[r].image && a[r].entering == b[r].entering
    ensures Stacked(a) == Stacked(b) && Unsettled(a) == Unsettled(b) && Incoming(a) == Incoming(b)
    decreases |a|
  {
    if a != [] {
      SumsSame(Front(a), Front(b));
    }
  }

  lemma {:induction false} WeightsUpdate(image: seq<Live>, k: nat, p: Phase)
    requires k < |image|
    ensures Weights(WithPhase(image, k, p)) + Weight(image[k].phase) == Weights(image) + Weight(p)
    decreases |image|
  {
    var u := WithPhase(image, k, p);
    if k == |image| - 1 {
      assert Front(u) == Front(image);
    } else {
      WeightsUpdate(Front(image), k, p);
      assert Front(u) == WithPhase(Front(image), k, p);
    }
  }

  /** Waking every waiting process costs at most one retry each. */
  lemma {:induction false} WeightsWake(image: seq<Live>)
    ensures Weights(WakeAll(image)) <= Weights(image) + |image|
    decreases |image|
  {
    if image != [] {
      WeightsWake(Front(image));
      assert Front(WakeAll(image)) == WakeAll(Front(image));
    }
  }

  lemma {:induction false} StackedBounds(runners: seq<RunnerState>, r: nat)
    requires r < |runners|
    ensures |runners[r].image| <= Stacked(runners)
    decreases |runners|
  {
    if r < |runners| - 1 {
      StackedBounds(Front(runners), r);
    }
  }

  lemma PhaseStepCosts(s: State, a: Step)
    requires Enabled(s, a) && (a.BlockEnds? || a.TryReturn?)
    ensures (var t := Next(s, a);
      && Unpushed(t) == Unpushed(s) && Population(t) == Population(s)
      && Stacked(t.runners) == Stacked(s.runners) && Unsettled(t.runners) < Unsettled(s.runners))
  {
    var rs := s.runners[a.r];
    var p := if a.BlockEnds? then Awake else if ReturnSucceeds(rs, a.k) then Returning else Waiting;
    WeightsUpdate(rs.image, a.k, p);
    var t := Next(s, a);
    PhaseStepImage(s, a, p);
    SumsUpdate(s.runners, a.r, t.runners[a.r]);
  }

  lemma PhaseStepImage(s: State, a: Step, p: Phase)
    requires Enabled(s, a) && (a.BlockEnds? || a.TryReturn?)
    requires p == if a.BlockEnds? then Awake else if ReturnSucceeds(s.runners[a.r], a.k) then Returning else Waiting
    ensures var t := Next(s, a);
      && a.r < |t.runners| && t.runners == s.runners[a.r := t.runners[a.r]]
      && t.runners[a.r].image == WithPhase(s.runners[a.r].image, a.k, p)
      && t.runners[a.r].entering == s.runners[a.r].entering && t.pending == s.pending && t.inFlight == s.inFlight
  {
  }

  lemma FinishStepCosts(s: State, r: nat)
    requires Enabled(s, FinishReturn(r))
    ensures (var t := Next(s, FinishReturn(r));
      && Unpushed(t) == Unpushed(s) && Population(t) == Population(s) - 1
      && Stacked(t.runners) == Stacked(s.runners) - 1 && Unsettled(t.runners) < Unsettled(s.runners) + Stacked(s.runners))
  {
    var rs, t := s.runners[r], Next(s, FinishReturn(r));
    assert t.runners == s.runners[r := t.runners[r]];
    SumsUpdate(s.runners, r, t.runners[r]);
    WeightsWake(Front(rs.image));
    StackedBounds(s.runners, r);
  }

  lemma PushStepCosts(s: State)
    requires Enabled(s, PushImage)
    ensures (var t := Next(s, PushImage);
      && Unpushed(t) == Unpushed(s) - 1 && Population(t) == Population(s)
      && Stacked(t.runners) == Stacked(s.runners) + 1 && Unsettled(t.runners) == Unsettled(s.runners) + 2)
  {
    var r := s.inFlight.value.runner;
    var t := Next(s, PushImage);
    assert t.runners == s.runners[r := t.runners[r]];
    assert Front(t.runners[r].image) == s.runners[r].image;
    SumsUpdate(s.runners, r, t.runners[r]);
  }

  lemma EnqueueStepCosts(s: State, r: nat, k: nat)
    requires Enabled(s, Enqueue(r, k))
    ensures (var t := Next(s, Enqueue(r, k));
      && Unpushed(t) == Unpushed(s) - 1 && Population(t) == Population(s)
      && Stacked(t.runners) == Stacked(s.runners) && Unsettled(t.runners) == Unsettled(s.runners))
  {
    var t := Next(s, Enqueue(r, k));
    assert t.runners == s.runners[r := t.runners[r]];
    SumsUpdate(s.runners, r, t.runners[r]);
  }

  lemma OtherStepCosts(s: State, a: Step)
    requires Enabled(s, a) && !Entry(a) && (Settles(a) ==> a.ReadPending?)
    ensures (var t := Next(s, a);
      && Unpushed(t) + (if a.ReadPending? then 1 else 0) == Unpushed(s) && Population(t) == Population(s)
      && Stacked(t.runners) == Stacked(s.runners) && Unsettled(t.runners) == Unsettled(s.runners))
  {
    var t := Next(s, a);
    forall r | 0 <= r < |s.runners|
      ensures t.runners[r].image == s.runners[r].image && t.runners[r].entering == s.runners[r].entering
    {
      if !Touches(s, a, r) { Untouched(s, a, r); }
    }
    SumsSame(s.runners, t.runners);
  }

  lemma CostOfPush(n: nat, u: nat, x: nat, w: nat)
    requires u > 0
    ensures Cost(n, u - 1, x + 1, w + 2) < Cost(n, u, x, w) && Cost(n, u - 1, x, w) < Cost(n, u, x, w)
  {
    assert n * (x + 1) == n * x + n;
    assert (n + 3) * (u - 1) == (n + 3) * u - n - 3;
  }

  lemma CostOfPop(n: nat, u: nat, x: nat, w: nat, w': nat)
    requires x > 0 && w' < w + n
    ensures Cost(n, u, x - 1, w') < Cost(n, u, x, w)
  {
    assert n * (x - 1) == n * x - n;
  }

  lemma BudgetStep(s: State, a: Step, n: nat)
    requires Enabled(s, a) && !Entry(a) && Population(s) <= n
    ensures Budget(Next(s, a), n) + (if Settles(a) then 1 else 0) <= Budget(s, n)
    ensures Population(Next(s, a)) <= n
  {
    if a.PushImage? || a.Enqueue? || a.ReadPending? {
      ArrivalCosts(s, a, n);
    } else if a.BlockEnds? || a.TryReturn? {
      PhaseStepCosts(s, a);
    } else if a.FinishReturn? {
      FinishStepCosts(s, a.r);
      CostOfPop(n, Unpushed(s), Stacked(s.runners), Unsettled(s.runners), Unsettled(Next(s, a).runners));
    } else {
      OtherStepCosts(s, a);
    }
  }

  lemma ArrivalCosts(s: State, a: Step, n: nat)
    requires Enabled(s, a) && (a.PushImage? || a.Enqueue? || a.ReadPending?)
    ensures Budget(Next(s, a), n) < Budget(s, n) && Population(Next(s, a)) == Population(s)
  {
    if a.PushImage? {
      PushStepCosts(s);
    } else if a.Enqueue? {
      EnqueueStepCosts(s, a.r, a.k);
    } else {
      OtherStepCosts(s, a);
    }
    Further(s, Next(s, a), n);
  }

  /** One invocation further, and perhaps on the image stack. */
  lemma Further(s: State, t: State, n: nat)
    requires Unpushed(s) > 0 && Unpushed(t) == Unpushed(s) - 1
    requires (Stacked(t.runners) == Stacked(s.runners) && Unsettled(t.runners) == Unsettled(s.runners))
      || (Stacked(t.runners) == Stacked(s.runners) + 1 && Unsettled(t.runners) == Unsettled(s.runners) + 2)
    ensures Budget(t, n) < Budget(s, n)
  {
    CostOfPush(n, Unpushed(s), Stacked(s.runners), Unsettled(s.runners));
  }

  lemma {:induction false} BudgetRun(s: State, run: seq<Step>, n: nat)
    requires Valid(s, run) && EntryFree(run) && Population(s) <= n
    ensures SettlingSteps(run) + Budget(Exec(s, run), n) <= Budget(s, n)
    decreases |run|
  {
    if run != [] {
      BudgetStep(s, run[0], n);
      BudgetRun(Next(s, run[0]), run[1..], n);
    }
  }

  // ---- the main results ----

  /** Between entries a bounded number of settling steps happen, whatever the schedule. */
  lemma RetriesAreBounded(s: State, run: seq<Step>)
    requires Valid(s, run) && EntryFree(run)
    ensures SettlingSteps(run) <= Budget(s, Population(s))
  {
    BudgetRun(s, run, Population(s));
  }

  /** Return drain: after any orderly schedule without entries that leaves nothing to settle, the runner
      has returned all its live callbacks in exact reverse entry order, unless its newest one is blocked
      inside a callout; the callbacks under that one are then still there, in order. */
  lemma AllReturnInReverse(s: State, run: seq<Step>, r: nat)
    requires r < |s.runners| && OrderlyReached(s, r)
    requires Valid(s, run) && EntryFree(run) && OrderlyRun(run, r) && Quiet(Exec(s, run))
    ensures var t := Exec(s, run);
      && r < |t.runners|
      && ReturnedSince(s.runners[r], t.runners[r])
      && (TopBlocked(t, r) ||
          (t.runners[r].native == [] && t.runners[r].image == []
           && t.runners[r].returned == s.runners[r].returned + Reverse(s.runners[r].native)))
  {
    assert s.runners[r].native[|s.runners[r].native|..] == [];
    ReturnedSinceRun(s.runners[r], s, run, r);
    OrderlyReachedOrdered(s, r);
    InvRun(s, run);
    OrderedRun(s, run, r);
    QuietRunner(Exec(s, run), r);
    assert s.runners[r].native[0..] == s.runners[r].native;
  }

  /** Such schedules exist: any run without entries can be continued, queueing what was pushed first,
      until nothing is left to settle. */
  lemma {:induction false} ReachesQuiet(s: State) returns (run: seq<Step>)
    ensures Valid(s, run) && EntryFree(run) && Quiet(Exec(s, run))
    ensures forall r :: OrderlyRun(run, r)
    decreases Budget(s, Population(s))
  {
    if Quiet(s) {
      run := [];
    } else {
      var a := OrderlySettling(s);
      BudgetStep(s, a, Population(s));
      BudgetShrinks(Next(s, a), Population(Next(s, a)), Population(s));
      var rest := ReachesQuiet(Next(s, a));
      run := [a] + rest;
      ExecCons(s, a, rest);
      OrderlyCons(a, rest);
    }
  }

  lemma OrderlyCons(a: Step, rest: seq<Step>)
    requires !Entry(a) && EntryFree(rest)
    requires forall r :: OrderlyStep(a, r) && OrderlyRun(rest, r)
    ensures EntryFree([a] + rest) && forall r :: OrderlyRun([a] + rest, r)
  {
    forall r ensures OrderlyRun([a] + rest, r) {
      assert OrderlyStep(a, r) && OrderlyRun(rest, r);
    }
  }

  lemma OrderlySettling(s: State) returns (a: Step)
    requires !Quiet(s)
    ensures Settles(a) && Enabled(s, a) && forall r :: OrderlyStep(a, r)
  {
    a :| Settles(a) && Enabled(s, a);
    if a.Enqueue? { a := Enqueue(a.r, 0); }
  }

  lemma BudgetShrinks(s: State, m: nat, n: nat)
    requires m <= n
    ensures Budget(s, m) <= Budget(s, n)
  {
    var x, u := Stacked(s.runners), Unpushed(s);
    assert m * x <= n * x;
    assert (m + 3) * u <= (n + 3) * u;
  }
}
