/** When the whole system comes to rest with nothing left.

    Besides entries and new callouts, every step uses up something, so there are finitely many of them.
    When none is possible any more, and invocations were queued in the order of their pushes, a worker
    can still wait inside a callback of another runner and serve no task, and the process of a callback
    can still wait for a callout. Following who waits for whom, one gets to less and less of the runners
    behind a worker that is away, and to newer and newer callbacks otherwise. So if no cycle of the calls
    that the program makes between runners goes through a callback of another runner, all stacks, queues
    and C stacks are empty and nobody waits. Deadlock shows that otherwise something can be left. */
module Quiescence {
  import opened Prelude
  import opened Protocol
  import opened Frames
  import opened StackAgreement
  import opened ReturnDrain
  import opened CallGraph
  import opened Ages
  import ForeignCallbacks

  /** The step brings something new into the system. */
  predicate Fresh(a: Step) {
    Entry(a) || a.Dispatch?
  }

  /** Nothing can go on by itself. */
  ghost predicate AtRest(s: State) {
    forall a :: !Fresh(a) ==> !Enabled(s, a)
  }

  ghost predicate Empty(s: State) {
    && s.pending == [] && s.inFlight == None && s.awaiting == map[] && s.signals == multiset{}
    && forall r :: 0 <= r < |s.runners| ==>
        var rs := s.runners[r];
        rs.native == [] && rs.entering == [] && rs.tasks == [] && rs.frames == [] && rs.image == []
  }

  /** Everywhere what was pushed first is queued first. */
  predicate Orderly(run: seq<Step>) {
    forall k :: 0 <= k < |run| && run[k].Enqueue? ==> run[k].k == 0
  }

  /** The state was reached by an orderly run of `n` runners that makes permitted calls only. */
  ghost predicate ReachedWithin(s: State, n: nat, e: Permits) {
    exists run :: Reaches(Init(n), run, s) && Within(run, e) && Orderly(run)
  }

  // ---- who is in a callback of another runner ----

  /** The callouts that blocks wait for are permitted. */
  ghost predicate CallsPermitted(s: State, e: Permits) {
    forall p :: p in s.awaiting && p.OfCallback? ==> (p.inv.runner, s.awaiting[p].runner) in e.calls
  }

  /** The worker `q`, which is away, waits for one invocation, which is in one place. */
  ghost predicate WaitsAway(s: State, e: Permits, q: nat)
    requires q < |s.runners| && Away(s.runners[q])
  {
    var w := Last(s.runners[q].frames).inv;
    && w.foreign && w.runner < |s.runners| && w.runner != q && (q, w.runner) in e.cross
    && w.id < s.nextId && ForeignCallbacks.Places(s, w) == 1 && w !in s.resumed
  }

  ghost predicate Crossed(s: State, e: Permits) {
    && (forall q :: 0 <= q < |s.runners| && Away(s.runners[q]) ==> WaitsAway(s, e, q))
    && (forall q, r :: 0 <= q < r < |s.runners| && Away(s.runners[q]) && Away(s.runners[r]) ==>
          Last(s.runners[q].frames) != Last(s.runners[r].frames))
  }

  lemma CallsPermittedStep(s: State, a: Step, e: Permits)
    requires CallsPermitted(s, e) && Enabled(s, a) && WithinStep(a, e)
    ensures CallsPermitted(Next(s, a), e)
  {
    forall p | p in Next(s, a).awaiting && p.OfCallback?
      ensures (p.inv.runner, Next(s, a).awaiting[p].runner) in e.calls
    {
      AwaitingStep(s, a, p);
    }
  }

  /** A worker goes away by calling a callback of another runner only. */
  lemma AwayEffect(s: State, a: Step, q: nat)
    requires Enabled(s, a) && q < |s.runners| && Alternating(s.runners[q].frames)
    ensures Away(Next(s, a).runners[q]) ==>
      if a.CrossCallback? && a.q == q then Last(Next(s, a).runners[q].frames) == WaitFrame(Invocation(s.nextId, a.r, true))
      else Next(s, a).runners[q].frames == s.runners[q].frames && a != CrossResumes(q)
  {
    FramesEffect(s, a, q);
  }

  /** Only the worker that waits for it makes an invocation resumed. */
  lemma ResumedStep(s: State, a: Step, e: Permits, q: nat)
    requires Enabled(s, a) && Crossed(s, e) && q < |s.runners| && Away(s.runners[q]) && a != CrossResumes(q)
    ensures Last(s.runners[q].frames).inv !in Next(s, a).resumed
  {
    assert WaitsAway(s, e, q);
    var w := Last(s.runners[q].frames).inv;
    if a.CrossResumes? {
      assert WaitsAway(s, e, a.r);
      assert Last(s.runners[a.r].frames) != Last(s.runners[q].frames);
    } else if a.ForeignResumes? {
      assert Last(s.runners[q].frames) == WaitFrame(w);
    }
  }

  lemma WaitsAwayStep(s: State, a: Step, e: Permits, q: nat)
    requires Reachable(s) && Crossed(s, e) && Enabled(s, a) && WithinStep(a, e)
    requires q < |s.runners| && Away(Next(s, a).runners[q])
    ensures |Next(s, a).runners| == |s.runners| && WaitsAway(Next(s, a), e, q)
  {
    FramesConserved(s, q);
    AwayEffect(s, a, q);
    IdsGrow(s, a, q);
    var w := Last(Next(s, a).runners[q].frames).inv;
    ForeignCallbacks.ReachableReturnsHomed(s);
    if a.CrossCallback? && a.q == q {
      ForeignCallbacks.ReachableTracked(s, w);
      CrossEffect(s, q, a.r);
    } else {
      assert WaitsAway(s, e, q);
      ResumedStep(s, a, e, q);
    }
    ForeignCallbacks.PlacesConserved(s, a, w);
  }

  lemma CrossedStep(s: State, a: Step, e: Permits)
    requires Reachable(s) && Crossed(s, e) && Enabled(s, a) && WithinStep(a, e)
    ensures Crossed(Next(s, a), e)
  {
    var t := Next(s, a);
    forall q | 0 <= q < |t.runners| && Away(t.runners[q]) ensures WaitsAway(t, e, q) {
      WaitsAwayStep(s, a, e, q);
    }
    forall q, r | 0 <= q < r < |t.runners| && Away(t.runners[q]) && Away(t.runners[r])
      ensures Last(t.runners[q].frames) != Last(t.runners[r].frames)
    {
      AwayApart(s, a, e, q, r);
    }
  }

  lemma AwayApart(s: State, a: Step, e: Permits, q: nat, r: nat)
    requires Reachable(s) && Crossed(s, e) && Enabled(s, a) && q < |s.runners| && r < |s.runners| && q != r
    requires Away(Next(s, a).runners[q]) && Away(Next(s, a).runners[r])
    ensures Last(Next(s, a).runners[q].frames) != Last(Next(s, a).runners[r].frames)
  {
    FramesConserved(s, q);
    FramesConserved(s, r);
    AwayEffect(s, a, q);
    AwayEffect(s, a, r);
    if a.CrossCallback? && a.q == q {
      assert WaitsAway(s, e, r);
    } else {
      assert WaitsAway(s, e, q);
    }
  }

  lemma {:induction false} CrossedRun(s: State, run: seq<Step>, e: Permits)
    requires Reachable(s) && Crossed(s, e) && CallsPermitted(s, e) && Valid(s, run) && Within(run, e)
    ensures Crossed(Exec(s, run), e) && CallsPermitted(Exec(s, run), e)
    decreases |run|
  {
    if run != [] {
      ReachableStep(s, run[0]);
      CrossedStep(s, run[0], e);
      CallsPermittedStep(s, run[0], e);
      CrossedRun(Next(s, run[0]), run[1..], e);
    }
  }

  // ---- the state at rest ----

  ghost predicate AllOrdered(s: State) {
    forall r :: 0 <= r < |s.runners| ==> Ordered(s, r)
  }

  /** What holds of a state at rest that was reached within `e`. */
  ghost predicate Rests(s: State, n: nat, e: Permits) {
    AgesHold(s) && AllOrdered(s) && AtRest(s) && Crossed(s, e) && CallsPermitted(s, e) && |s.runners| == n
  }

  lemma ReachedRests(s: State, n: nat, e: Permits)
    requires ReachedWithin(s, n, e) && AtRest(s)
    ensures Rests(s, n, e) && Reachable(s)
  {
    var run :| Reaches(Init(n), run, s) && Within(run, e) && Orderly(run);
    ReachableInit(n);
    CrossedRun(Init(n), run, e);
    ReachableAgesHold(s);
    RunnersStay(Init(n), run);
    forall r | 0 <= r < n ensures Ordered(s, r) {
      assert OrderlyRun(run, r);
      OrderlyReachedOrdered(s, r);
    }
  }

  /** At rest nothing is entering and no function runs; the queue of a worker is empty unless it is away. */
  lemma AtRestQueues(s: State, r: nat)
    requires AgesHold(s) && AtRest(s) && r < |s.runners|
    ensures s.runners[r].entering == [] && !InFunction(s.runners[r]) && (s.runners[r].tasks == [] || Away(s.runners[r]))
    ensures Balanced(s.runners[r]) && Aged(s.runners[r], s.nextId)
  {
    assert Balanced(s.runners[r]);
    assert !Enabled(s, CalloutEnds(r, Void)) && !Enabled(s, Enqueue(r, 0)) && !Enabled(s, TakeTask(r));
  }

  lemma AtRestIsQuiet(s: State)
    requires AtRest(s)
    ensures Quiet(s)
  {
  }

  /** A settled runner at rest: the native top is the image top. */
  lemma TopsAgree(s: State, r: nat)
    requires AgesHold(s) && AtRest(s) && AllOrdered(s) && r < |s.runners|
    ensures s.runners[r].native != [] ==>
      TopBlocked(s, r) && Last(s.runners[r].native) == Last(s.runners[r].image).inv
    ensures TopBlocked(s, r) ==> s.runners[r].native != []
    ensures s.runners[r].native == [] ==> s.runners[r].image == []
  {
    AtRestIsQuiet(s);
    QuietHasNothingComing(s);
    assert Ordered(s, r);
    QuietRunner(s, r);
    SettledTops(s.runners[r]);
  }

  lemma SettledTops(rs: RunnerState)
    requires Agree(rs, [])
    ensures rs.image != [] && Last(rs.image).phase == Executing ==> rs.native != [] && Last(rs.native) == Last(rs.image).inv
    ensures rs.native == [] && rs.image != [] ==> Last(rs.image).phase == Returning
  {
    assert Settled(rs.image) + [] == Settled(rs.image);
  }

  lemma InnermostLoop(rs: RunnerState)
    requires rs.frames != [] && !InFunction(rs) && !Away(rs) && !rs.rootReturned
    ensures Last(rs.frames).BackFrame? && BackInvocations(rs.frames) != []
    ensures Last(BackInvocations(rs.frames)) == Last(rs.frames).inv
  {
  }

  /** A callout on the C stack was issued by a callback older than the newest one of the runner. */
  lemma NewestIsNewer(rs: RunnerState, m: nat, nextId: nat)
    requires Aged(rs, nextId) && !InFunction(rs) && !Away(rs) && !rs.rootReturned
    requires |BackInvocations(rs.frames)| == |Own(rs.native)|
    requires m < |rs.frames| && rs.frames[m].CallFrame? && rs.frames[m].call.caller.OfCallback?
    ensures rs.native != [] && rs.frames[m].call.caller.inv.id < Last(rs.native).id
  {
    InnermostLoop(rs);
    OlderThanLast(rs.frames, m);
    LoopsEnd(BackInvocations(rs.frames), Own(rs.native));
    NewestOnTop(rs.native, Last(Own(rs.native)));
  }

  lemma OlderThanLast(frames: seq<Frame>, m: nat)
    requires forall j, k :: 0 <= j < k < |frames| ==> Older(frames[j], frames[k])
    requires m < |frames| && frames[m].CallFrame? && frames[m].call.caller.OfCallback? && Last(frames).BackFrame?
    ensures frames[m].call.caller.inv.id < Last(frames).inv.id
  {
    assert Older(frames[m], frames[|frames| - 1]);
  }

  lemma LoopsEnd(loops: seq<Invocation>, own: seq<Invocation>)
    requires LoopsOlder(loops, own) && |loops| == |own| && loops != []
    ensures own != [] && Last(loops).id <= Last(own).id && Last(own) in own
  {
  }

  lemma NewestOnTop(native: seq<Invocation>, i: Invocation)
    requires Sorted(native) && i in native
    ensures i.id <= Last(native).id
  {
    var k :| 0 <= k < |native| && native[k] == i;
    assert k < |native| - 1 ==> native[k].id < native[|native| - 1].id;
  }

  // ---- who waits for whom ----

  /** Something waits on runner `r`: its worker, or the process of its newest callback. */
  predicate Stuck(s: State, r: nat)
    requires r < |s.runners|
  {
    Away(s.runners[r]) || TopBlocked(s, r)
  }

  /** The newest callback of the runner. */
  function TopId(s: State, r: nat): nat
    requires r < |s.runners| && TopBlocked(s, r)
  {
    Last(s.runners[r].image).inv.id
  }

  /** The worker waits for a callback of a runner on which something waits. */
  lemma AwayWaits(s: State, n: nat, e: Permits, q: nat) returns (r: nat)
    requires Rests(s, n, e) && q < n && Away(s.runners[q])
    ensures Crosses(n, e, q, r) && Stuck(s, r)
  {
    assert WaitsAway(s, e, q);
    var w := Last(s.runners[q].frames).inv;
    r := w.runner;
    assert !Enabled(s, CrossResumes(q));
    AtRestQueues(s, r);
    TopsAgree(s, r);
    NotResumed(s, w);
  }

  lemma NotResumed(s: State, w: Invocation)
    requires w.runner < |s.runners| && ForeignCallbacks.Places(s, w) == 1 && w !in s.resumed && s.signals[w] == 0
    ensures s.runners[w.runner].native != [] || s.runners[w.runner].tasks != []
  {
  }

  /** The callout that a process waits for is queued or running on its runner. */
  lemma AwaitedIsLocated(s: State, n: nat, e: Permits, p: Process)
    requires Rests(s, n, e) && p in s.awaiting
    ensures
      var c := s.awaiting[p];
      c.caller == p && c.runner < n && (Callout(c) in s.runners[c.runner].tasks || CallFrame(c) in s.runners[c.runner].frames)
  {
    assert !Enabled(s, CallerResumes(p));
    assert Located(s, s.awaiting[p]);
  }

  /** The process of the newest callback waits for a callout on a runner on which something waits, and if
      it is not the worker, then a newer callback. */
  lemma TopWaits(s: State, n: nat, e: Permits, q: nat) returns (r: nat)
    requires Rests(s, n, e) && q < n && TopBlocked(s, q)
    ensures Edge(n, e, q, r) && Stuck(s, r)
    ensures !Away(s.runners[r]) ==> TopId(s, q) < TopId(s, r) < s.nextId
  {
    var i := Last(s.runners[q].image).inv;
    assert i.runner == q;
    AwaitedIsLocated(s, n, e, OfCallback(i));
    var c := s.awaiting[OfCallback(i)];
    r := c.runner;
    AtRestQueues(s, r);
    if !Away(s.runners[r]) {
      var m := FrameOf(s.runners[r], c);
      NewestIsNewer(s.runners[r], m, s.nextId);
      TopsAgree(s, r);
      NewestKnown(s.runners[r].native, s.nextId);
    }
  }

  lemma NewestKnown(native: seq<Invocation>, nextId: nat)
    requires native != [] && Known(native, nextId)
    ensures Last(native).id < nextId
  {
  }

  lemma FrameOf(rs: RunnerState, c: Call) returns (m: nat)
    requires rs.tasks == [] && (Callout(c) in rs.tasks || CallFrame(c) in rs.frames)
    ensures m < |rs.frames| && rs.frames[m] == CallFrame(c)
  {
    m :| 0 <= m < |rs.frames| && rs.frames[m] == CallFrame(c);
  }

  function Youth(s: State, r: nat): nat
    requires r < |s.runners|
  {
    if Away(s.runners[r]) || !TopBlocked(s, r) || TopId(s, r) > s.nextId then 0 else 1 + s.nextId - TopId(s, r)
  }

  /** Without cycles through callbacks of other runners nothing waits. */
  lemma {:induction false} NothingStuck(s: State, n: nat, e: Permits, q: nat)
    requires Rests(s, n, e) && NoCrossCycle(n, e) && q < n
    ensures !Stuck(s, q)
    decreases |Reach(n, e, q)|, Youth(s, q)
  {
    if Away(s.runners[q]) {
      var r := AwayWaits(s, n, e, q);
      CrossReach(n, e, q, r);
      NothingStuck(s, n, e, r);
    } else if TopBlocked(s, q) {
      var r := TopWaits(s, n, e, q);
      ReachShrinks(n, e, q, r);
      TopKnown(s, n, e, q);
      NothingStuck(s, n, e, r);
    }
  }

  lemma TopKnown(s: State, n: nat, e: Permits, q: nat)
    requires Rests(s, n, e) && q < n && TopBlocked(s, q)
    ensures TopId(s, q) < s.nextId
  {
    TopsAgree(s, q);
    AtRestQueues(s, q);
    NewestKnown(s.runners[q].native, s.nextId);
  }

  lemma RestingRunner(s: State, n: nat, e: Permits, r: nat)
    requires Rests(s, n, e) && NoCrossCycle(n, e) && r < n
    ensures
      var rs := s.runners[r];
      rs.native == [] && rs.entering == [] && rs.tasks == [] && rs.frames == [] && rs.image == []
  {
    NothingStuck(s, n, e, r);
    TopsAgree(s, r);
    AtRestQueues(s, r);
  }

  /** At rest nothing is left: no callback, no callout, no waiting process, no signal. */
  lemma RestIsEmpty(s: State, n: nat, e: Permits)
    requires ReachedWithin(s, n, e) && NoCrossCycle(n, e) && AtRest(s)
    ensures Empty(s)
  {
    ReachedRests(s, n, e);
    AtRestIsQuiet(s);
    QuietHasNothingComing(s);
    forall r | 0 <= r < n
      ensures var rs := s.runners[r];
        rs.native == [] && rs.entering == [] && rs.tasks == [] && rs.frames == [] && rs.image == []
    {
      RestingRunner(s, n, e, r);
    }
    forall p ensures p !in s.awaiting {
      if p in s.awaiting {
        AwaitedIsLocated(s, n, e, p);
        RestingRunner(s, n, e, s.awaiting[p].runner);
      }
    }
    forall i ensures s.signals[i] == 0 {
      assert !Enabled(s, ForeignResumes(i));
    }
  }

  // ---- and it comes to rest ----

  function Duty(rs: RunnerState): nat {
    2 * |rs.tasks| + |rs.frames|
  }

  function Duties(runners: seq<RunnerState>): nat {
    if runners == [] then 0 else Duties(Front(runners)) + Duty(Last(runners))
  }

  /** An upper bound of the steps left without anything fresh, for at most `n` invocations alive. */
  function Chores(s: State, n: nat): nat {
    3 * Budget(s, n) + Duties(s.runners) + |s.signals| + |s.awaiting|
  }

  lemma {:induction false} DutiesUpdate(runners: seq<RunnerState>, r: nat, rs: RunnerState)
    requires r < |runners|
    ensures Duties(runners[r := rs]) + Duty(runners[r]) == Duties(runners) + Duty(rs)
    decreases |runners|
  {
    var u := runners[r := rs];
    if r == |runners| - 1 {
      assert Front(u) == Front(runners);
    } else {
      DutiesUpdate(Front(runners), r, rs);
      assert Front(u) == Front(runners)[r := rs];
    }
  }

  /** The steps of the worker and of those it tells. */
  lemma DutyStep(s: State, a: Step)
    requires Enabled(s, a) && !Fresh(a) && !Settles(a)
    ensures var t := Next(s, a);
      Duties(t.runners) + |t.signals| + |t.awaiting| < Duties(s.runners) + |s.signals| + |s.awaiting|
  {
    var t := Next(s, a);
    if a.TakeTask? || a.CalloutEnds? || a.CrossResumes? {
      WorkerDuty(s, a);
    } else if a.CallerResumes? {
      assert s.awaiting.Keys == t.awaiting.Keys + {a.p};
      assert |s.awaiting| == |s.awaiting.Keys| && |t.awaiting| == |t.awaiting.Keys|;
    } else {
      assert s.signals == t.signals + multiset{a.inv};
    }
  }

  lemma WorkerDuty(s: State, a: Step)
    requires Enabled(s, a) && (a.TakeTask? || a.CalloutEnds? || a.CrossResumes?)
    ensures var t := Next(s, a);
      Duties(t.runners) + |t.signals| < Duties(s.runners) + |s.signals| && t.awaiting == s.awaiting
  {
    var t := Next(s, a);
    assert t.runners == s.runners[a.r := t.runners[a.r]];
    DutiesUpdate(s.runners, a.r, t.runners[a.r]);
  }

  /** A settling step queues one task at most. */
  lemma SettlingDuty(s: State, a: Step)
    requires Enabled(s, a) && Settles(a)
    ensures var t := Next(s, a);
      Duties(t.runners) <= Duties(s.runners) + 2 && t.signals == s.signals && t.awaiting == s.awaiting
  {
    var t := Next(s, a);
    if !a.ReadPending? {
      var r := if a.PushImage? then s.inFlight.value.runner else a.r;
      assert t.runners == s.runners[r := t.runners[r]];
      DutiesUpdate(s.runners, r, t.runners[r]);
    }
  }

  lemma ChoresStep(s: State, a: Step, n: nat)
    requires Enabled(s, a) && !Fresh(a) && Population(s) <= n
    ensures Chores(Next(s, a), n) < Chores(s, n) && Population(Next(s, a)) <= n
  {
    BudgetStep(s, a, n);
    if Settles(a) { SettlingDuty(s, a); } else { DutyStep(s, a); }
  }

  predicate NothingFresh(run: seq<Step>) {
    forall k :: 0 <= k < |run| ==> !Fresh(run[k])
  }

  lemma {:induction false} ChoresRun(s: State, run: seq<Step>, n: nat)
    requires Valid(s, run) && NothingFresh(run) && Population(s) <= n
    ensures |run| + Chores(Exec(s, run), n) <= Chores(s, n)
    decreases |run|
  {
    if run != [] {
      ChoresStep(s, run[0], n);
      ChoresRun(Next(s, run[0]), run[1..], n);
    }
  }

  lemma OrderlyJoin(run: seq<Step>, later: seq<Step>)
    requires Orderly(run) && Orderly(later)
    ensures Orderly(run + later)
  {
  }

  lemma ReachedOn(s: State, n: nat, e: Permits, later: seq<Step>)
    requires ReachedWithin(s, n, e) && Valid(s, later) && Within(later, e) && Orderly(later)
    ensures ReachedWithin(Exec(s, later), n, e)
  {
    var run :| Reaches(Init(n), run, s) && Within(run, e) && Orderly(run);
    ExecConcat(Init(n), run, later);
    OrderlyJoin(run, later);
    assert Reaches(Init(n), run + later, Exec(s, later)) && Within(run + later, e);
  }

  /** Every schedule without entries and new callouts is finite, with a bound that the state gives, and one
      that cannot be continued has returned every callback and finished every callout, on all runners. */
  lemma EverythingComesToRest(s: State, n: nat, e: Permits, run: seq<Step>)
    requires ReachedWithin(s, n, e) && NoCrossCycle(n, e)
    requires Valid(s, run) && NothingFresh(run) && Orderly(run)
    ensures |run| <= Chores(s, Population(s))
    ensures AtRest(Exec(s, run)) ==> Empty(Exec(s, run))
  {
    ChoresRun(s, run, Population(s));
    assert Within(run, e);
    ReachedOn(s, n, e, run);
    if AtRest(Exec(s, run)) { RestIsEmpty(Exec(s, run), n, e); }
  }
}
