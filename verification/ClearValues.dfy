/** In a clear run everybody reads his own value, however many processes call.

    The worker does not say to which function a CALLBACK_RETURN belongs: a function that goes on reads
    the return holder of the frame that ended. With FrameMatching, in a clear run that is the holder its
    own block has written. */
module ClearValues {
  import opened Prelude
  import opened Protocol
  import opened Frames
  import opened FrameMatching
  import opened NestedCalls
  import ValueFlow

  /** What is written for runner `r` was produced, as the events before show. */
  ghost predicate Shown(s: State, r: nat, past: seq<Event>) {
    && (forall c :: c in s.result && c.runner == r ==> FunctionReturns(c, s.result[c]) in past)
    && (forall i :: i in s.holder && i.runner == r && !i.foreign ==> BlockReturns(i, s.holder[i]) in past)
  }

  /** The event reads a value that was produced in the past. */
  ghost predicate ReadsPast(e: Event, past: seq<Event>) {
    match e
    case CallerResumes(c, got) => got.Some? && FunctionReturns(c, got.value) in past
    case FunctionResumes(i, got) => got.Some? && BlockReturns(i, got.value) in past
    case _ => true
  }

  ghost predicate Inv(s: State, r: nat) {
    ValueFlow.Inv(s) && r < |s.runners| && Matched(s.runners[r])
  }

  lemma InvStep(s: State, a: Step, r: nat)
    requires Inv(s, r) && Enabled(s, a) && ClearStep(s, a, r)
    ensures Inv(Next(s, a), r)
  {
    assert Balanced(s.runners[r]);
    IdsGrow(s, a, r);
    MatchedStep(s, a, r);
    ValueFlow.InvStep(s, a);
  }

  lemma ShownStep(s: State, a: Step, r: nat, past: seq<Event>)
    requires ValueFlow.Inv(s) && r < |s.runners| && Enabled(s, a) && Shown(s, r, past)
    ensures Shown(Next(s, a), r, past + Observe(s, a, r))
  {
    if a.CalloutEnds? {
      assert ValueFlow.Owned(s.runners[a.r], a.r, s.nextId, s.nextCall);
      ShownEnd(s, a.r, a.v, r, past);
    } else if a.BlockEnds? {
      assert s.runners[a.r].image[a.k].inv.runner == a.r;
      ShownBlock(s, a.r, a.k, a.v, r, past);
    } else {
      ShownRest(s, a, r, past);
    }
  }

  lemma ShownEnd(s: State, q: nat, v: Value, r: nat, past: seq<Event>)
    requires r < |s.runners| && Enabled(s, CalloutEnds(q, v)) && Shown(s, r, past)
    requires Last(s.runners[q].frames).call.runner == q
    ensures Shown(Next(s, CalloutEnds(q, v)), r, past + Observe(s, CalloutEnds(q, v), r))
  {
    var c := Last(s.runners[q].frames).call;
    var events := Observe(s, CalloutEnds(q, v), r);
    assert q == r ==> events[0] == FunctionReturns(c, v);
  }

  lemma ShownBlock(s: State, q: nat, k: nat, v: Value, r: nat, past: seq<Event>)
    requires r < |s.runners| && Enabled(s, BlockEnds(q, k, v)) && Shown(s, r, past)
    requires s.runners[q].image[k].inv.runner == q
    ensures Shown(Next(s, BlockEnds(q, k, v)), r, past + Observe(s, BlockEnds(q, k, v), r))
  {
    var i := s.runners[q].image[k].inv;
    var events := Observe(s, BlockEnds(q, k, v), r);
    assert q == r && !i.foreign ==> events[0] == BlockReturns(i, v);
  }

  lemma ShownRest(s: State, a: Step, r: nat, past: seq<Event>)
    requires r < |s.runners| && Enabled(s, a) && Shown(s, r, past) && !a.CalloutEnds? && !a.BlockEnds?
    ensures Shown(Next(s, a), r, past + Observe(s, a, r))
  {
    WritesEffect(s, a);
  }

  /** What the step reads was produced before it. */
  lemma ReadsStep(s: State, a: Step, r: nat, past: seq<Event>)
    requires Inv(s, r) && Enabled(s, a) && Shown(s, r, past)
    ensures |Observe(s, a, r)| <= 1 && forall e :: e in Observe(s, a, r) ==> ReadsPast(e, past)
  {
    if a == TakeTask(r) {
      if NullReturn(s.runners[r].tasks[0]) {
        MatchedTake(s.runners[r]);
        ReturnWritten(s, r);
      }
    } else {
      OthersRead(s, a, r, past);
    }
  }

  lemma OthersRead(s: State, a: Step, r: nat, past: seq<Event>)
    requires r < |s.runners| && Enabled(s, a) && Shown(s, r, past) && a != TakeTask(r)
    ensures |Observe(s, a, r)| <= 1 && forall e :: e in Observe(s, a, r) ==> ReadsPast(e, past)
  {
  }

  /** The holder that the ended frame points to is written. */
  lemma ReturnWritten(s: State, r: nat)
    requires ValueFlow.Inv(s) && r < |s.runners| && s.runners[r].tasks != [] && s.runners[r].frames != []
    requires s.runners[r].tasks[0].CallbackReturn? && Last(s.runners[r].frames) == BackFrame(s.runners[r].tasks[0].inv)
    ensures Last(s.runners[r].frames).inv in s.holder
    ensures Last(s.runners[r].frames).inv.runner == r && !Last(s.runners[r].frames).inv.foreign
  {
    var frames := s.runners[r].frames;
    assert ValueFlow.Owned(s.runners[r], r, s.nextId, s.nextCall);
    assert frames[|frames| - 1].BackFrame?;
  }

  ghost predicate AllReadOwn(events: seq<Event>) {
    forall k :: 0 <= k < |events| ==> ReadsOwnValue(events, k)
  }

  /** One more event, which reads from the past. */
  lemma ReadsOn(past: seq<Event>, events: seq<Event>)
    requires |events| <= 1 && AllReadOwn(past) && forall e :: e in events ==> ReadsPast(e, past)
    ensures AllReadOwn(past + events)
  {
    var now := past + events;
    assert now[..|past|] == past;
    forall k | 0 <= k < |now| ensures ReadsOwnValue(now, k) {
      if k < |past| {
        assert ReadsOwnValue(past, k) && now[..k] == past[..k];
      } else {
        assert now[k] == events[0] && events[0] in events;
      }
    }
  }

  lemma ReadsAndShows(s: State, a: Step, r: nat, past: seq<Event>)
    requires Inv(s, r) && Enabled(s, a) && ClearStep(s, a, r) && Shown(s, r, past) && AllReadOwn(past)
    ensures Inv(Next(s, a), r) && Shown(Next(s, a), r, past + Observe(s, a, r)) && AllReadOwn(past + Observe(s, a, r))
  {
    ReadsStep(s, a, r, past);
    ReadsOn(past, Observe(s, a, r));
    ShownStep(s, a, r, past);
    InvStep(s, a, r);
  }

  lemma {:induction false} ReadsRun(s: State, run: seq<Step>, r: nat, past: seq<Event>)
    requires Inv(s, r) && Valid(s, run) && ClearRun(s, run, r) && Shown(s, r, past) && AllReadOwn(past)
    ensures AllReadOwn(past + Trace(s, run, r))
    decreases |run|
  {
    if run == [] {
      assert past + [] == past;
    } else {
      var t, events := Next(s, run[0]), Observe(s, run[0], r);
      ReadsAndShows(s, run[0], r, past);
      ReadsRun(t, run[1..], r, past + events);
      Associative(past, events, Trace(t, run[1..], r));
    }
  }

  /** In a clear run every process that resumes from a callout reads the result its own function produced,
      and every function that resumes from a callback reads the value the block of its own callback left,
      whoever else calls out on the runner or calls back into it. */
  lemma ClearRunsReadOwnValues(n: nat, run: seq<Step>, r: nat)
    requires r < n && Valid(Init(n), run) && ClearRun(Init(n), run, r)
    ensures forall k :: 0 <= k < |Trace(Init(n), run, r)| ==> ReadsOwnValue(Trace(Init(n), run, r), k)
  {
    ValueFlow.InitInv(n);
    assert Init(n).runners[r] == NEW_RUNNER;
    ReadsRun(Init(n), run, r, []);
    assert [] + Trace(Init(n), run, r) == Trace(Init(n), run, r);
  }
}
