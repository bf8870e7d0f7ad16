/** When a function reads the value of another callback's block.

    What a function reads depends on the frame that is left when its nested loop ends, and `worker_run`
    does not look at whose return it takes. The condition under which the function that called back reads
    what its own block left is the one of ExactMatching; where it fails, a run exists in which somebody
    reads a holder that his block has not written. */
module ValueReading {
  import opened Prelude
  import opened Protocol
  import opened Frames
  import opened FrameMatching
  import opened ExactMatching
  import opened NestedCalls
  import opened EventLaws
  import ValueFlow

  /** By taking the task before it, the worker lets the function that called `inv` go on, with the value that
      the block of `inv` left, and nobody else. */
  ghost predicate OwnReads(s: State, r: nat, inv: Invocation)
    requires AtReturn(s, r, inv)
  {
    && inv in s.holder
    && forall e :: Happened(s, Next(s, TakeTask(r)), r, e) <==> e == FunctionResumes(inv, Some(s.holder[inv]))
  }

  /** Whatever happens next, when the return of `inv` is taken its own function reads its own value. */
  ghost predicate AlwaysOwnReads(s: State, r: nat, inv: Invocation) {
    forall run :: Valid(s, run) && AtReturn(Exec(s, run), r, inv) ==> OwnReads(Exec(s, run), r, inv)
  }

  /** At the return of `inv`, its own function reads exactly when the loop of `inv` is the one that ends. */
  lemma OwnReadsIff(s: State, r: nat, inv: Invocation)
    requires Reachable(s) && AtReturn(s, r, inv) && !inv.foreign
    ensures OwnReads(s, r, inv) <==> !EndsOther(s, r, inv)
  {
    ValueFlow.ReachableInv(s);
    NullReturnFindsALoop(s, r);
    ReturnIsWritten(s, r);
    var i := Last(s.runners[r].frames).inv;
    var shown := FunctionResumes(i, Lookup(s.holder, i));
    forall e ensures Happened(s, Next(s, TakeTask(r)), r, e) <==> e == shown {
      EventsAreChanges(s, TakeTask(r), r, e);
    }
    assert Happened(s, Next(s, TakeTask(r)), r, shown);
  }

  lemma ReturnIsWritten(s: State, r: nat)
    requires ValueFlow.Inv(s) && Enabled(s, TakeTask(r)) && s.runners[r].tasks[0].CallbackReturn?
    ensures s.runners[r].tasks[0].inv in s.holder
  {
  }

  /** The condition of ExactMatching is the exact condition for values too: once the primitive has answered true
      for `inv`, the function that called back reads what its own block left in every continuation if and only
      if no callout was queued or executing above its loop, or the worker never comes back. */
  lemma ValueCondition(s: State, r: nat, k: nat)
    requires r < |s.runners| && Reachable(s) && Matched(s.runners[r])
    requires Enabled(s, TryReturn(r, k)) && ReturnsOwn(s, TryReturn(r, k), r)
    ensures var t, inv := Next(s, TryReturn(r, k)), s.runners[r].image[k].inv;
      AlwaysOwnReads(t, r, inv) <==> Clear(s.runners[r], inv) || NeverBack(t, r)
  {
    var t, inv := Next(s, TryReturn(r, k)), s.runners[r].image[k].inv;
    ReachableStep(s, TryReturn(r, k));
    ExactCondition(s, r, k);
    SafeMeansOwnReads(t, r, inv);
  }

  lemma SafeMeansOwnReads(t: State, r: nat, inv: Invocation)
    requires Reachable(t) && !inv.foreign
    ensures AlwaysOwnReads(t, r, inv) <==> Safe(t, r, inv)
  {
    forall run | Valid(t, run) && AtReturn(Exec(t, run), r, inv)
      ensures OwnReads(Exec(t, run), r, inv) <==> !EndsOther(Exec(t, run), r, inv)
    {
      ReachableRun(t, run);
      OwnReadsIff(Exec(t, run), r, inv);
    }
  }

  lemma {:induction false} ReachableRun(s: State, run: seq<Step>)
    requires Reachable(s) && Valid(s, run)
    ensures Reachable(Exec(s, run))
    decreases |run|
  {
    if run != [] {
      ReachableStep(s, run[0]);
      ReachableRun(Next(s, run[0]), run[1..]);
    }
  }

  // ---- a wrong value is read ----

  lemma {:induction false} TraceSnoc(s: State, run: seq<Step>, a: Step, r: nat)
    requires Valid(s, run) && r < |s.runners| && Enabled(Exec(s, run), a)
    ensures Valid(s, run + [a]) && r < |Exec(s, run).runners|
    ensures Trace(s, run + [a], r) == Trace(s, run, r) + Observe(Exec(s, run), a, r)
    decreases |run|
  {
    var longer := run + [a];
    if run == [] {
      assert longer[0] == a && longer[1..] == [];
      assert Valid(Next(s, a), longer[1..]);
      assert Observe(s, a, r) + [] == [] + Observe(s, a, r);
    } else {
      var t := Next(s, run[0]);
      TraceSnoc(t, run[1..], a, r);
      assert longer[0] == run[0] && longer[1..] == run[1..] + [a];
      Associative(Observe(s, run[0], r), Trace(t, run[1..], r), Observe(Exec(s, run), a, r));
    }
  }

  /** The function of the second callout goes on by the return of the first, and reads a holder that nothing
      has been written to. */
  lemma WrongRead(s: State)
    requires s == OneRunner(OtherCallsBack(), [I1], None, 2, WRITTEN, TWO)
    ensures Enabled(s, TakeTask(0)) && Observe(s, TakeTask(0), 0) == [FunctionResumes(I1, None)]
  {
  }

  ghost predicate ReadsWrongly(run: seq<Step>)
    requires Valid(Init(1), run)
  {
    HoldsWrongRead(Trace(Init(1), run, 0))
  }

  ghost predicate HoldsWrongRead(trace: seq<Event>) {
    exists k :: 0 <= k < |trace| && !ReadsOwnValue(trace, k)
  }

  lemma NothingIsWrong(trace: seq<Event>, i: Invocation)
    ensures HoldsWrongRead(trace + [FunctionResumes(i, None)])
  {
    var all := trace + [FunctionResumes(i, None)];
    assert all[|trace|] == FunctionResumes(i, None);
    assert !ReadsOwnValue(all, |trace|);
  }

  lemma OneRunnerReaches(n: nat, run: seq<Step>, s: State)
    requires Reaches(Init(n), run, s) && |s.runners| == 1
    ensures n == 1
  {
    RunnersStay(Init(n), run);
    assert |Init(n).runners| == n;
  }

  /** Values can get to the wrong function: a run exists after which some read value was not produced by the
      block or function it belongs to. */
  lemma SomeReadsAreWrong()
    ensures exists run :: Valid(Init(1), run) && ReadsWrongly(run)
  {
    var s := OneRunner(OtherCallsBack(), [I1], None, 2, WRITTEN, TWO);
    SecondEnteredReachable();
    WrongRead(s);
    var n: nat, run: seq<Step> :| Reaches(Init(n), run, s);
    OneRunnerReaches(n, run, s);
    ContinuedWrong(s, run);
  }

  lemma ContinuedWrong(s: State, run: seq<Step>)
    requires Reaches(Init(1), run, s) && |s.runners| == 1 && Enabled(s, TakeTask(0))
    requires Observe(s, TakeTask(0), 0) == [FunctionResumes(I1, None)]
    ensures exists run :: Valid(Init(1), run) && ReadsWrongly(run)
  {
    TraceSnoc(Init(1), run, TakeTask(0), 0);
    NothingIsWrong(Trace(Init(1), run, 0), I1);
    assert ReadsWrongly(run + [TakeTask(0)]);
  }
}
