/** Callouts of any run, disciplined or not: each is at every moment in one place - queued, under `ffi_call`,
    or over - so its function returns once, and its process reads the value that it returned. */
module CallResults {
  import opened Prelude
  import opened Protocol
  import opened NestedCalls
  import ValueFlow

  /** How many times callout `c` occurs in the queue and on the C stack of its worker, and as a result. */
  function Places(s: State, c: Call): nat
    requires c.runner < |s.runners|
  {
    var rs := s.runners[c.runner];
    multiset(rs.tasks)[Callout(c)] + multiset(rs.frames)[CallFrame(c)] + if c in s.result then 1 else 0
  }

  /** Not dispatched yet, it is nowhere; and it is nowhere twice. */
  ghost predicate Placed(s: State, c: Call)
    requires c.runner < |s.runners|
  {
    && Places(s, c) <= 1 && (c.id >= s.nextCall ==> Places(s, c) == 0)
    && (c.caller in s.awaiting && s.awaiting[c.caller] == c ==> Places(s, c) == 1)
  }

  predicate Dispatches(s: State, a: Step, c: Call) {
    a.Dispatch? && c == Call(s.nextCall, a.r, a.p)
  }

  lemma CountSnoc<T>(q: seq<T>, x: T, y: T)
    ensures multiset(q + [x])[y] == multiset(q)[y] + if x == y then 1 else 0
  {
  }

  lemma CountFirst<T>(q: seq<T>, y: T)
    requires q != []
    ensures multiset(q)[y] == multiset(q[1..])[y] + if q[0] == y then 1 else 0
  {
    assert q == [q[0]] + q[1..];
  }

  lemma CountLast<T>(q: seq<T>, y: T)
    requires q != []
    ensures multiset(q)[y] == multiset(Front(q))[y] + if Last(q) == y then 1 else 0
  {
    assert q == Front(q) + [Last(q)];
  }

  lemma QueuedCount(s: State, a: Step, c: Call)
    requires Enabled(s, a) && c.runner < |s.runners|
    ensures multiset(Next(s, a).runners[c.runner].tasks)[Callout(c)]
      + (if a == TakeTask(c.runner) && s.runners[c.runner].tasks[0] == Callout(c) then 1 else 0)
      == multiset(s.runners[c.runner].tasks)[Callout(c)] + if Dispatches(s, a, c) then 1 else 0
  {
    var r, tasks := c.runner, s.runners[c.runner].tasks;
    TasksEffect(s, a, r);
    if a.Dispatch? && a.r == r {
      CountSnoc(tasks, Callout(Call(s.nextCall, r, a.p)), Callout(c));
    } else if a.TryReturn? && a.r == r && ReturnSucceeds(s.runners[r], a.k) {
      CountSnoc(tasks, CallbackReturn(s.runners[r].image[a.k].inv), Callout(c));
    } else if a == TakeTask(r) {
      CountFirst(tasks, Callout(c));
    }
  }

  predicate Ends(s: State, a: Step, c: Call)
    requires Enabled(s, a) && c.runner < |s.runners|
  {
    a.CalloutEnds? && a.r == c.runner && Last(s.runners[a.r].frames) == CallFrame(c)
  }

  lemma FramedCount(s: State, a: Step, c: Call)
    requires Enabled(s, a) && c.runner < |s.runners|
    ensures multiset(Next(s, a).runners[c.runner].frames)[CallFrame(c)] + (if Ends(s, a, c) then 1 else 0)
      == multiset(s.runners[c.runner].frames)[CallFrame(c)]
         + if a == TakeTask(c.runner) && s.runners[c.runner].tasks[0] == Callout(c) then 1 else 0
  {
    var r, frames := c.runner, s.runners[c.runner].frames;
    FramesEffect(s, a, r);
    if a == OwnCallback(r) {
      CountSnoc(frames, BackFrame(Invocation(s.nextId, r, false)), CallFrame(c));
    } else if a.CrossCallback? && a.q == r {
      CountSnoc(frames, WaitFrame(Invocation(s.nextId, a.r, true)), CallFrame(c));
    } else if (a.CalloutEnds? && a.r == r) || a == CrossResumes(r) {
      CountLast(frames, CallFrame(c));
    } else if a == TakeTask(r) {
      TakenCount(s.runners[r], c);
    }
  }

  lemma TakenCount(rs: RunnerState, c: Call)
    requires Idle(rs) && rs.tasks != []
    ensures multiset(Take(rs).frames)[CallFrame(c)]
      == multiset(rs.frames)[CallFrame(c)] + if rs.tasks[0] == Callout(c) then 1 else 0
  {
    match rs.tasks[0]
    case Callout(d) => CountSnoc(rs.frames, CallFrame(d), CallFrame(c));
    case CallbackReturn(_) => if rs.frames != [] { CountLast(rs.frames, CallFrame(c)); }
  }

  /** The function under `ffi_call` is the runner's own. */
  lemma EndedResults(s: State, a: Step, c: Call)
    requires ValueFlow.Inv(s) && Enabled(s, a) && c.runner < |s.runners|
    ensures c in Next(s, a).result <==> c in s.result || Ends(s, a, c)
    ensures c in s.result && !Ends(s, a, c) ==> Next(s, a).result[c] == s.result[c]
    ensures Ends(s, a, c) ==> Next(s, a).result[c] == a.v
  {
    if a.CalloutEnds? {
      assert ValueFlow.Owned(s.runners[a.r], a.r, s.nextId, s.nextCall);
    } else {
      WritesEffect(s, a);
    }
  }

  /** Every step keeps a callout in its place or moves it on to the next: only its dispatch adds it, and nothing
      loses it. */
  lemma PlacesConserved(s: State, a: Step, c: Call)
    requires ValueFlow.Inv(s) && Enabled(s, a) && c.runner < |s.runners| && Placed(s, c)
    ensures c.runner < |Next(s, a).runners| && Places(Next(s, a), c) == Places(s, c) + if Dispatches(s, a, c) then 1 else 0
  {
    QueuedCount(s, a, c);
    FramedCount(s, a, c);
    EndedResults(s, a, c);
  }

  lemma PlacedStep(s: State, a: Step, c: Call)
    requires ValueFlow.Inv(s) && Enabled(s, a) && c.runner < |s.runners| && Placed(s, c)
    ensures Placed(Next(s, a), c)
  {
    PlacesConserved(s, a, c);
    AwaitedStep(s, a, c);
  }

  lemma AwaitedStep(s: State, a: Step, c: Call)
    requires Enabled(s, a)
    ensures Next(s, a).nextCall >= s.nextCall && (Dispatches(s, a, c) ==> c.id < Next(s, a).nextCall)
    ensures c.caller in Next(s, a).awaiting && Next(s, a).awaiting[c.caller] == c ==>
      Dispatches(s, a, c) || (c.caller in s.awaiting && s.awaiting[c.caller] == c)
  {
    if !a.Dispatch? && !a.CallerResumes? { WritesEffect(s, a); }
  }

  lemma {:induction false} PlacedRun(s: State, run: seq<Step>, c: Call)
    requires ValueFlow.Inv(s) && Valid(s, run) && c.runner < |s.runners| && Placed(s, c)
    ensures var t := Exec(s, run); c.runner < |t.runners| && Placed(t, c) && ValueFlow.Inv(t)
    decreases |run|
  {
    if run != [] {
      PlacedStep(s, run[0], c);
      ValueFlow.InvStep(s, run[0]);
      PlacedRun(Next(s, run[0]), run[1..], c);
    }
  }

  /** In every reachable state. */
  lemma ReachablePlaced(s: State, c: Call)
    requires Reachable(s) && c.runner < |s.runners|
    ensures ValueFlow.Inv(s) && Placed(s, c)
  {
    var n: nat, run: seq<Step> :| Reaches(Init(n), run, s);
    RunnersStay(Init(n), run);
    ValueFlow.InitInv(n);
    PlacedRun(Init(n), run, c);
  }

  // ---- the value of a function ----

  lemma ShownReturn(s: State, a: Step, c: Call, v: Value)
    requires Enabled(s, a) && c.runner < |s.runners|
    ensures FunctionReturns(c, v) in Observe(s, a, c.runner) <==> Ends(s, a, c) && v == a.v
  {
  }

  /** What `c` has returned, if it has. */
  function ResultOf(s: State, c: Call): Option<Value> {
    Lookup(s.result, c)
  }

  lemma ReturnStep(s: State, a: Step, c: Call)
    requires ValueFlow.Inv(s) && Enabled(s, a) && c.runner < |s.runners| && Placed(s, c)
    ensures if Ends(s, a, c) then ResultOf(s, c) == None && ResultOf(Next(s, a), c) == Some(a.v)
            else ResultOf(Next(s, a), c) == ResultOf(s, c)
  {
    EndedResults(s, a, c);
    if Ends(s, a, c) { assert CallFrame(c) in s.runners[c.runner].frames; }
  }

  /** A function that has returned by the end of `run` had returned before, or returns in it, once and with this
      value; one that has not does not return in it. */
  lemma {:induction false} ReturnsOnce(s: State, run: seq<Step>, c: Call, v: Value)
    requires ValueFlow.Inv(s) && Valid(s, run) && c.runner < |s.runners| && Placed(s, c)
    ensures ResultOf(s, c).Some? ==>
      ResultOf(Exec(s, run), c) == ResultOf(s, c) && FunctionReturns(c, v) !in Trace(s, run, c.runner)
    ensures ResultOf(s, c) == None ==>
      (FunctionReturns(c, v) in Trace(s, run, c.runner) <==> ResultOf(Exec(s, run), c) == Some(v))
    decreases |run|
  {
    if run != [] {
      var a, t := run[0], Next(s, run[0]);
      ShownReturn(s, a, c, v);
      ReturnStep(s, a, c);
      PlacedStep(s, a, c);
      ValueFlow.InvStep(s, a);
      ReturnsOnce(t, run[1..], c, v);
    }
  }

  /** Results belong to runners that exist. */
  ghost predicate ResultsHomed(s: State) {
    forall c :: c in s.result ==> c.runner < |s.runners|
  }

  lemma ResultsHomedStep(s: State, a: Step)
    requires ValueFlow.Inv(s) && ResultsHomed(s) && Enabled(s, a)
    ensures ResultsHomed(Next(s, a))
  {
    if a.CalloutEnds? {
      assert ValueFlow.Owned(s.runners[a.r], a.r, s.nextId, s.nextCall);
    } else {
      WritesEffect(s, a);
    }
  }

  lemma {:induction false} ResultsHomedRun(s: State, run: seq<Step>)
    requires ValueFlow.Inv(s) && ResultsHomed(s) && Valid(s, run)
    ensures ResultsHomed(Exec(s, run))
    decreases |run|
  {
    if run != [] {
      ResultsHomedStep(s, run[0]);
      ValueFlow.InvStep(s, run[0]);
      ResultsHomedRun(Next(s, run[0]), run[1..]);
    }
  }

  /** In every run whatsoever a process that goes on after a callout reads the one value that its own function has
      returned, and no later step changes it. */
  lemma CallersReadTheirResults(n: nat, run: seq<Step>, later: seq<Step>, p: Process)
    requires Valid(Init(n), run) && Enabled(Exec(Init(n), run), Step.CallerResumes(p)) && Valid(Exec(Init(n), run), later)
    ensures
      var s := Exec(Init(n), run);
      var c := s.awaiting[p];
      && c.caller == p && c.runner < n
      && (forall v :: FunctionReturns(c, v) in Trace(Init(n), run, c.runner) <==> v == s.result[c])
      && ResultOf(Exec(s, later), c) == Some(s.result[c])
  {
    var s := Exec(Init(n), run);
    var c := s.awaiting[p];
    ValueFlow.InitInv(n);
    ResultsHomedRun(Init(n), run);
    RunnersStay(Init(n), run);
    ReadsTheOne(n, run, later, c);
  }

  lemma ReadsTheOne(n: nat, run: seq<Step>, later: seq<Step>, c: Call)
    requires Valid(Init(n), run) && c in Exec(Init(n), run).result && c.runner < n && Valid(Exec(Init(n), run), later)
    ensures forall v :: FunctionReturns(c, v) in Trace(Init(n), run, c.runner) <==> v == Exec(Init(n), run).result[c]
    ensures ResultOf(Exec(Exec(Init(n), run), later), c) == ResultOf(Exec(Init(n), run), c)
    ensures ValueFlow.Inv(Exec(Init(n), run))
  {
    ValueFlow.InitInv(n);
    forall v ensures FunctionReturns(c, v) in Trace(Init(n), run, c.runner) <==> v == Exec(Init(n), run).result[c] {
      ReturnsOnce(Init(n), run, c, v);
    }
    PlacedRun(Init(n), run, c);
    ReturnsOnce(Exec(Init(n), run), later, c, Void);
  }
}
