/** When callouts and callbacks can block each other for ever.

    A worker inside a callback of another runner serves no task, not even the CALLBACK_RETURNs of its
    own runner. If some runners wait for each other in a circle with such a worker in it, none of them
    ever goes on. It is shown that this state is reached, by an orderly run that makes permitted calls
    only, as soon as a cycle of the permitted calls goes through a callback of another runner; with
    Quiescence this is the exact condition. */
module Deadlock {
  import opened Prelude
  import opened Protocol
  import opened StackAgreement
  import opened ReturnDrain
  import opened CallGraph
  import opened Quiescence
  import ForeignCallbacks
  import ValueFlow

  // ---- runners that wait for each other stay so ----

  /** The one callback of runner `v` is running its block, and the worker is idle. */
  ghost predicate Serving(rs: RunnerState, i: Invocation) {
    && rs.tasks == [] && rs.entering == [] && rs.native == [i] && rs.image == [Live(i, Executing)]
    && !rs.rootReturned && (rs.frames == [] || Last(rs.frames).BackFrame?)
  }

  /** The worker waits for a callback of a runner of `group`, which has not signalled. */
  predicate AwayFor(s: State, group: set<nat>, v: nat) {
    && v < |s.runners| && Away(s.runners[v])
    && Last(s.runners[v].frames).inv.runner in group && s.signals[Last(s.runners[v].frames).inv] == 0
  }

  /** The process of the callback `i` waits for a function of a worker of `group`. */
  ghost predicate CallsFor(s: State, group: set<nat>, v: nat, i: Invocation) {
    && v < |s.runners| && Serving(s.runners[v], i) && OfCallback(i) in s.awaiting
    && s.awaiting[OfCallback(i)].runner in group && s.awaiting[OfCallback(i)] !in s.result
  }

  ghost predicate WaitsFor(s: State, group: set<nat>, v: nat) {
    AwayFor(s, group, v) || exists i :: CallsFor(s, group, v, i)
  }

  /** Everybody in the group waits for somebody in the group. */
  ghost predicate Dead(s: State, group: set<nat>) {
    group != {} && forall v :: v in group ==> WaitsFor(s, group, v)
  }

  /** The worker of such a runner does nothing. */
  lemma WorkerWaits(s: State, group: set<nat>, a: Step, v: nat)
    requires WaitsFor(s, group, v) && Enabled(s, a)
    ensures a != TakeTask(v) && a != CrossResumes(v) && !(a.CalloutEnds? && a.r == v)
  {
  }

  /** No return of the group is taken. */
  lemma NotSignalled(s: State, group: set<nat>, a: Step, w: Invocation)
    requires Dead(s, group) && ForeignCallbacks.ReturnsHomed(s) && Enabled(s, a) && w.runner in group && s.signals[w] == 0
    ensures Next(s, a).signals[w] == 0
  {
    if a.TakeTask? && s.runners[a.r].tasks[0] == CallbackReturn(w) {
      assert w in ForeignCallbacks.QueuedReturns(s.runners[a.r].tasks);
      WorkerWaits(s, group, a, w.runner);
    }
  }

  /** No function of the group returns. */
  lemma NotReturned(s: State, group: set<nat>, a: Step, c: Call)
    requires Dead(s, group) && ValueFlow.Inv(s) && Enabled(s, a) && c.runner in group && c !in s.result
    ensures c !in Next(s, a).result
  {
    if a.CalloutEnds? {
      assert ValueFlow.Owned(s.runners[a.r], a.r, s.nextId, s.nextCall);
      WorkerWaits(s, group, a, c.runner);
    }
  }

  lemma StaysAway(s: State, group: set<nat>, a: Step, v: nat)
    requires AwayFor(s, group, v) && Enabled(s, a) && !Fresh(a)
    ensures |Next(s, a).runners| == |s.runners| && Next(s, a).runners[v].frames == s.runners[v].frames
  {
    WorkerWaits(s, group, a, v);
    FramesEffect(s, a, v);
    IdsGrow(s, a, v);
  }

  lemma StaysServing(s: State, group: set<nat>, a: Step, v: nat, i: Invocation)
    requires Inv(s) && CallsFor(s, group, v, i) && Enabled(s, a) && !Fresh(a)
    ensures |Next(s, a).runners| == |s.runners| && Next(s, a).runners[v] == s.runners[v]
    ensures OfCallback(i) in Next(s, a).awaiting && Next(s, a).awaiting[OfCallback(i)] == s.awaiting[OfCallback(i)]
  {
    assert CallsFor(s, group, v, i);
    WorkerWaits(s, group, a, v);
    assert RunnerInv(s, v);
    NothingComes(s.runners[v], Coming(s, v), i);
    if Touches(s, a, v) {
      if a.PushImage? { ComingPushStep(s, v); }
    } else {
      Untouched(s, a, v);
    }
  }

  lemma NothingComes(rs: RunnerState, coming: seq<Invocation>, i: Invocation)
    requires Serving(rs, i) && Counted(rs, coming)
    ensures coming == []
  {
    assert Settled(rs.image) == [i];
    assert |multiset(rs.native)| == 1 && |multiset([i] + coming)| == 1 + |coming|;
  }

  lemma DeadStep(s: State, group: set<nat>, a: Step)
    requires ValueFlow.Inv(s) && ForeignCallbacks.ReturnsHomed(s) && Dead(s, group) && Enabled(s, a) && !Fresh(a)
    ensures Dead(Next(s, a), group)
  {
    var t := Next(s, a);
    forall v | v in group ensures WaitsFor(t, group, v) {
      assert WaitsFor(s, group, v);
      if AwayFor(s, group, v) {
        StaysAway(s, group, a, v);
        NotSignalled(s, group, a, Last(s.runners[v].frames).inv);
        assert AwayFor(t, group, v);
      } else {
        var i :| CallsFor(s, group, v, i);
        StaysServing(s, group, a, v, i);
        NotReturned(s, group, a, s.awaiting[OfCallback(i)]);
        assert CallsFor(t, group, v, i);
      }
    }
  }

  lemma {:induction false} DeadRun(s: State, group: set<nat>, run: seq<Step>)
    requires ValueFlow.Inv(s) && ForeignCallbacks.ReturnsHomed(s) && Dead(s, group) && Valid(s, run) && NothingFresh(run)
    ensures Dead(Exec(s, run), group)
    decreases |run|
  {
    if run != [] {
      DeadStep(s, group, run[0]);
      ValueFlow.InvStep(s, run[0]);
      ForeignCallbacks.ReturnsHomedStep(s, run[0]);
      DeadRun(Next(s, run[0]), group, run[1..]);
    }
  }

  lemma DeadIsNotEmpty(s: State, group: set<nat>)
    requires Dead(s, group)
    ensures !Empty(s)
  {
    var v :| v in group;
    assert WaitsFor(s, group, v);
    assert s.runners[v].frames != [] || s.runners[v].image != [];
  }

  // ---- every state can be run to rest ----

  lemma {:induction false} RunToRest(s: State, n: nat) returns (run: seq<Step>)
    requires Population(s) <= n
    ensures Valid(s, run) && NothingFresh(run) && Orderly(run) && AtRest(Exec(s, run))
    decreases Chores(s, n)
  {
    if AtRest(s) {
      run := [];
    } else {
      var a :| !Fresh(a) && Enabled(s, a);
      if a.Enqueue? { a := Enqueue(a.r, 0); }
      ChoresStep(s, a, n);
      var rest := RunToRest(Next(s, a), n);
      run := [a] + rest;
      ExecCons(s, a, rest);
    }
  }

  // ---- pieces of a run ----

  /** `run` is orderly, makes permitted calls only and leads from `s` to `t`. */
  ghost predicate Goes(s: State, run: seq<Step>, t: State, e: Permits) {
    Valid(s, run) && Exec(s, run) == t && Within(run, e) && Orderly(run)
  }

  lemma GoesOne(s: State, a: Step, e: Permits)
    requires Enabled(s, a) && WithinStep(a, e) && (a.Enqueue? ==> a.k == 0)
    ensures Goes(s, [a], Next(s, a), e)
  {
    var run := [a];
    assert run[1..] == [];
    assert Valid(Next(s, a), run[1..]) && Exec(Next(s, a), run[1..]) == Next(s, a);
  }

  lemma GoesOn(s: State, a: seq<Step>, t: State, b: seq<Step>, u: State, e: Permits)
    requires Goes(s, a, t, e) && Goes(t, b, u, e)
    ensures Goes(s, a + b, u, e)
  {
    ExecConcat(s, a, b);
  }

  lemma GoesThen(s: State, a: seq<Step>, t: State, b: Step, u: State, e: Permits) returns (run: seq<Step>)
    requires Goes(s, a, t, e) && Enabled(t, b) && u == Next(t, b) && WithinStep(b, e) && (b.Enqueue? ==> b.k == 0)
    ensures Goes(s, run, u, e)
  {
    GoesOne(t, b, e);
    GoesOn(s, a, t, [b], u, e);
    run := a + [b];
  }

  /** The one invocation entering runner `x` gets to the image, and its block runs. */
  function Landed(s: State, x: nat, j: Invocation): State
    requires x < |s.runners|
  {
    WithRunner(s, x, s.runners[x].(entering := [], image := [Live(j, Executing)]))
  }

  lemma Lands(s: State, x: nat, j: Invocation, e: Permits) returns (run: seq<Step>)
    requires x < |s.runners| && s.runners[x].entering == [j] && s.runners[x].image == [] && j.runner == x
    requires s.pending == [] && s.inFlight == None
    ensures Goes(s, run, Landed(s, x, j), e)
  {
    Queued(s, x, j);
    var s1 := Next(s, Enqueue(x, 0));
    var s2 := s1.(pending := [], inFlight := Some(j));
    Pushed(s2, x, j);
    assert s2.runners == s.runners[x := s2.runners[x]];
    assert Landed(s2, x, j).runners == Landed(s, x, j).runners;
    GoesOne(s, Enqueue(x, 0), e);
    run := GoesThen(s, [Enqueue(x, 0)], s1, ReadPending, s2, e);
    run := GoesThen(s, run, s2, PushImage, Landed(s, x, j), e);
  }

  lemma Pushed(s: State, x: nat, j: Invocation)
    requires s.inFlight == Some(j) && x < |s.runners| && s.runners[x].entering == [] && s.runners[x].image == [] && j.runner == x
    ensures Enabled(s, PushImage) && Next(s, PushImage) == Landed(s, x, j).(inFlight := None)
  {
    assert s.runners[x].image + [Live(j, Executing)] == [Live(j, Executing)];
  }

  lemma Queued(s: State, x: nat, j: Invocation)
    requires x < |s.runners| && s.runners[x].entering == [j] && s.pending == [] && s.inFlight == None
    ensures
      var t := Next(s, Enqueue(x, 0));
      t == WithRunner(s, x, s.runners[x].(entering := [])).(pending := [j])
      && Next(t, ReadPending) == t.(pending := [], inFlight := Some(j))
  {
    assert Next(s, Enqueue(x, 0)).pending == [j];
    assert Without(s.runners[x].entering, 0) == [];
  }

  /** The worker is in the function that process `p` has called. */
  function InCallOf(s: State, v: nat, p: Process): State
    requires v < |s.runners|
  {
    var rs, c := s.runners[v], Call(s.nextCall, v, p);
    WithRunner(s, v, rs.(frames := rs.frames + [CallFrame(c)])).(
      nextCall := s.nextCall + 1, awaiting := s.awaiting[p := c])
  }

  lemma CallsFunction(s: State, v: nat, p: Process, e: Permits) returns (run: seq<Step>)
    requires v < |s.runners| && Idle(s.runners[v]) && s.runners[v].tasks == []
    requires Enabled(s, Dispatch(v, p)) && WithinStep(Dispatch(v, p), e)
    ensures Goes(s, run, InCallOf(s, v, p), e)
  {
    var s1 := Next(s, Dispatch(v, p));
    assert s1.runners[v].tasks == [Callout(Call(s.nextCall, v, p))];
    var s2 := Next(s1, TakeTask(v));
    assert s2.runners[v].tasks == [];
    assert s2.runners == InCallOf(s, v, p).runners;
    GoesOne(s, Dispatch(v, p), e);
    run := GoesThen(s, [Dispatch(v, p)], s1, TakeTask(v), s2, e);
  }

  /** The green process of runner `v` calls a function, which calls a callback of runner `x`. */
  function CrossedTo(s: State, v: nat, x: nat): State
    requires v < |s.runners| && x < |s.runners|
  {
    var rs, c, w := s.runners[v], Call(s.nextCall, v, Green(v)), Invocation(s.nextId, x, true);
    s.(runners := s.runners[v := rs.(frames := rs.frames + [CallFrame(c)] + [WaitFrame(w)])][x := Enter(s.runners[x], w)],
       nextId := s.nextId + 1, nextCall := s.nextCall + 1, awaiting := s.awaiting[Green(v) := c])
  }

  lemma CrossesTo(s: State, v: nat, x: nat, e: Permits) returns (run: seq<Step>)
    requires v < |s.runners| && x < |s.runners| && v != x && (v, x) in e.cross
    requires Idle(s.runners[v]) && s.runners[v].tasks == [] && Green(v) !in s.awaiting
    ensures Goes(s, run, CrossedTo(s, v, x), e)
  {
    run := CallsFunction(s, v, Green(v), e);
    var s2 := InCallOf(s, v, Green(v));
    CrossEffect(s2, v, x);
    var s3 := Next(s2, CrossCallback(v, x));
    assert s3.runners == CrossedTo(s, v, x).runners;
    run := GoesThen(s, run, s2, CrossCallback(v, x), s3, e);
  }

  /** The process of the callback `i` calls a function of the fresh runner `x`, which calls back. */
  function CalledTo(s: State, i: Invocation, x: nat): State
    requires x < |s.runners|
  {
    var c, j := Call(s.nextCall, x, OfCallback(i)), Invocation(s.nextId, x, false);
    s.(runners := s.runners[x := NEW_RUNNER.(native := [j], entering := [j], frames := [CallFrame(c), BackFrame(j)])],
       nextId := s.nextId + 1, nextCall := s.nextCall + 1, awaiting := s.awaiting[OfCallback(i) := c])
  }

  lemma CallsTo(s: State, i: Invocation, x: nat, e: Permits) returns (run: seq<Step>)
    requires x < |s.runners| && s.runners[x] == NEW_RUNNER && (i.runner, x) in e.calls
    requires Runs(s, i) && OfCallback(i) !in s.awaiting
    ensures Goes(s, run, CalledTo(s, i, x), e)
  {
    run := CallsFunction(s, x, OfCallback(i), e);
    var s2 := InCallOf(s, x, OfCallback(i));
    assert s2.runners[x] == NEW_RUNNER.(frames := [CallFrame(Call(s.nextCall, x, OfCallback(i)))]);
    var s3 := Next(s2, OwnCallback(x));
    assert s3.runners[x] == CalledTo(s, i, x).runners[x];
    assert s3.runners == CalledTo(s, i, x).runners;
    run := GoesThen(s, run, s2, OwnCallback(x), s3, e);
  }

  // ---- the circle is built along a path ----

  /** The block of the one callback of runner `v` runs and has called nothing yet. */
  ghost predicate AtFront(s: State, v: nat, i: Invocation) {
    && v < |s.runners| && Serving(s.runners[v], i)
    && i.runner == v && i.id < s.nextId && OfCallback(i) !in s.awaiting
  }

  /** Nothing else has happened than on `v` and on the runners `done`. */
  ghost predicate Clean(s: State, done: set<nat>, v: nat) {
    && s.pending == [] && s.inFlight == None && s.signals == multiset{} && s.result == map[]
    && (forall u :: 0 <= u < |s.runners| && u !in done && u != v ==> s.runners[u] == NEW_RUNNER)
    && (forall u :: u !in done ==> Green(u) !in s.awaiting)
    && (forall p :: p in s.awaiting && p.OfCallback? ==> p.inv.id < s.nextId)
  }

  /** From the worker `q`, which is away, the runners `done` wait for each other up to runner `v`. */
  ghost predicate Building(s: State, q: nat, done: set<nat>, v: nat, i: Invocation) {
    && q in done && v !in done && AwayFor(s, done + {v}, q) && AtFront(s, v, i) && Clean(s, done, v)
    && forall u :: u in done ==> WaitsFor(s, done + {v}, u)
  }

  /** Who waits goes on waiting when the group grows and only other runners change. */
  lemma StillWaits(s: State, t: State, group: set<nat>, more: set<nat>, u: nat)
    requires WaitsFor(s, group, u) && group <= more && u < |t.runners| && t.runners[u] == s.runners[u]
    requires t.signals == s.signals && t.result == s.result
    requires forall p :: p in s.awaiting ==> p in t.awaiting && t.awaiting[p] == s.awaiting[p]
    ensures WaitsFor(t, more, u) && (AwayFor(s, group, u) ==> AwayFor(t, more, u))
  {
    if !AwayFor(s, group, u) {
      var i :| CallsFor(s, group, u, i);
      assert CallsFor(t, more, u, i);
    }
  }

  /** One more runner. */
  lemma Grows(s: State, t: State, q: nat, done: set<nat>, v: nat, i: Invocation, x: nat, j: Invocation, p: Process, c: Call)
    requires Building(s, q, done, v, i) && x !in done && x != v
    requires |t.runners| == |s.runners|
    requires forall u :: 0 <= u < |s.runners| && u != x && u != v ==> t.runners[u] == s.runners[u]
    requires t.pending == [] && t.inFlight == None && t.signals == s.signals && t.result == s.result && t.nextId == s.nextId + 1
    requires p !in s.awaiting && t.awaiting == s.awaiting[p := c] && (p == OfCallback(i) || p == Green(v))
    requires AtFront(t, x, j) && WaitsFor(t, done + {v} + {x}, v)
    ensures Building(t, q, done + {v}, x, j)
  {
    forall u | u in done ensures WaitsFor(t, done + {v} + {x}, u) && (u == q ==> AwayFor(t, done + {v} + {x}, u)) {
      StillWaits(s, t, done + {v}, done + {v} + {x}, u);
    }
  }

  lemma ExtendCross(s: State, q: nat, done: set<nat>, v: nat, i: Invocation, x: nat, e: Permits)
      returns (run: seq<Step>, t: State, j: Invocation)
    requires Building(s, q, done, v, i) && x !in done && x != v && x < |s.runners| && (v, x) in e.cross
    ensures Goes(s, run, t, e) && Building(t, q, done + {v}, x, j) && |t.runners| == |s.runners|
  {
    j := Invocation(s.nextId, x, true);
    var s1 := CrossedTo(s, v, x);
    run := CrossesTo(s, v, x, e);
    assert s1.runners[x] == NEW_RUNNER.(native := [j], entering := [j]);
    var rest := Lands(s1, x, j, e);
    t := Landed(s1, x, j);
    GoesOn(s, run, s1, rest, t, e);
    run := run + rest;
    assert AwayFor(t, done + {v} + {x}, v);
    assert t.runners[x] == NEW_RUNNER.(native := [j], image := [Live(j, Executing)]);
    Grows(s, t, q, done, v, i, x, j, Green(v), Call(s.nextCall, v, Green(v)));
  }

  lemma ExtendCall(s: State, q: nat, done: set<nat>, v: nat, i: Invocation, x: nat, e: Permits)
      returns (run: seq<Step>, t: State, j: Invocation)
    requires Building(s, q, done, v, i) && x !in done && x != v && x < |s.runners| && (v, x) in e.calls
    ensures Goes(s, run, t, e) && Building(t, q, done + {v}, x, j) && |t.runners| == |s.runners|
  {
    j := Invocation(s.nextId, x, false);
    var s1 := CalledTo(s, i, x);
    run := CallsTo(s, i, x, e);
    var rest := Lands(s1, x, j, e);
    t := Landed(s1, x, j);
    GoesOn(s, run, s1, rest, t, e);
    run := run + rest;
    assert CallsFor(t, done + {v} + {x}, v, i);
    Grows(s, t, q, done, v, i, x, j, OfCallback(i), Call(s.nextCall, x, OfCallback(i)));
  }

  lemma CloseCross(s: State, q: nat, done: set<nat>, v: nat, i: Invocation, e: Permits) returns (run: seq<Step>, t: State)
    requires Building(s, q, done, v, i) && (v, q) in e.cross
    ensures Goes(s, run, t, e) && Dead(t, done + {v})
  {
    run := CrossesTo(s, v, q, e);
    t := CrossedTo(s, v, q);
    assert AwayFor(t, done + {v}, v);
    assert AwayFor(t, done + {v}, q);
    forall u | u in done && u != q ensures WaitsFor(t, done + {v}, u) {
      StillWaits(s, t, done + {v}, done + {v}, u);
    }
  }

  lemma CloseCall(s: State, q: nat, done: set<nat>, v: nat, i: Invocation, e: Permits) returns (run: seq<Step>, t: State)
    requires Building(s, q, done, v, i) && (v, q) in e.calls
    ensures Goes(s, run, t, e) && Dead(t, done + {v})
  {
    var a := Dispatch(q, OfCallback(i));
    t := Next(s, a);
    GoesOne(s, a, e);
    run := [a];
    assert AwayFor(t, done + {v}, q);
    assert CallsFor(t, done + {v}, v, i);
    forall u | u in done && u != q ensures WaitsFor(t, done + {v}, u) {
      StillWaits(s, t, done + {v}, done + {v}, u);
    }
  }

  /** Along a path back to `q` the circle closes. */
  lemma {:induction false} Closes(s: State, q: nat, done: set<nat>, v: nat, i: Invocation, path: seq<nat>, n: nat, e: Permits)
      returns (run: seq<Step>, t: State, group: set<nat>)
    requires Building(s, q, done, v, i) && |s.runners| == n && Path(n, e, path, v, q) && NoDup(path)
    requires forall k :: 0 <= k < |path| - 1 ==> path[k] !in done
    ensures Goes(s, run, t, e) && Dead(t, group)
    decreases |path|
  {
    var x := path[1];
    assert Edge(n, e, path[0], path[0 + 1]);
    if |path| == 2 {
      if (v, q) in e.cross { run, t := CloseCross(s, q, done, v, i, e); } else { run, t := CloseCall(s, q, done, v, i, e); }
      group := done + {v};
    } else {
      var s1, j, rest;
      assert path[1] !in done && path[0] != path[1];
      if (v, x) in e.cross { run, s1, j := ExtendCross(s, q, done, v, i, x, e); } else { run, s1, j := ExtendCall(s, q, done, v, i, x, e); }
      PathTail(n, e, path, v, q);
      rest, t, group := Closes(s1, q, done + {v}, x, j, path[1..], n, e);
      GoesOn(s, run, s1, rest, t, e);
      run := run + rest;
    }
  }

  lemma PathTail(n: nat, e: Permits, path: seq<nat>, v: nat, q: nat)
    requires Path(n, e, path, v, q) && NoDup(path) && |path| > 2
    ensures Path(n, e, path[1..], path[1], q) && NoDup(path[1..])
    ensures forall k :: 0 <= k < |path[1..]| - 1 ==> path[1..][k] == path[k + 1] != v
  {
    assert Edge(n, e, path[0], path[0 + 1]);
    forall k | 0 <= k < |path[1..]| - 1 ensures Edge(n, e, path[1..][k], path[1..][k + 1]) {
      assert Edge(n, e, path[k + 1], path[k + 1 + 1]);
    }
  }

  /** A callback of another runner to begin with. */
  lemma Begins(n: nat, q: nat, r: nat, e: Permits) returns (run: seq<Step>, t: State, w: Invocation)
    requires Crosses(n, e, q, r)
    ensures Goes(Init(n), run, t, e) && Building(t, q, {q}, r, w) && |t.runners| == n
  {
    var s := Init(n);
    w := Invocation(0, r, true);
    var s1 := CrossedTo(s, q, r);
    run := CrossesTo(s, q, r, e);
    assert s1.runners[r] == NEW_RUNNER.(native := [w], entering := [w]);
    var rest := Lands(s1, r, w, e);
    t := Landed(s1, r, w);
    GoesOn(s, run, s1, rest, t, e);
    run := run + rest;
    assert AwayFor(t, {q} + {r}, q);
  }

  // ---- the main results ----

  /** A cycle through a callback of another runner can end in a state that is at rest and not empty. */
  lemma CycleDeadlocks(n: nat, e: Permits, q: nat, r: nat) returns (run: seq<Step>)
    requires Crosses(n, e, q, r) && Connected(n, e, r, q)
    ensures Valid(Init(n), run) && Within(run, e) && Orderly(run)
    ensures AtRest(Exec(Init(n), run)) && !Empty(Exec(Init(n), run))
  {
    var anyPath :| Path(n, e, anyPath, r, q);
    var path := SimplePath(n, e, anyPath, r, q);
    forall k | 0 <= k < |path| - 1 ensures path[k] !in {q} {
      assert path[k] != path[|path| - 1];
    }
    var first, s, w := Begins(n, q, r, e);
    var second, t, group := Closes(s, q, {q}, r, w, path, n, e);
    GoesOn(Init(n), first, s, second, t, e);
    var last := RunToRest(t, Population(t));
    assert Within(last, e);
    var u := Exec(t, last);
    GoesOn(Init(n), first + second, t, last, u, e);
    run := first + second + last;
    StaysDead(n, first + second, last, group);
  }

  lemma StaysDead(n: nat, run: seq<Step>, later: seq<Step>, group: set<nat>)
    requires Valid(Init(n), run) && Dead(Exec(Init(n), run), group)
    requires Valid(Exec(Init(n), run), later) && NothingFresh(later)
    ensures !Empty(Exec(Exec(Init(n), run), later))
  {
    var t := Exec(Init(n), run);
    assert Reaches(Init(n), run, t);
    ValueFlow.ReachableInv(t);
    ForeignCallbacks.ReachableReturnsHomed(t);
    DeadRun(t, group, later);
    DeadIsNotEmpty(Exec(t, later), group);
  }

  /** Every orderly run of `n` runners within `e` that cannot go on by itself has returned every callback
      and finished every callout. */
  ghost predicate AlwaysEmptyAtRest(n: nat, e: Permits) {
    forall s :: ReachedWithin(s, n, e) && AtRest(s) ==> Empty(s)
  }

  /** Callouts and callbacks never block each other for ever if and only if no cycle of the permitted calls
      goes through a callback of another runner. */
  lemma RestIffNoCrossCycle(n: nat, e: Permits)
    ensures AlwaysEmptyAtRest(n, e) <==> NoCrossCycle(n, e)
  {
    if NoCrossCycle(n, e) {
      forall s | ReachedWithin(s, n, e) && AtRest(s) ensures Empty(s) {
        RestIsEmpty(s, n, e);
      }
    } else {
      var q: nat, r: nat :| Crosses(n, e, q, r) && Connected(n, e, r, q);
      var run := CycleDeadlocks(n, e, q, r);
      var s := Exec(Init(n), run);
      assert Reaches(Init(n), run, s);
    }
  }

  /** Two runners are enough: functions on `q` call callbacks of `r`, and functions on `r` call callbacks of
      `q` or blocks of `r` call out on `q`. */
  lemma TwoRunnersDeadlock(n: nat, q: nat, r: nat, e: Permits)
    requires q < n && r < n && q != r && (q, r) in e.cross && ((r, q) in e.cross || (r, q) in e.calls)
    ensures !AlwaysEmptyAtRest(n, e)
  {
    assert Crosses(n, e, q, r);
    var path := [r, q];
    assert Edge(n, e, path[0], path[0 + 1]);
    assert Path(n, e, path, r, q);
    RestIffNoCrossCycle(n, e);
  }

  /** As long as no function calls a callback of another runner, blocks may call out wherever they like. */
  lemma CalloutsNeverDeadlock(n: nat, e: Permits)
    requires e.cross == {}
    ensures AlwaysEmptyAtRest(n, e)
  {
    assert NoCrossCycle(n, e) by {
      forall q, r ensures !Crosses(n, e, q, r) {
      }
    }
    RestIffNoCrossCycle(n, e);
  }
}
