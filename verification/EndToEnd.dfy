/** The protocol with the real waits: a process does not see whether its function has returned, it waits
    on a semaphore that it has leased from the pool of the runner.

    `Both` runs the protocol and one instance of the handshake for each runner together. The guards of
    `CanDo` are those of the code: a process reads its result when the handshake lets it. It is proved
    that the worker's steps always find the handshake ready for them, and that the protocol's guard, which
    looks at the result itself, then holds; so every run of both is a run of the protocol, and what is
    proved there of values holds of the values read through semaphores. */
module EndToEnd {
  import opened Prelude
  import P = Protocol
  import A = AsyncCall
  import PoolLending
  import ValueFlow
  import NestedCalls
  import Refinement

  type Process = P.Process

  /** The system, and the calls and the semaphore pool of each runner. */
  datatype Both = Both(system: P.State, pools: seq<A.State>)

  datatype Act =
    | System(a: P.Step)              // everything but the two that follow
    | Send(r: nat, p: Process)       // dispatch of the callout that the process has prepared
    | Read(r: nat, p: Process)       // past its semaphore, the process reads the return value
    | Wait(r: nat, h: A.Step)        // lease, signal, test, wake, reset, give back

  /** The process is running, so it can act. */
  predicate CanAct(s: P.State, p: Process) {
    p.OfCallback? ==> P.Runs(s, p.inv)
  }

  predicate InCall(b: Both, p: Process) {
    exists r :: 0 <= r < |b.pools| && p in b.pools[r].calls
  }

  /** A process does one thing at a time; otherwise these are the guards of the code. */
  predicate CanDo(b: Both, act: Act) {
    match act
    case System(a) =>
      && P.Enabled(b.system, a) && !a.Dispatch? && !a.CallerResumes?
      && (a.BlockEnds? ==> !InCall(b, P.OfCallback(b.system.runners[a.r].image[a.k].inv)))
    case Send(r, p) => r < |b.pools| && p in b.pools[r].calls && b.pools[r].calls[p].Leased?
    case Read(r, p) => r < |b.pools| && A.Enabled(b.pools[r], A.Read(p))
    case Wait(r, h) =>
      && r < |b.pools| && A.Enabled(b.pools[r], h)
      && !h.Dispatch? && !h.Start? && !h.Finish? && !h.Read?
      && (h.Lease? ==> !InCall(b, h.p) && CanAct(b.system, h.p))
  }

  /** The step of the protocol that an act is, if any. */
  function SystemStep(act: Act): Option<P.Step> {
    match act
    case System(a) => Some(a)
    case Send(r, p) => Some(P.Dispatch(r, p))
    case Read(_, p) => Some(P.CallerResumes(p))
    case Wait(_, _) => None
  }

  /** The step of the handshake that an act is, and on which runner, if any. */
  function PoolStep(b: Both, act: Act): Option<(nat, A.Step)>
    requires CanDo(b, act)
  {
    match act
    case System(a) =>
      if a.TakeTask? && b.system.runners[a.r].tasks[0].Callout? then Some((a.r, A.Start(b.system.runners[a.r].tasks[0].call.id)))
      else if a.CalloutEnds? then Some((a.r, A.Finish(Last(b.system.runners[a.r].frames).call.id, a.v)))
      else None
    case Send(r, p) => Some((r, A.Dispatch(p, b.system.nextCall)))
    case Read(r, p) => Some((r, A.Read(p)))
    case Wait(r, h) => Some((r, h))
  }

  /** Both components are ready for their step of the act. */
  predicate Ready(b: Both, act: Act) {
    && CanDo(b, act)
    && (SystemStep(act).Some? ==> P.Enabled(b.system, SystemStep(act).value))
    && (PoolStep(b, act).Some? ==>
          PoolStep(b, act).value.0 < |b.pools|
          && A.Enabled(b.pools[PoolStep(b, act).value.0], PoolStep(b, act).value.1))
  }

  function Do(b: Both, act: Act): Both
    requires Ready(b, act)
  {
    var system := if SystemStep(act).Some? then P.Next(b.system, SystemStep(act).value) else b.system;
    var step := PoolStep(b, act);
    Both(system, if step.Some? then b.pools[step.value.0 := A.Next(b.pools[step.value.0], step.value.1)] else b.pools)
  }

  // ---- the coupling ----

  /** The process waits in the protocol. */
  predicate Awaits(c: A.Phase) {
    c.Dispatched? || c.Waiting? || c.Passed?
  }

  /** The callers of runner `r` in both components. */
  ghost predicate Callers(s: P.State, a: A.State, r: nat) {
    && a.nextTask <= s.nextCall
    && (forall p :: p in a.calls ==> CanAct(s, p) && (Awaits(a.calls[p]) <==> p in s.awaiting))
    && (forall p :: p in a.calls && Awaits(a.calls[p]) ==> s.awaiting[p].runner == r && s.awaiting[p].id == a.calls[p].id)
  }

  /** Callouts in the queue and on the C stack are the queued and running tasks. */
  ghost predicate Tracked(rs: P.RunnerState, a: A.State) {
    && (forall k :: 0 <= k < |rs.tasks| && rs.tasks[k].Callout? ==>
          rs.tasks[k].call.id in a.tasks && a.tasks[rs.tasks[k].call.id].status == A.Queued)
    && (forall k :: 0 <= k < |rs.frames| && rs.frames[k].CallFrame? ==>
          rs.frames[k].call.id in a.tasks && a.tasks[rs.frames[k].call.id].status == A.Running)
    && (forall j, k :: 0 <= j < k < |rs.tasks| && rs.tasks[j].Callout? && rs.tasks[k].Callout? ==>
          rs.tasks[j].call.id != rs.tasks[k].call.id)
    && (forall j, k :: 0 <= j < k < |rs.frames| && rs.frames[j].CallFrame? && rs.frames[k].CallFrame? ==>
          rs.frames[j].call.id != rs.frames[k].call.id)
  }

  /** An awaited callout is known by its number. */
  ghost predicate Identified(rs: P.RunnerState, awaiting: map<Process, P.Call>, r: nat) {
    && (forall p, k :: p in awaiting && awaiting[p].runner == r && 0 <= k < |rs.tasks| && rs.tasks[k].Callout? ==>
          (rs.tasks[k].call.id == awaiting[p].id ==> rs.tasks[k].call == awaiting[p]))
    && (forall p, k :: p in awaiting && awaiting[p].runner == r && 0 <= k < |rs.frames| && rs.frames[k].CallFrame? ==>
          (rs.frames[k].call.id == awaiting[p].id ==> rs.frames[k].call == awaiting[p]))
  }

  /** Both components know the same results. */
  ghost predicate SameResults(s: P.State, a: A.State, r: nat) {
    && (forall c :: c in s.result && c.runner == r ==> c.id in a.results && a.results[c.id] == s.result[c])
    && (forall p :: p in s.awaiting && s.awaiting[p].runner == r && s.awaiting[p].id in a.results ==> s.awaiting[p] in s.result)
  }

  ghost predicate Pooled(a: A.State) {
    A.Inv(a) && A.WrittenOnce(a)
  }

  ghost predicate CoupledRunner(s: P.State, a: A.State, r: nat)
    requires r < |s.runners|
  {
    Callers(s, a, r) && Tracked(s.runners[r], a) && Identified(s.runners[r], s.awaiting, r) && SameResults(s, a, r) && Pooled(a)
  }

  /** A process is inside one call only, and inside one when it waits. */
  ghost predicate OneCall(b: Both) {
    && (forall q, r, p :: 0 <= q < |b.pools| && 0 <= r < |b.pools| && p in b.pools[q].calls && p in b.pools[r].calls ==> q == r)
    && (forall p :: p in b.system.awaiting ==>
          b.system.awaiting[p].runner < |b.pools| && p in b.pools[b.system.awaiting[p].runner].calls)
  }

  ghost predicate Coupled(b: Both) {
    && ValueFlow.Inv(b.system) && |b.pools| == |b.system.runners| && OneCall(b)
    && forall r :: 0 <= r < |b.pools| ==> CoupledRunner(b.system, b.pools[r], r)
  }

  // ---- every act finds both components ready ----

  lemma PassedIsAwaited(s: P.State, pool: A.State, r: nat, p: Process)
    requires Callers(s, pool, r) && SameResults(s, pool, r) && Pooled(pool) && A.Enabled(pool, A.Read(p))
    ensures p in s.awaiting && s.awaiting[p].runner == r && s.awaiting[p] in s.result
    ensures pool.calls[p].id in pool.results && pool.results[pool.calls[p].id] == s.result[s.awaiting[p]]
  {
    assert A.Balanced(pool, pool.calls[p]);
  }

  /** What process `p` finds in the handshake is the result of the callout it awaits in the protocol. */
  ghost predicate FindsItsResult(s: P.State, pool: A.State, r: nat, p: Process) {
    && p in s.awaiting && s.awaiting[p].runner == r && s.awaiting[p] in s.result
    && p in pool.calls && pool.calls[p].Passed? && pool.calls[p].id in pool.results
    && pool.results[pool.calls[p].id] == s.result[s.awaiting[p]]
  }

  /** Nobody else has leased the semaphore of `p`. */
  ghost predicate HoldsAlone(pool: A.State, p: Process) {
    p in pool.calls && forall q :: q in pool.calls && q != p ==> pool.calls[q].semaphore != pool.calls[p].semaphore
  }

  /** A process past its semaphore finds its result, and it is the value its function finished with. */
  lemma ReadIsReady(b: Both, r: nat, p: Process)
    requires Coupled(b) && CanDo(b, Read(r, p))
    ensures P.Enabled(b.system, P.CallerResumes(p)) && FindsItsResult(b.system, b.pools[r], r, p)
  {
    assert CoupledRunner(b.system, b.pools[r], r);
    PassedIsAwaited(b.system, b.pools[r], r, p);
  }

  lemma SendIsReady(b: Both, r: nat, p: Process)
    requires Coupled(b) && CanDo(b, Send(r, p))
    ensures P.Enabled(b.system, P.Dispatch(r, p)) && A.Enabled(b.pools[r], A.Dispatch(p, b.system.nextCall))
  {
    assert CoupledRunner(b.system, b.pools[r], r);
  }

  // ---- every act keeps the coupling ----

  /** A step of the protocol that has no part in the handshake. */
  predicate Plain(s: P.State, a: P.Step)
    requires P.Enabled(s, a)
  {
    && !a.Dispatch? && !a.CallerResumes? && !a.CalloutEnds?
    && (a.TakeTask? ==> !s.runners[a.r].tasks[0].Callout?)
  }

  /** Callouts and their frames are the same, with other tasks and frames added or taken away. */
  ghost predicate SameCallouts(rs: P.RunnerState, t: P.RunnerState) {
    && (t.tasks == rs.tasks || (rs.tasks != [] && t.tasks == rs.tasks[1..])
        || (t.tasks != [] && t.tasks == rs.tasks + [Last(t.tasks)] && !Last(t.tasks).Callout?))
    && (t.frames == rs.frames || (rs.frames != [] && t.frames == Front(rs.frames))
        || (t.frames != [] && t.frames == rs.frames + [Last(t.frames)] && !Last(t.frames).CallFrame?))
  }

  lemma PlainCallouts(s: P.State, a: P.Step, r: nat)
    requires P.Enabled(s, a) && Plain(s, a) && r < |s.runners|
    ensures SameCallouts(s.runners[r], P.Next(s, a).runners[r])
  {
    if !P.Touches(s, a, r) { P.Untouched(s, a, r); }
  }

  lemma TrackedPlain(rs: P.RunnerState, t: P.RunnerState, awaiting: map<Process, P.Call>, r: nat, pool: A.State)
    requires Tracked(rs, pool) && Identified(rs, awaiting, r) && SameCallouts(rs, t)
    ensures Tracked(t, pool) && Identified(t, awaiting, r)
  {
  }

  /** The processes inside calls go on running. */
  lemma CallersGoOn(s: P.State, a: P.Step, pool: A.State)
    requires P.Enabled(s, a) && forall p :: p in pool.calls ==> CanAct(s, p)
    requires a.BlockEnds? ==> P.OfCallback(s.runners[a.r].image[a.k].inv) !in pool.calls
    ensures forall p :: p in pool.calls ==> CanAct(P.Next(s, a), p)
  {
    forall p | p in pool.calls && p.OfCallback? ensures P.Runs(P.Next(s, a), p.inv) {
      assert CanAct(s, p);
      P.StaysRunning(s, a, p.inv);
    }
  }

  lemma PlainCoupled(b: Both, a: P.Step, r: nat)
    requires Coupled(b) && CanDo(b, System(a)) && Plain(b.system, a) && r < |b.pools|
    ensures CoupledRunner(P.Next(b.system, a), b.pools[r], r)
  {
    var s, pool := b.system, b.pools[r];
    assert a.BlockEnds? ==> P.OfCallback(s.runners[a.r].image[a.k].inv) !in pool.calls;
    Part(b, r);
    PlainRunner(s, a, pool, r);
  }

  lemma PlainRunner(s: P.State, a: P.Step, pool: A.State, r: nat)
    requires P.Enabled(s, a) && Plain(s, a) && r < |s.runners| && CoupledRunner(s, pool, r)
    requires a.BlockEnds? ==> P.OfCallback(s.runners[a.r].image[a.k].inv) !in pool.calls
    ensures |P.Next(s, a).runners| == |s.runners| && CoupledRunner(P.Next(s, a), pool, r)
  {
    CallersGoOn(s, a, pool);
    PlainCallouts(s, a, r);
    PlainWrites(s, a);
    TrackedPlain(s.runners[r], P.Next(s, a).runners[r], s.awaiting, r, pool);
  }

  lemma PlainWrites(s: P.State, a: P.Step)
    requires P.Enabled(s, a) && Plain(s, a)
    ensures
      var t := P.Next(s, a);
      |t.runners| == |s.runners| && t.awaiting == s.awaiting && t.result == s.result && t.nextCall == s.nextCall
  {
    P.WritesEffect(s, a);
  }

  /** Another runner than the one that acts. */
  lemma ElsewhereCoupled(s: P.State, t: P.State, pool: A.State, r: nat)
    requires r < |s.runners| && r < |t.runners| && CoupledRunner(s, pool, r)
    requires t.runners[r] == s.runners[r] && t.nextCall >= s.nextCall
    requires forall p :: p in pool.calls ==> CanAct(t, p)
    requires forall p :: p in pool.calls ==> (p in t.awaiting <==> p in s.awaiting)
    requires forall p :: p in pool.calls && p in s.awaiting && p in t.awaiting ==> t.awaiting[p] == s.awaiting[p]
    requires forall p :: p in t.awaiting && t.awaiting[p].runner == r ==> p in s.awaiting && t.awaiting[p] == s.awaiting[p]
    requires forall c: P.Call :: c.runner == r ==> (c in t.result <==> c in s.result)
    requires forall c: P.Call :: c.runner == r && c in s.result && c in t.result ==> t.result[c] == s.result[c]
    ensures CoupledRunner(t, pool, r)
  {
  }

  lemma PooledStep(a: A.State, step: A.Step)
    requires Pooled(a) && A.Enabled(a, step)
    ensures Pooled(A.Next(a, step))
  {
    A.InvStep(a, step);
    A.WrittenOnceStep(a, step);
  }

  // -- the worker takes a callout --

  lemma TrackedTake(rs: P.RunnerState, pool: A.State, awaiting: map<Process, P.Call>, r: nat)
    requires P.Idle(rs) && rs.tasks != [] && rs.tasks[0].Callout?
    requires Tracked(rs, pool) && Identified(rs, awaiting, r) && A.Enabled(pool, A.Start(rs.tasks[0].call.id))
    ensures Tracked(P.Take(rs), A.Next(pool, A.Start(rs.tasks[0].call.id))) && Identified(P.Take(rs), awaiting, r)
  {
  }

  lemma TakeOwn(s: P.State, pool: A.State, r: nat)
    requires P.Enabled(s, P.TakeTask(r)) && s.runners[r].tasks[0].Callout? && CoupledRunner(s, pool, r)
    ensures
      var h := A.Start(s.runners[r].tasks[0].call.id);
      A.Enabled(pool, h) && CoupledRunner(P.Next(s, P.TakeTask(r)), A.Next(pool, h), r)
  {
    CallersGoOn(s, P.TakeTask(r), pool);
    TrackedTake(s.runners[r], pool, s.awaiting, r);
    PooledStep(pool, A.Start(s.runners[r].tasks[0].call.id));
  }

  lemma TakeElsewhere(s: P.State, pool: A.State, r: nat, q: nat)
    requires P.Enabled(s, P.TakeTask(r)) && q < |s.runners| && q != r && CoupledRunner(s, pool, q)
    ensures CoupledRunner(P.Next(s, P.TakeTask(r)), pool, q)
  {
    CallersGoOn(s, P.TakeTask(r), pool);
    ElsewhereCoupled(s, P.Next(s, P.TakeTask(r)), pool, q);
  }

  // -- a function returns --

  lemma TrackedEnd(rs: P.RunnerState, pool: A.State, awaiting: map<Process, P.Call>, r: nat, v: P.Value)
    requires P.InFunction(rs) && Tracked(rs, pool) && Identified(rs, awaiting, r)
    requires A.Enabled(pool, A.Finish(Last(rs.frames).call.id, v))
    ensures
      var t := rs.(frames := Front(rs.frames));
      Tracked(t, A.Next(pool, A.Finish(Last(rs.frames).call.id, v))) && Identified(t, awaiting, r)
  {
  }

  lemma ResultsEnd(s: P.State, pool: A.State, r: nat, c: P.Call, v: P.Value)
    requires SameResults(s, pool, r) && Pooled(pool) && c.runner == r
    requires c.id in pool.tasks && pool.tasks[c.id].status == A.Running
    requires forall p :: p in s.awaiting && s.awaiting[p].runner == r && s.awaiting[p].id == c.id ==> s.awaiting[p] == c
    ensures SameResults(s.(result := s.result[c := v]), A.Next(pool, A.Finish(c.id, v)), r)
  {
  }

  lemma EndOwn(s: P.State, pool: A.State, r: nat, v: P.Value)
    requires ValueFlow.Inv(s) && P.Enabled(s, P.CalloutEnds(r, v)) && CoupledRunner(s, pool, r)
    ensures
      var h := A.Finish(Last(s.runners[r].frames).call.id, v);
      A.Enabled(pool, h) && CoupledRunner(P.Next(s, P.CalloutEnds(r, v)), A.Next(pool, h), r)
  {
    var rs := s.runners[r];
    var c := Last(rs.frames).call;
    CallersGoOn(s, P.CalloutEnds(r, v), pool);
    assert ValueFlow.Owned(rs, r, s.nextId, s.nextCall);
    assert rs.frames[|rs.frames| - 1].call == c;
    TrackedEnd(rs, pool, s.awaiting, r, v);
    ResultsEnd(s, pool, r, c, v);
    PooledStep(pool, A.Finish(c.id, v));
    EndAssembled(s, pool, r, v);
  }

  lemma EndAssembled(s: P.State, pool: A.State, r: nat, v: P.Value)
    requires P.Enabled(s, P.CalloutEnds(r, v)) && Callers(s, pool, r)
    requires forall p :: p in pool.calls ==> CanAct(P.Next(s, P.CalloutEnds(r, v)), p)
    requires A.Enabled(pool, A.Finish(Last(s.runners[r].frames).call.id, v))
    ensures Callers(P.Next(s, P.CalloutEnds(r, v)), A.Next(pool, A.Finish(Last(s.runners[r].frames).call.id, v)), r)
  {
  }

  lemma EndElsewhere(s: P.State, pool: A.State, r: nat, v: P.Value, q: nat)
    requires ValueFlow.Inv(s) && P.Enabled(s, P.CalloutEnds(r, v)) && q < |s.runners| && q != r && CoupledRunner(s, pool, q)
    ensures CoupledRunner(P.Next(s, P.CalloutEnds(r, v)), pool, q)
  {
    CallersGoOn(s, P.CalloutEnds(r, v), pool);
    assert ValueFlow.Owned(s.runners[r], r, s.nextId, s.nextCall);
    ElsewhereCoupled(s, P.Next(s, P.CalloutEnds(r, v)), pool, q);
  }

  // -- a process dispatches --

  lemma TrackedSend(rs: P.RunnerState, pool: A.State, c: P.Call)
    requires Tracked(rs, pool) && A.Enabled(pool, A.Dispatch(c.caller, c.id)) && Pooled(pool)
    requires forall k :: 0 <= k < |rs.tasks| && rs.tasks[k].Callout? ==> rs.tasks[k].call.id < c.id
    ensures Tracked(rs.(tasks := rs.tasks + [P.Callout(c)]), A.Next(pool, A.Dispatch(c.caller, c.id)))
  {
  }

  lemma IdentifiedSend(rs: P.RunnerState, awaiting: map<Process, P.Call>, r: nat, c: P.Call)
    requires Identified(rs, awaiting, r) && c.caller !in awaiting
    requires forall k :: 0 <= k < |rs.tasks| && rs.tasks[k].Callout? ==> rs.tasks[k].call.id < c.id
    requires forall k :: 0 <= k < |rs.frames| && rs.frames[k].CallFrame? ==> rs.frames[k].call.id < c.id
    requires forall p :: p in awaiting ==> awaiting[p].id < c.id
    ensures Identified(rs.(tasks := rs.tasks + [P.Callout(c)]), awaiting[c.caller := c], r)
  {
  }

  lemma SendCallers(s: P.State, pool: A.State, r: nat, p: Process)
    requires Callers(s, pool, r) && P.Enabled(s, P.Dispatch(r, p)) && A.Enabled(pool, A.Dispatch(p, s.nextCall))
    requires forall q :: q in pool.calls ==> CanAct(P.Next(s, P.Dispatch(r, p)), q)
    ensures Callers(P.Next(s, P.Dispatch(r, p)), A.Next(pool, A.Dispatch(p, s.nextCall)), r)
  {
  }

  lemma SendResults(s: P.State, pool: A.State, r: nat, c: P.Call)
    requires SameResults(s, pool, r) && c.id !in pool.results
    ensures SameResults(s.(awaiting := s.awaiting[c.caller := c]), pool, r)
  {
  }

  lemma SendOwn(s: P.State, pool: A.State, r: nat, p: Process)
    requires ValueFlow.Inv(s) && r < |s.runners| && CoupledRunner(s, pool, r)
    requires P.Enabled(s, P.Dispatch(r, p)) && A.Enabled(pool, A.Dispatch(p, s.nextCall))
    ensures CoupledRunner(P.Next(s, P.Dispatch(r, p)), A.Next(pool, A.Dispatch(p, s.nextCall)), r)
  {
    var rs, c := s.runners[r], P.Call(s.nextCall, r, p);
    var t, next := P.Next(s, P.Dispatch(r, p)), A.Next(pool, A.Dispatch(p, s.nextCall));
    CallersGoOn(s, P.Dispatch(r, p), pool);
    SendCallers(s, pool, r, p);
    assert ValueFlow.Owned(rs, r, s.nextId, s.nextCall);
    TrackedSend(rs, pool, c);
    IdentifiedSend(rs, s.awaiting, r, c);
    SendResults(s, pool, r, c);
    assert next.results == pool.results && t.result == s.result;
    PooledStep(pool, A.Dispatch(p, c.id));
  }

  lemma SendElsewhere(s: P.State, pool: A.State, r: nat, p: Process, q: nat)
    requires q < |s.runners| && q != r && CoupledRunner(s, pool, q) && p !in pool.calls
    requires P.Enabled(s, P.Dispatch(r, p))
    ensures CoupledRunner(P.Next(s, P.Dispatch(r, p)), pool, q)
  {
    var t := P.Next(s, P.Dispatch(r, p));
    CallersGoOn(s, P.Dispatch(r, p), pool);
    ElsewhereCoupled(s, t, pool, q);
  }

  // -- a process reads --

  lemma ReadOwn(s: P.State, pool: A.State, r: nat, p: Process)
    requires r < |s.runners| && CoupledRunner(s, pool, r)
    requires P.Enabled(s, P.CallerResumes(p)) && A.Enabled(pool, A.Read(p))
    ensures CoupledRunner(P.Next(s, P.CallerResumes(p)), A.Next(pool, A.Read(p)), r)
  {
    PooledStep(pool, A.Read(p));
    ReadCallers(s, pool, r, p);
    ReadRest(s, pool, r, p);
  }

  lemma ReadCallers(s: P.State, pool: A.State, r: nat, p: Process)
    requires Callers(s, pool, r) && P.Enabled(s, P.CallerResumes(p)) && A.Enabled(pool, A.Read(p))
    ensures Callers(P.Next(s, P.CallerResumes(p)), A.Next(pool, A.Read(p)), r)
  {
  }

  lemma ReadRest(s: P.State, pool: A.State, r: nat, p: Process)
    requires r < |s.runners| && P.Enabled(s, P.CallerResumes(p)) && A.Enabled(pool, A.Read(p))
    requires Tracked(s.runners[r], pool) && Identified(s.runners[r], s.awaiting, r) && SameResults(s, pool, r)
    ensures
      var t, next := P.Next(s, P.CallerResumes(p)), A.Next(pool, A.Read(p));
      r < |t.runners| && Tracked(t.runners[r], next) && Identified(t.runners[r], t.awaiting, r) && SameResults(t, next, r)
  {
  }

  lemma ReadElsewhere(s: P.State, pool: A.State, r: nat, p: Process, q: nat)
    requires q < |s.runners| && q != r && CoupledRunner(s, pool, q) && p !in pool.calls
    requires P.Enabled(s, P.CallerResumes(p)) && s.awaiting[p].runner == r
    ensures CoupledRunner(P.Next(s, P.CallerResumes(p)), pool, q)
  {
    var t := P.Next(s, P.CallerResumes(p));
    assert t.runners == s.runners && t.result == s.result && t.nextCall == s.nextCall && t.awaiting == s.awaiting - {p};
    forall c | c in pool.calls ensures CanAct(t, c) {
      assert CanAct(s, c);
    }
    ElsewhereCoupled(s, t, pool, q);
  }

  // -- a step of the handshake alone --

  predicate Alone(h: A.Step) {
    !h.Dispatch? && !h.Start? && !h.Finish? && !h.Read?
  }

  /** What a step of the handshake alone leaves as it is. */
  ghost predicate LeavesAlone(pool: A.State, next: A.State, h: A.Step) {
    && next.results == pool.results && next.nextTask == pool.nextTask
    && (forall id :: id in pool.tasks && pool.tasks[id].status != A.Finished ==> id in next.tasks && next.tasks[id] == pool.tasks[id])
    && (forall p :: p in next.calls ==> p in pool.calls || (h.Lease? && p == h.p))
    && (forall p :: p in next.calls && p in pool.calls ==> (Awaits(next.calls[p]) <==> Awaits(pool.calls[p])))
    && (forall p :: p in next.calls && p in pool.calls && Awaits(next.calls[p]) ==> next.calls[p].id == pool.calls[p].id)
    && (forall p :: p in next.calls && p !in pool.calls ==> !Awaits(next.calls[p]))
    && (forall p :: p in pool.calls && Awaits(pool.calls[p]) ==> p in next.calls)
  }

  lemma LeaseEffect(pool: A.State, p: Process)
    requires A.Enabled(pool, A.Lease(p))
    ensures LeavesAlone(pool, A.Next(pool, A.Lease(p)), A.Lease(p))
  {
    var next := A.Next(pool, A.Lease(p));
    A.LeaseCalls(pool, p);
    assert next.calls == pool.calls || (exists x :: next.calls == pool.calls[p := A.Leased(x)]);
  }

  lemma ReturnEffect(pool: A.State, p: Process)
    requires A.Enabled(pool, A.Return(p))
    ensures LeavesAlone(pool, A.Next(pool, A.Return(p)), A.Return(p))
  {
    var next := A.Next(pool, A.Return(p));
    assert next.tasks == pool.tasks && next.results == pool.results && next.calls == pool.calls - {p};
  }

  lemma AloneEffect(pool: A.State, h: A.Step)
    requires A.Enabled(pool, h) && Alone(h)
    ensures LeavesAlone(pool, A.Next(pool, h), h)
  {
    match h {
      case Lease(p) => LeaseEffect(pool, p);
      case Return(p) => ReturnEffect(pool, p);
      case _ =>
    }
  }

  lemma WaitOwn(s: P.State, pool: A.State, r: nat, h: A.Step)
    requires r < |s.runners| && CoupledRunner(s, pool, r) && A.Enabled(pool, h) && Alone(h)
    requires h.Lease? ==> CanAct(s, h.p) && h.p !in s.awaiting
    ensures CoupledRunner(s, A.Next(pool, h), r)
  {
    AloneEffect(pool, h);
    PooledStep(pool, h);
    WaitCallers(s, pool, A.Next(pool, h), r, h);
  }

  lemma WaitCallers(s: P.State, pool: A.State, next: A.State, r: nat, h: A.Step)
    requires Callers(s, pool, r) && LeavesAlone(pool, next, h) && (h.Lease? ==> CanAct(s, h.p) && h.p !in s.awaiting)
    ensures Callers(s, next, r)
  {
  }

  lemma WaitOneCall(b: Both, r: nat, h: A.Step, next: A.State)
    requires OneCall(b) && r < |b.pools| && Callers(b.system, b.pools[r], r) && LeavesAlone(b.pools[r], next, h)
    requires h.Lease? ==> forall q :: 0 <= q < |b.pools| ==> h.p !in b.pools[q].calls
    ensures OneCall(Both(b.system, b.pools[r := next]))
  {
    var t := Both(b.system, b.pools[r := next]);
    forall p | p in t.system.awaiting ensures p in t.pools[t.system.awaiting[p].runner].calls {
      assert p in b.pools[b.system.awaiting[p].runner].calls;
    }
  }

  // -- all together --

  lemma Part(b: Both, r: nat)
    requires Coupled(b) && r < |b.pools|
    ensures r < |b.system.runners| && CoupledRunner(b.system, b.pools[r], r)
  {
  }

  lemma NotElsewhere(b: Both, r: nat, q: nat, p: Process)
    requires OneCall(b) && r < |b.pools| && q < |b.pools| && q != r && p in b.pools[r].calls
    ensures p !in b.pools[q].calls
  {
  }

  /** The same processes are inside calls. */
  lemma OneCallKept(b: Both, t: Both)
    requires OneCall(b) && |t.pools| == |b.pools|
    requires forall q :: 0 <= q < |b.pools| ==> t.pools[q].calls.Keys == b.pools[q].calls.Keys
    requires forall p :: p in t.system.awaiting ==>
      || (p in b.system.awaiting && t.system.awaiting[p] == b.system.awaiting[p])
      || (t.system.awaiting[p].runner < |b.pools| && p in b.pools[t.system.awaiting[p].runner].calls)
    ensures OneCall(t)
  {
    forall p | p in t.system.awaiting
      ensures t.system.awaiting[p].runner < |t.pools| && p in t.pools[t.system.awaiting[p].runner].calls
    {
      var q := t.system.awaiting[p].runner;
      assert q < |b.pools| && p in b.pools[q].calls;
      assert p in t.pools[q].calls.Keys;
    }
    forall q, r, p | 0 <= q < |t.pools| && 0 <= r < |t.pools| && p in t.pools[q].calls && p in t.pools[r].calls ensures q == r {
      assert p in t.pools[q].calls.Keys && p in t.pools[r].calls.Keys;
      assert p in b.pools[q].calls && p in b.pools[r].calls;
    }
  }

  lemma Assemble(t: Both)
    requires ValueFlow.Inv(t.system) && |t.pools| == |t.system.runners| && OneCall(t)
    requires forall r :: 0 <= r < |t.pools| ==> CoupledRunner(t.system, t.pools[r], r)
    ensures Coupled(t)
  {
  }

  lemma DoPlain(b: Both, a: P.Step)
    requires CanDo(b, System(a)) && Plain(b.system, a)
    ensures Ready(b, System(a)) && Do(b, System(a)) == Both(P.Next(b.system, a), b.pools)
  {
  }

  lemma PlainKeeps(b: Both, a: P.Step)
    requires Coupled(b) && CanDo(b, System(a)) && Plain(b.system, a)
    ensures Coupled(Both(P.Next(b.system, a), b.pools))
  {
    var t := Both(P.Next(b.system, a), b.pools);
    ValueFlow.InvStep(b.system, a);
    forall q | 0 <= q < |b.pools| ensures CoupledRunner(t.system, t.pools[q], q) {
      PlainCoupled(b, a, q);
    }
    PlainOneCall(b, a);
    PlainAssembled(b, t);
  }

  lemma PlainOneCall(b: Both, a: P.Step)
    requires OneCall(b) && P.Enabled(b.system, a) && !a.Dispatch? && !a.CallerResumes?
    ensures OneCall(Both(P.Next(b.system, a), b.pools)) && |P.Next(b.system, a).runners| == |b.system.runners|
  {
    PlainAwaiting(b.system, a);
    OneCallKept(b, Both(P.Next(b.system, a), b.pools));
  }

  lemma PlainAssembled(b: Both, t: Both)
    requires Coupled(b) && t.pools == b.pools && |t.system.runners| == |b.system.runners| && ValueFlow.Inv(t.system) && OneCall(t)
    requires forall r :: 0 <= r < |t.pools| ==> CoupledRunner(t.system, t.pools[r], r)
    ensures Coupled(t)
  {
  }

  lemma PlainAwaiting(s: P.State, a: P.Step)
    requires P.Enabled(s, a) && !a.Dispatch? && !a.CallerResumes?
    ensures P.Next(s, a).awaiting == s.awaiting && |P.Next(s, a).runners| == |s.runners|
  {
    P.WritesEffect(s, a);
  }

  /** Who waits after runner `r` and its pool have acted is inside a call. */
  ghost predicate WaitersInCalls(b: Both, system: P.State, r: nat)
    requires r < |b.pools|
  {
    forall p :: p in system.awaiting ==>
      || (p in b.system.awaiting && system.awaiting[p] == b.system.awaiting[p])
      || (system.awaiting[p].runner == r && p in b.pools[r].calls)
  }

  /** One runner and its pool act. */
  lemma Replace(b: Both, system: P.State, next: A.State, r: nat)
    requires Coupled(b) && ValueFlow.Inv(system) && |system.runners| == |b.pools| && r < |b.pools|
    requires next.calls.Keys == b.pools[r].calls.Keys && CoupledRunner(system, next, r)
    requires forall q :: 0 <= q < |b.pools| && q != r ==> CoupledRunner(system, b.pools[q], q)
    requires WaitersInCalls(b, system, r)
    ensures Coupled(Both(system, b.pools[r := next]))
  {
    ReplaceOneCall(b, system, next, r);
    Assemble(Both(system, b.pools[r := next]));
  }

  lemma ReplaceOneCall(b: Both, system: P.State, next: A.State, r: nat)
    requires OneCall(b) && r < |b.pools| && next.calls.Keys == b.pools[r].calls.Keys && WaitersInCalls(b, system, r)
    ensures OneCall(Both(system, b.pools[r := next]))
  {
    OneCallKept(b, Both(system, b.pools[r := next]));
  }

  lemma TakeKeeps(b: Both, r: nat)
    requires Coupled(b) && P.Enabled(b.system, P.TakeTask(r)) && b.system.runners[r].tasks[0].Callout?
    ensures
      var h := A.Start(b.system.runners[r].tasks[0].call.id);
      r < |b.pools| && A.Enabled(b.pools[r], h) && Coupled(Both(P.Next(b.system, P.TakeTask(r)), b.pools[r := A.Next(b.pools[r], h)]))
  {
    var h := A.Start(b.system.runners[r].tasks[0].call.id);
    ValueFlow.InvStep(b.system, P.TakeTask(r));
    PlainAwaiting(b.system, P.TakeTask(r));
    Part(b, r);
    TakeOwn(b.system, b.pools[r], r);
    StatusCalls(b.pools[r], h);
    forall q | 0 <= q < |b.pools| && q != r ensures CoupledRunner(P.Next(b.system, P.TakeTask(r)), b.pools[q], q) {
      Part(b, q);
      TakeElsewhere(b.system, b.pools[q], r, q);
    }
    Replace(b, P.Next(b.system, P.TakeTask(r)), A.Next(b.pools[r], h), r);
  }

  lemma EndKeeps(b: Both, r: nat, v: P.Value)
    requires Coupled(b) && P.Enabled(b.system, P.CalloutEnds(r, v))
    ensures
      var h := A.Finish(Last(b.system.runners[r].frames).call.id, v);
      r < |b.pools| && A.Enabled(b.pools[r], h)
      && Coupled(Both(P.Next(b.system, P.CalloutEnds(r, v)), b.pools[r := A.Next(b.pools[r], h)]))
  {
    var h := A.Finish(Last(b.system.runners[r].frames).call.id, v);
    ValueFlow.InvStep(b.system, P.CalloutEnds(r, v));
    PlainAwaiting(b.system, P.CalloutEnds(r, v));
    Part(b, r);
    EndOwn(b.system, b.pools[r], r, v);
    StatusCalls(b.pools[r], h);
    forall q | 0 <= q < |b.pools| && q != r ensures CoupledRunner(P.Next(b.system, P.CalloutEnds(r, v)), b.pools[q], q) {
      Part(b, q);
      EndElsewhere(b.system, b.pools[q], r, v, q);
    }
    Replace(b, P.Next(b.system, P.CalloutEnds(r, v)), A.Next(b.pools[r], h), r);
  }

  lemma StatusCalls(pool: A.State, h: A.Step)
    requires A.Enabled(pool, h) && (h.Start? || h.Finish?)
    ensures A.Next(pool, h).calls == pool.calls
  {
  }

  lemma SystemCoupled(b: Both, a: P.Step)
    requires Coupled(b) && CanDo(b, System(a))
    ensures Ready(b, System(a)) && Coupled(Do(b, System(a)))
  {
    if a.CalloutEnds? {
      EndKeeps(b, a.r, a.v);
    } else if Plain(b.system, a) {
      DoPlain(b, a);
      PlainKeeps(b, a);
    } else {
      TakeKeeps(b, a.r);
    }
  }

  lemma SendKeeps(b: Both, r: nat, p: Process)
    requires Coupled(b) && CanDo(b, Send(r, p))
    requires P.Enabled(b.system, P.Dispatch(r, p)) && A.Enabled(b.pools[r], A.Dispatch(p, b.system.nextCall))
    ensures Coupled(Both(P.Next(b.system, P.Dispatch(r, p)), b.pools[r := A.Next(b.pools[r], A.Dispatch(p, b.system.nextCall))]))
  {
    ValueFlow.InvStep(b.system, P.Dispatch(r, p));
    SendParts(b, r, p);
    SendAwaiting(b.system, r, p);
    CallKeys(b.pools[r], A.Dispatch(p, b.system.nextCall));
    Replace(b, P.Next(b.system, P.Dispatch(r, p)), A.Next(b.pools[r], A.Dispatch(p, b.system.nextCall)), r);
  }

  lemma SendAwaiting(s: P.State, r: nat, p: Process)
    requires P.Enabled(s, P.Dispatch(r, p))
    ensures
      var t := P.Next(s, P.Dispatch(r, p));
      |t.runners| == |s.runners| && t.awaiting == s.awaiting[p := P.Call(s.nextCall, r, p)]
  {
  }

  lemma CallKeys(pool: A.State, h: A.Step)
    requires A.Enabled(pool, h) && (h.Dispatch? || h.Read?)
    ensures A.Next(pool, h).calls.Keys == pool.calls.Keys
  {
  }

  lemma SendParts(b: Both, r: nat, p: Process)
    requires Coupled(b) && CanDo(b, Send(r, p))
    requires P.Enabled(b.system, P.Dispatch(r, p)) && A.Enabled(b.pools[r], A.Dispatch(p, b.system.nextCall))
    ensures |P.Next(b.system, P.Dispatch(r, p)).runners| == |b.pools|
    ensures CoupledRunner(P.Next(b.system, P.Dispatch(r, p)), A.Next(b.pools[r], A.Dispatch(p, b.system.nextCall)), r)
    ensures forall q :: 0 <= q < |b.pools| && q != r ==> CoupledRunner(P.Next(b.system, P.Dispatch(r, p)), b.pools[q], q)
  {
    SendAwaiting(b.system, r, p);
    Part(b, r);
    SendOwn(b.system, b.pools[r], r, p);
    forall q | 0 <= q < |b.pools| && q != r ensures CoupledRunner(P.Next(b.system, P.Dispatch(r, p)), b.pools[q], q) {
      Part(b, q);
      NotElsewhere(b, r, q, p);
      SendElsewhere(b.system, b.pools[q], r, p, q);
    }
  }

  lemma SendCoupled(b: Both, r: nat, p: Process)
    requires Coupled(b) && CanDo(b, Send(r, p))
    ensures Ready(b, Send(r, p)) && Coupled(Do(b, Send(r, p)))
  {
    SendIsReady(b, r, p);
    SendKeeps(b, r, p);
  }

  lemma ReadKeeps(b: Both, r: nat, p: Process)
    requires Coupled(b) && CanDo(b, Read(r, p))
    requires P.Enabled(b.system, P.CallerResumes(p)) && b.system.awaiting[p].runner == r
    ensures Coupled(Both(P.Next(b.system, P.CallerResumes(p)), b.pools[r := A.Next(b.pools[r], A.Read(p))]))
  {
    ValueFlow.InvStep(b.system, P.CallerResumes(p));
    ReadParts(b, r, p);
    ReadAwaiting(b.system, p);
    CallKeys(b.pools[r], A.Read(p));
    Replace(b, P.Next(b.system, P.CallerResumes(p)), A.Next(b.pools[r], A.Read(p)), r);
  }

  lemma ReadAwaiting(s: P.State, p: Process)
    requires P.Enabled(s, P.CallerResumes(p))
    ensures P.Next(s, P.CallerResumes(p)).runners == s.runners && P.Next(s, P.CallerResumes(p)).awaiting == s.awaiting - {p}
  {
  }

  lemma ReadParts(b: Both, r: nat, p: Process)
    requires Coupled(b) && CanDo(b, Read(r, p))
    requires P.Enabled(b.system, P.CallerResumes(p)) && b.system.awaiting[p].runner == r
    ensures |P.Next(b.system, P.CallerResumes(p)).runners| == |b.pools|
    ensures CoupledRunner(P.Next(b.system, P.CallerResumes(p)), A.Next(b.pools[r], A.Read(p)), r)
    ensures forall q :: 0 <= q < |b.pools| && q != r ==> CoupledRunner(P.Next(b.system, P.CallerResumes(p)), b.pools[q], q)
  {
    ReadAwaiting(b.system, p);
    Part(b, r);
    ReadOwn(b.system, b.pools[r], r, p);
    forall q | 0 <= q < |b.pools| && q != r ensures CoupledRunner(P.Next(b.system, P.CallerResumes(p)), b.pools[q], q) {
      Part(b, q);
      NotElsewhere(b, r, q, p);
      ReadElsewhere(b.system, b.pools[q], r, p, q);
    }
  }

  lemma ReadCoupled(b: Both, r: nat, p: Process)
    requires Coupled(b) && CanDo(b, Read(r, p))
    ensures Ready(b, Read(r, p)) && Coupled(Do(b, Read(r, p)))
  {
    ReadIsReady(b, r, p);
    ReadKeeps(b, r, p);
  }

  lemma WaitKeeps(b: Both, r: nat, h: A.Step)
    requires Coupled(b) && r < |b.pools| && A.Enabled(b.pools[r], h) && Alone(h)
    requires h.Lease? ==> CanAct(b.system, h.p) && forall q :: 0 <= q < |b.pools| ==> h.p !in b.pools[q].calls
    ensures Coupled(Both(b.system, b.pools[r := A.Next(b.pools[r], h)]))
  {
    var t := Both(b.system, b.pools[r := A.Next(b.pools[r], h)]);
    Part(b, r);
    AloneEffect(b.pools[r], h);
    if h.Lease? { NotInCall(b, h.p); }
    WaitOwn(b.system, b.pools[r], r, h);
    WaitOneCall(b, r, h, A.Next(b.pools[r], h));
    forall q | 0 <= q < |b.pools| ensures CoupledRunner(t.system, t.pools[q], q) {
      if q != r { Part(b, q); }
    }
    Assemble(t);
  }

  lemma NotInCall(b: Both, p: Process)
    requires OneCall(b) && forall q :: 0 <= q < |b.pools| ==> p !in b.pools[q].calls
    ensures p !in b.system.awaiting
  {
  }

  lemma WaitCoupled(b: Both, r: nat, h: A.Step)
    requires Coupled(b) && CanDo(b, Wait(r, h))
    ensures Ready(b, Wait(r, h)) && Coupled(Do(b, Wait(r, h)))
  {
    assert h.Lease? ==> forall q :: 0 <= q < |b.pools| ==> h.p !in b.pools[q].calls;
    WaitKeeps(b, r, h);
  }

  /** No step of the code is refused, and the coupling stays. */
  lemma CoupledStep(b: Both, act: Act)
    requires Coupled(b) && CanDo(b, act)
    ensures Ready(b, act) && Coupled(Do(b, act))
  {
    match act {
      case System(a) => SystemCoupled(b, a);
      case Send(r, p) => SendCoupled(b, r, p);
      case Read(r, p) => ReadCoupled(b, r, p);
      case Wait(r, h) => WaitCoupled(b, r, h);
    }
  }

  // ---- runs ----

  function Init(n: nat, poolSize: nat): Both {
    Both(P.Init(n), seq(n, _ => A.Init(poolSize)))
  }

  /** Both components can do every act when its turn comes. */
  predicate Runs(b: Both, acts: seq<Act>)
    decreases |acts|
  {
    acts == [] || (Ready(b, acts[0]) && Runs(Do(b, acts[0]), acts[1..]))
  }

  /** The guards of the code allow every act when its turn comes. Whether both components can then do it
      is not asked: where they could not, there would be nothing to go on from. */
  predicate Allowed(b: Both, acts: seq<Act>)
    decreases |acts|
  {
    acts == [] || (CanDo(b, acts[0]) && (Ready(b, acts[0]) ==> Allowed(Do(b, acts[0]), acts[1..])))
  }

  function After(b: Both, acts: seq<Act>): Both
    requires Runs(b, acts)
    decreases |acts|
  {
    if acts == [] then b else After(Do(b, acts[0]), acts[1..])
  }

  /** What the protocol sees of a run. */
  function SystemRun(acts: seq<Act>): seq<P.Step> {
    if acts == [] then []
    else (if SystemStep(acts[0]).Some? then [SystemStep(acts[0]).value] else []) + SystemRun(acts[1..])
  }

  lemma InitCoupled(n: nat, poolSize: nat)
    requires poolSize >= 2
    ensures Coupled(Init(n, poolSize))
  {
    var b := Init(n, poolSize);
    ValueFlow.InitInv(n);
    forall r | 0 <= r < n ensures CoupledRunner(b.system, b.pools[r], r) {
      assert b.system.runners[r] == P.NEW_RUNNER;
      NewPool(poolSize);
    }
  }

  lemma NewPool(poolSize: nat)
    requires poolSize >= 2
    ensures Pooled(A.Init(poolSize))
  {
    PoolLending.OpenSound(poolSize);
  }

  /** No step of the code is ever refused, and the coupling holds after every run. */
  lemma {:induction false} AllowedRuns(b: Both, acts: seq<Act>)
    requires Coupled(b) && Allowed(b, acts)
    ensures Runs(b, acts) && Coupled(After(b, acts))
    decreases |acts|
  {
    if acts != [] {
      CoupledStep(b, acts[0]);
      AllowedRuns(Do(b, acts[0]), acts[1..]);
    }
  }

  lemma DoSystem(b: Both, act: Act)
    requires Ready(b, act)
    ensures Do(b, act).system == if SystemStep(act).Some? then P.Next(b.system, SystemStep(act).value) else b.system
    ensures SystemStep(act).Some? ==> P.Enabled(b.system, SystemStep(act).value)
  {
  }

  lemma {:induction false} SystemRunIsValid(b: Both, acts: seq<Act>)
    requires Runs(b, acts)
    ensures P.Valid(b.system, SystemRun(acts)) && After(b, acts).system == P.Exec(b.system, SystemRun(acts))
    decreases |acts|
  {
    if acts != [] {
      var rest := SystemRun(acts[1..]);
      DoSystem(b, acts[0]);
      SystemRunIsValid(Do(b, acts[0]), acts[1..]);
      if SystemStep(acts[0]).Some? {
        P.ExecCons(b.system, SystemStep(acts[0]).value, rest);
      } else {
        assert [] + rest == rest;
      }
    }
  }

  /** Whatever the guards of the code allow, with processes that wait on leased semaphores, is a run of
      the protocol, in which they wait for their results. */
  lemma RunsAreProtocolRuns(n: nat, poolSize: nat, acts: seq<Act>)
    requires poolSize >= 2 && Allowed(Init(n, poolSize), acts)
    ensures Runs(Init(n, poolSize), acts) && Coupled(After(Init(n, poolSize), acts))
    ensures P.Reaches(P.Init(n), SystemRun(acts), After(Init(n, poolSize), acts).system)
  {
    InitCoupled(n, poolSize);
    AllowedRuns(Init(n, poolSize), acts);
    SystemRunIsValid(Init(n, poolSize), acts);
  }

  /** End to end: after any run, a process that gets past its leased semaphore finds in its return holder
      the result of its own callout, the protocol lets it resume, and nobody else holds the semaphore. */
  lemma ReadsItsResult(n: nat, poolSize: nat, acts: seq<Act>, r: nat, p: Process)
    requires poolSize >= 2 && Allowed(Init(n, poolSize), acts + [Read(r, p)])
    ensures Runs(Init(n, poolSize), acts)
    ensures
      var b := After(Init(n, poolSize), acts);
      && P.Reaches(P.Init(n), SystemRun(acts), b.system) && P.Enabled(b.system, P.CallerResumes(p))
      && r < |b.pools| && FindsItsResult(b.system, b.pools[r], r, p) && HoldsAlone(b.pools[r], p)
  {
    InitCoupled(n, poolSize);
    AllowedPrefix(Init(n, poolSize), acts, Read(r, p));
    RunsAreProtocolRuns(n, poolSize, acts);
    PassedReads(After(Init(n, poolSize), acts), r, p);
  }

  lemma PassedReads(b: Both, r: nat, p: Process)
    requires Coupled(b) && CanDo(b, Read(r, p))
    ensures P.Enabled(b.system, P.CallerResumes(p)) && FindsItsResult(b.system, b.pools[r], r, p) && HoldsAlone(b.pools[r], p)
  {
    ReadIsReady(b, r, p);
    Part(b, r);
    OneHolder(b.pools[r], p);
  }

  lemma OneHolder(pool: A.State, p: Process)
    requires A.Holding(pool) && p in pool.calls
    ensures HoldsAlone(pool, p)
  {
  }

  lemma {:induction false} AllowedPrefix(b: Both, acts: seq<Act>, last: Act)
    requires Coupled(b) && Allowed(b, acts + [last])
    ensures Allowed(b, acts) && Runs(b, acts) && CanDo(After(b, acts), last)
    decreases |acts|
  {
    if acts == [] {
      assert (acts + [last])[0] == last;
    } else {
      assert (acts + [last])[0] == acts[0] && (acts + [last])[1..] == acts[1..] + [last];
      CoupledStep(b, acts[0]);
      AllowedPrefix(Do(b, acts[0]), acts[1..], last);
    }
  }

  /** And under the discipline of Refinement, the whole is a run of plain nested calls. */
  lemma NestedThroughSemaphores(n: nat, poolSize: nat, acts: seq<Act>, r: nat, root: Process)
    requires poolSize >= 2 && r < n && root.Green? && Allowed(Init(n, poolSize), acts)
    requires Refinement.DisciplinedRun(SystemRun(acts), r, root)
    ensures P.Valid(P.Init(n), SystemRun(acts)) && NestedCalls.Sync([], NestedCalls.Trace(P.Init(n), SystemRun(acts), r), root)
  {
    RunsAreProtocolRuns(n, poolSize, acts);
    Refinement.RefinesNestedCalls(n, SystemRun(acts), r, root);
  }
}
