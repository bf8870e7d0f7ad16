/** Protocol and semaphore pools together come to rest.

    Once nobody enters or leases any more, finitely many acts are left. When none is possible, and no
    cycle of the calls between runners goes through a callback of another runner, nobody is inside a
    call, every semaphore is back in its pool without a signal, and the protocol is empty. */
module PooledRest {
  import opened Prelude
  import opened EndToEnd
  import opened CallGraph
  import P = Protocol
  import A = AsyncCall
  import Quiescence
  import ReturnDrain

  /** The act brings something new: a callback is entered, or a process begins a call. */
  predicate Begins(act: Act) {
    (act.System? && ReturnDrain.Entry(act.a)) || (act.Wait? && act.h.Lease?)
  }

  /** Nothing that has begun can go on by itself. */
  ghost predicate AtRest(b: Both) {
    forall act :: !Begins(act) ==> !CanDo(b, act)
  }

  // ---- at rest, the protocol is at rest ----

  /** No step of the handshake is possible, a lease excepted. */
  lemma PoolAtRest(b: Both, r: nat, h: A.Step)
    requires AtRest(b) && r < |b.pools| && Alone(h) && !h.Lease?
    ensures !A.Enabled(b.pools[r], h)
  {
    assert !Begins(Wait(r, h)) && !CanDo(b, Wait(r, h));
  }

  /** What a process inside a call can still be at. */
  lemma OnlyWaiting(b: Both, r: nat, p: Process)
    requires AtRest(b) && r < |b.pools| && Pooled(b.pools[r]) && p in b.pools[r].calls
    ensures b.pools[r].calls[p].Waiting? && b.pools[r].signals[b.pools[r].calls[p].semaphore] == 0
  {
    PoolAtRest(b, r, A.Check(p));
    PoolAtRest(b, r, A.Wake(p));
    PoolAtRest(b, r, A.Reset(p));
    PoolAtRest(b, r, A.Return(p));
    NotSending(b, r, p);
    if b.pools[r].calls[p].Cleared? { ReturnsAlways(b.pools[r], p); }
  }

  lemma NotSending(b: Both, r: nat, p: Process)
    requires AtRest(b) && r < |b.pools| && p in b.pools[r].calls
    ensures !b.pools[r].calls[p].Leased? && !b.pools[r].calls[p].Passed?
  {
    assert !CanDo(b, Send(r, p)) && !CanDo(b, Read(r, p));
  }

  lemma ReturnsAlways(pool: A.State, p: Process)
    requires Pooled(pool) && p in pool.calls && pool.calls[p].Cleared?
    ensures A.Enabled(pool, A.Return(p))
  {
  }

  /** A process inside a call waits for a function that has not returned; nothing else holds it up. */
  lemma InCallWaits(b: Both, r: nat, p: Process)
    requires Coupled(b) && AtRest(b) && r < |b.pools| && p in b.pools[r].calls
    ensures p in b.system.awaiting && b.system.awaiting[p].runner == r && b.system.awaiting[p] !in b.system.result
  {
    Part(b, r);
    OnlyWaiting(b, r, p);
    TaskUnderWay(b.pools[r], p);
    PoolAtRest(b, r, A.SignalCaller(b.pools[r].calls[p].id));
    NoResultYet(b.system, b.pools[r], r, p);
  }

  lemma TaskUnderWay(pool: A.State, p: Process)
    requires Pooled(pool) && p in pool.calls && pool.calls[p].Waiting? && pool.signals[pool.calls[p].semaphore] == 0
    ensures pool.calls[p].id in pool.tasks
  {
    assert A.Balanced(pool, pool.calls[p]);
    assert pool.calls[p].id in A.Carrying(pool.tasks, pool.calls[p].semaphore);
  }

  lemma NoResultYet(s: P.State, pool: A.State, r: nat, p: Process)
    requires Callers(s, pool, r) && SameResults(s, pool, r) && Pooled(pool) && p in pool.calls && pool.calls[p].Waiting?
    requires pool.calls[p].id in pool.tasks && pool.tasks[pool.calls[p].id].status != A.Finished
    ensures p in s.awaiting && s.awaiting[p].runner == r && s.awaiting[p] !in s.result
  {
  }

  lemma SystemAtRest(b: Both)
    requires Coupled(b) && AtRest(b)
    ensures Quiescence.AtRest(b.system)
  {
    forall a: P.Step | !Quiescence.Fresh(a) ensures !P.Enabled(b.system, a) {
      Refused(b, a);
    }
  }

  lemma Refused(b: Both, a: P.Step)
    requires Coupled(b) && AtRest(b) && !Quiescence.Fresh(a)
    ensures !P.Enabled(b.system, a)
  {
    if P.Enabled(b.system, a) {
      if a.CallerResumes? {
        WaiterInCall(b, a.p);
      } else {
        HeldUp(b, a);
      }
    }
  }

  /** What the protocol alone could do would be held up by a call of the process only, which then waits. */
  lemma HeldUp(b: Both, a: P.Step)
    requires Coupled(b) && AtRest(b) && !Quiescence.Fresh(a) && !a.CallerResumes?
    ensures !P.Enabled(b.system, a)
  {
    assert !Begins(System(a)) && !CanDo(b, System(a));
    if P.Enabled(b.system, a) {
      BlockInCall(b, P.OfCallback(b.system.runners[a.r].image[a.k].inv));
    }
  }

  lemma WaiterInCall(b: Both, p: Process)
    requires Coupled(b) && AtRest(b) && p in b.system.awaiting
    ensures b.system.awaiting[p] !in b.system.result
  {
    InCallWaits(b, b.system.awaiting[p].runner, p);
  }

  lemma BlockInCall(b: Both, p: Process)
    requires Coupled(b) && AtRest(b) && InCall(b, p)
    ensures p in b.system.awaiting
  {
    var r: nat :| r < |b.pools| && p in b.pools[r].calls;
    InCallWaits(b, r, p);
  }

  // ---- nobody is inside a call ----

  ghost predicate AllBack(pool: A.State) {
    && pool.calls == map[] && pool.ledger.held == map[] && pool.tasks == map[] && pool.signals == multiset{}
    && forall k :: 0 <= k < |pool.ledger.pool.elements| ==> pool.ledger.pool.elements[k].Some?
  }

  lemma NobodyHolds(pool: A.State)
    requires Pooled(pool) && pool.calls == map[]
    ensures AllBack(pool)
  {
    assert pool.ledger.held == map[];
    forall x ensures pool.signals[x] == 0 {
      assert x !in pool.ledger.held;
    }
    forall id ensures id !in pool.tasks {
      if id in pool.tasks { Carried(pool.tasks, id); }
    }
  }

  lemma Carried(tasks: map<A.TaskId, A.Task>, id: A.TaskId)
    requires id in tasks
    ensures A.Carrying(tasks, tasks[id].semaphore) != {}
  {
    assert id in A.Carrying(tasks, tasks[id].semaphore);
  }

  lemma EmptyPool(b: Both, r: nat)
    requires Coupled(b) && AtRest(b) && b.system.awaiting == map[] && r < |b.pools|
    ensures AllBack(b.pools[r])
  {
    Part(b, r);
    forall p ensures p !in b.pools[r].calls {
      if p in b.pools[r].calls { InCallWaits(b, r, p); }
    }
    NobodyHolds(b.pools[r]);
  }

  // ---- finitely many acts ----

  ghost function Sum<K>(m: map<K, nat>): nat {
    if m == map[] then 0 else var k :| k in m; m[k] + Sum(m - {k})
  }

  /** It does not matter which key is counted first. */
  lemma {:induction false} SumWithout<K>(m: map<K, nat>, k: K)
    requires k in m
    ensures Sum(m) == m[k] + Sum(m - {k})
    decreases |m|
  {
    var first :| first in m && Sum(m) == m[first] + Sum(m - {first});
    if first != k {
      SumWithout(m - {first}, k);
      SumWithout(m - {k}, first);
      assert m - {first} - {k} == m - {k} - {first};
    }
  }

  lemma SumUpdate<K>(m: map<K, nat>, k: K, v: nat)
    ensures Sum(m[k := v]) == (if k in m then Sum(m) - m[k] else Sum(m)) + v
  {
    SumWithout(m[k := v], k);
    assert m[k := v] - {k} == m - {k};
    if k in m { SumWithout(m, k); } else { assert m - {k} == m; }
  }

  function PhaseWork(c: A.Phase): nat {
    match c
    case Leased(_) => 20
    case Dispatched(_, _) => 5
    case Waiting(_, _) => 4
    case Passed(_, _, _) => 3
    case Leaving(_, _, _) => 2
    case Failed(_) => 2
    case Cleared(_) => 1
  }

  function TaskWork(t: A.Task): nat {
    match t.status
    case Queued => 3
    case Running => 2
    case Finished => 1
  }

  function PhaseWorks(calls: map<Process, A.Phase>): map<Process, nat> {
    map p | p in calls :: PhaseWork(calls[p])
  }

  function TaskWorks(tasks: map<A.TaskId, A.Task>): map<A.TaskId, nat> {
    map id | id in tasks :: TaskWork(tasks[id])
  }

  ghost function PoolWork(pool: A.State): nat {
    Sum(PhaseWorks(pool.calls)) + Sum(TaskWorks(pool.tasks))
  }

  ghost function PoolsWork(pools: seq<A.State>): nat {
    if pools == [] then 0 else PoolsWork(Front(pools)) + PoolWork(Last(pools))
  }

  lemma {:induction false} PoolsUpdate(pools: seq<A.State>, r: nat, pool: A.State)
    requires r < |pools|
    ensures PoolsWork(pools[r := pool]) + PoolWork(pools[r]) == PoolsWork(pools) + PoolWork(pool)
    decreases |pools|
  {
    var u := pools[r := pool];
    if r == |pools| - 1 {
      assert Front(u) == Front(pools);
    } else {
      PoolsUpdate(Front(pools), r, pool);
      assert Front(u) == Front(pools)[r := pool];
    }
  }

  lemma PhaseChange(calls: map<Process, A.Phase>, p: Process, c: A.Phase)
    requires p in calls
    ensures Sum(PhaseWorks(calls[p := c])) + PhaseWork(calls[p]) == Sum(PhaseWorks(calls)) + PhaseWork(c)
  {
    SumUpdate(PhaseWorks(calls), p, PhaseWork(c));
    assert PhaseWorks(calls[p := c]) == PhaseWorks(calls)[p := PhaseWork(c)];
  }

  lemma PhaseGone(calls: map<Process, A.Phase>, p: Process)
    requires p in calls
    ensures Sum(PhaseWorks(calls - {p})) + PhaseWork(calls[p]) == Sum(PhaseWorks(calls))
  {
    SumWithout(PhaseWorks(calls), p);
    assert PhaseWorks(calls - {p}) == PhaseWorks(calls) - {p};
  }

  lemma TaskChange(tasks: map<A.TaskId, A.Task>, id: A.TaskId, t: A.Task)
    ensures Sum(TaskWorks(tasks[id := t])) + (if id in tasks then TaskWork(tasks[id]) else 0) == Sum(TaskWorks(tasks)) + TaskWork(t)
  {
    SumUpdate(TaskWorks(tasks), id, TaskWork(t));
    assert TaskWorks(tasks[id := t]) == TaskWorks(tasks)[id := TaskWork(t)];
  }

  lemma TaskGone(tasks: map<A.TaskId, A.Task>, id: A.TaskId)
    requires id in tasks
    ensures Sum(TaskWorks(tasks - {id})) + TaskWork(tasks[id]) == Sum(TaskWorks(tasks))
  {
    SumWithout(TaskWorks(tasks), id);
    assert TaskWorks(tasks - {id}) == TaskWorks(tasks) - {id};
  }

  /** Every step of the handshake but a lease uses up work, a dispatch more than it makes elsewhere. */
  lemma PoolWorkStep(pool: A.State, h: A.Step)
    requires A.WrittenOnce(pool) && A.Enabled(pool, h) && !h.Lease?
    ensures PoolWork(A.Next(pool, h)) + (if h.Dispatch? then 4 else 1) <= PoolWork(pool)
  {
    if h.Start? || h.Finish? || h.SignalCaller? {
      TaskWorkStep(pool, h);
    } else if h.Dispatch? {
      PhaseChange(pool.calls, h.p, A.Dispatched(pool.calls[h.p].semaphore, h.id));
      TaskChange(pool.tasks, h.id, A.Task(pool.calls[h.p].semaphore, A.Queued));
    } else if h.Return? {
      PhaseGone(pool.calls, h.p);
    } else {
      PhaseWorkStep(pool, h);
    }
  }

  lemma TaskWorkStep(pool: A.State, h: A.Step)
    requires A.Enabled(pool, h) && (h.Start? || h.Finish? || h.SignalCaller?)
    ensures PoolWork(A.Next(pool, h)) < PoolWork(pool)
  {
    match h {
      case Start(id) => TaskChange(pool.tasks, id, pool.tasks[id].(status := A.Running));
      case Finish(id, _) => TaskChange(pool.tasks, id, pool.tasks[id].(status := A.Finished));
      case SignalCaller(id) => TaskGone(pool.tasks, id);
      case _ =>
    }
  }

  lemma PhaseWorkStep(pool: A.State, h: A.Step)
    requires A.Enabled(pool, h) && A.Inner(h)
    ensures PoolWork(A.Next(pool, h)) < PoolWork(pool)
  {
    var next := A.Next(pool, h);
    PhaseAfter(pool, h);
    PhaseChange(pool.calls, h.p, next.calls[h.p]);
  }

  lemma PhaseAfter(pool: A.State, h: A.Step)
    requires A.Enabled(pool, h) && A.Inner(h)
    ensures
      var next := A.Next(pool, h);
      && h.p in pool.calls && h.p in next.calls && next.tasks == pool.tasks
      && next.calls == pool.calls[h.p := next.calls[h.p]] && PhaseWork(next.calls[h.p]) < PhaseWork(pool.calls[h.p])
  {
  }

  ghost function Work(b: Both, n: nat): nat {
    Quiescence.Chores(b.system, n) + PoolsWork(b.pools)
  }

  /** A dispatch queues one task and makes one process wait. */
  lemma DispatchChores(s: P.State, r: nat, p: Process, n: nat)
    requires P.Enabled(s, P.Dispatch(r, p)) && ReturnDrain.Population(s) <= n
    ensures Quiescence.Chores(P.Next(s, P.Dispatch(r, p)), n) <= Quiescence.Chores(s, n) + 3
    ensures ReturnDrain.Population(P.Next(s, P.Dispatch(r, p))) <= n
  {
    ReturnDrain.BudgetStep(s, P.Dispatch(r, p), n);
    DispatchDuties(s, r, p);
  }

  lemma DispatchDuties(s: P.State, r: nat, p: Process)
    requires P.Enabled(s, P.Dispatch(r, p))
    ensures
      var t := P.Next(s, P.Dispatch(r, p));
      && Quiescence.Duties(t.runners) == Quiescence.Duties(s.runners) + 2
      && t.signals == s.signals && |t.awaiting| == |s.awaiting| + 1
  {
    var t := P.Next(s, P.Dispatch(r, p));
    assert t.runners == s.runners[r := t.runners[r]];
    Quiescence.DutiesUpdate(s.runners, r, t.runners[r]);
    assert t.awaiting.Keys == s.awaiting.Keys + {p};
    assert |t.awaiting| == |t.awaiting.Keys| && |s.awaiting| == |s.awaiting.Keys|;
  }

  lemma ChoresLeft(b: Both, act: Act, n: nat)
    requires Ready(b, act) && !Begins(act) && ReturnDrain.Population(b.system) <= n
    ensures ReturnDrain.Population(Do(b, act).system) <= n
    ensures Quiescence.Chores(Do(b, act).system, n) + (if SystemStep(act).Some? && !act.Send? then 1 else 0)
      <= Quiescence.Chores(b.system, n) + if act.Send? then 3 else 0
  {
    DoSystem(b, act);
    if act.Send? {
      DispatchChores(b.system, act.r, act.p, n);
    } else if SystemStep(act).Some? {
      Quiescence.ChoresStep(b.system, SystemStep(act).value, n);
    }
  }

  /** The tasks of every pool are numbered. */
  ghost predicate Numbered(b: Both) {
    forall r :: 0 <= r < |b.pools| ==> A.WrittenOnce(b.pools[r])
  }

  lemma NumberedStep(b: Both, act: Act)
    requires Numbered(b) && Ready(b, act)
    ensures Numbered(Do(b, act))
  {
    var h := PoolStep(b, act);
    if h.Some? { A.WrittenOnceStep(b.pools[h.value.0], h.value.1); }
  }

  lemma PoolsLeft(b: Both, act: Act)
    requires Numbered(b) && Ready(b, act) && !Begins(act)
    ensures PoolsWork(Do(b, act).pools) + (if act.Send? then 4 else if SystemStep(act).None? then 1 else 0) <= PoolsWork(b.pools)
  {
    var h := PoolStep(b, act);
    if h.Some? {
      PoolWorkStep(b.pools[h.value.0], h.value.1);
      PoolsUpdate(b.pools, h.value.0, A.Next(b.pools[h.value.0], h.value.1));
    }
  }

  lemma WorkStep(b: Both, act: Act, n: nat)
    requires Numbered(b) && Ready(b, act) && !Begins(act) && ReturnDrain.Population(b.system) <= n
    ensures Work(Do(b, act), n) < Work(b, n) && ReturnDrain.Population(Do(b, act).system) <= n
  {
    ChoresLeft(b, act, n);
    PoolsLeft(b, act);
  }

  predicate NothingBegins(acts: seq<Act>) {
    forall k :: 0 <= k < |acts| ==> !Begins(acts[k])
  }

  lemma {:induction false} WorkRun(b: Both, acts: seq<Act>, n: nat)
    requires Numbered(b) && Runs(b, acts) && NothingBegins(acts) && ReturnDrain.Population(b.system) <= n
    ensures |acts| <= Work(b, n)
    decreases |acts|
  {
    if acts != [] {
      WorkStep(b, acts[0], n);
      NumberedStep(b, acts[0]);
      WorkRun(Do(b, acts[0]), acts[1..], n);
    }
  }

  lemma CoupledIsNumbered(b: Both)
    requires Coupled(b)
    ensures Numbered(b)
  {
    forall r | 0 <= r < |b.pools| ensures A.WrittenOnce(b.pools[r]) {
      Part(b, r);
    }
  }

  // ---- the main results ----

  /** When nothing that has begun can go on, every callback has returned and every call has ended, its
      semaphore is back in the pool, and no signal is left. */
  lemma RestIsEmpty(n: nat, poolSize: nat, acts: seq<Act>, e: Permits)
    requires poolSize >= 2 && NoCrossCycle(n, e) && Allowed(Init(n, poolSize), acts)
    requires Within(SystemRun(acts), e) && Quiescence.Orderly(SystemRun(acts))
    ensures Runs(Init(n, poolSize), acts)
    ensures var b := After(Init(n, poolSize), acts);
      AtRest(b) ==> Quiescence.Empty(b.system) && forall r :: 0 <= r < |b.pools| ==> AllBack(b.pools[r])
  {
    RunsAreProtocolRuns(n, poolSize, acts);
    var b := After(Init(n, poolSize), acts);
    if AtRest(b) {
      SystemAtRest(b);
      assert Quiescence.ReachedWithin(b.system, n, e);
      Quiescence.RestIsEmpty(b.system, n, e);
      forall r | 0 <= r < |b.pools| ensures AllBack(b.pools[r]) {
        EmptyPool(b, r);
      }
    }
  }

  /** And it comes to rest: after any run, the acts left while nobody enters or leases are bounded. */
  lemma ComesToRest(n: nat, poolSize: nat, acts: seq<Act>, later: seq<Act>)
    requires poolSize >= 2 && Allowed(Init(n, poolSize), acts)
    ensures Runs(Init(n, poolSize), acts)
    ensures var b := After(Init(n, poolSize), acts);
      Allowed(b, later) && NothingBegins(later) ==> |later| <= Work(b, ReturnDrain.Population(b.system))
  {
    RunsAreProtocolRuns(n, poolSize, acts);
    var b := After(Init(n, poolSize), acts);
    if Allowed(b, later) && NothingBegins(later) {
      AllowedRuns(b, later);
      CoupledIsNumbered(b);
      WorkRun(b, later, ReturnDrain.Population(b.system));
    }
  }
}
