/** The handshake of an asynchronous call: lease a semaphore, dispatch, wait, read, reset, give back.

    Any number of processes call at the same time, on workers that start and finish the tasks in any
    order. Processes are not terminated while they wait, and the session does not change. */
module AsyncCall {
  import opened Prelude
  import opened Pool
  import opened PoolLending
  import Protocol

  type Value = Protocol.Value
  type TaskId = nat

  /** A task: queued, under `ffi_call`, or finished with its semaphore not signalled yet. */
  datatype Status = Queued | Running | Finished

  datatype Task = Task(semaphore: Item, status: Status)

  /** Where a process is inside `executeOn:`. */
  datatype Phase =
    | Leased(semaphore: Item)
    | Dispatched(semaphore: Item, id: TaskId)
    | Waiting(semaphore: Item, id: TaskId)
    | Passed(semaphore: Item, id: TaskId, consumed: bool)   // consumed tells that it had to wait
    | Leaving(semaphore: Item, id: TaskId, consumed: bool)  // the return value has been read
    | Failed(semaphore: Item)                               // the call could not be prepared
    | Cleared(semaphore: Item)                              // the semaphore is reset

  datatype State = State(
    ledger: Ledger,
    calls: map<Client, Phase>,
    signals: multiset<Item>,
    tasks: map<TaskId, Task>,
    nextTask: TaskId,
    results: map<TaskId, Value>
  )

  datatype Step =
    | Lease(p: Client) | Fail(p: Client) | Dispatch(p: Client, id: TaskId)
    | Start(id: TaskId) | Finish(id: TaskId, v: Value) | SignalCaller(id: TaskId)
    | Check(p: Client) | Wake(p: Client) | Read(p: Client) | Reset(p: Client) | Return(p: Client)

  function Init(poolSize: nat): State {
    State(Open(poolSize), map[], multiset{}, map[], 0, map[])
  }

  predicate Enabled(s: State, a: Step) {
    match a
    case Lease(p) => p !in s.calls && s.ledger.pool.pointer >= 1
    case Fail(p) => p in s.calls && s.calls[p].Leased?
    case Dispatch(p, id) => p in s.calls && s.calls[p].Leased? && id >= s.nextTask
    case Start(id) => id in s.tasks && s.tasks[id].status == Queued
    case Finish(id, _) => id in s.tasks && s.tasks[id].status == Running
    case SignalCaller(id) => id in s.tasks && s.tasks[id].status == Finished
    case Check(p) => p in s.calls && s.calls[p].Dispatched?
    case Wake(p) => p in s.calls && s.calls[p].Waiting? && s.signals[s.calls[p].semaphore] > 0
    case Read(p) => p in s.calls && s.calls[p].Passed?
    case Reset(p) => p in s.calls && (s.calls[p].Leaving? || s.calls[p].Failed?)
    case Return(p) => p in s.calls && s.calls[p].Cleared? && Allowed(s.ledger, Give(p, s.calls[p].semaphore))
  }

  function Next(s: State, a: Step): State
    requires Enabled(s, a)
  {
    match a
    case Lease(p) =>
      var answer := Taken(s.ledger.pool).1;
      var leased := s.(ledger := Apply(s.ledger, Take(p)));
      if answer.Lent? && answer.slot.Some? then leased.(calls := s.calls[p := Leased(answer.slot.value)]) else leased
    case Fail(p) => s.(calls := s.calls[p := Failed(s.calls[p].semaphore)])
    case Dispatch(p, id) =>
      var x := s.calls[p].semaphore;
      s.(calls := s.calls[p := Dispatched(x, id)], tasks := s.tasks[id := Task(x, Queued)], nextTask := id + 1)
    case Start(id) => s.(tasks := s.tasks[id := s.tasks[id].(status := Running)])
    case Finish(id, v) =>
      s.(tasks := s.tasks[id := s.tasks[id].(status := Finished)], results := s.results[id := v])
    case SignalCaller(id) =>
      var x := s.tasks[id].semaphore;
      s.(tasks := s.tasks - {id}, signals := s.signals[x := s.signals[x] + 1])
    case Check(p) =>
      var c := s.calls[p];
      s.(calls := s.calls[p := if s.signals[c.semaphore] > 0 then Passed(c.semaphore, c.id, false) else Waiting(c.semaphore, c.id)])
    case Wake(p) =>
      var c := s.calls[p];
      s.(calls := s.calls[p := Passed(c.semaphore, c.id, true)], signals := s.signals[c.semaphore := s.signals[c.semaphore] - 1])
    case Read(p) =>
      var c := s.calls[p];
      s.(calls := s.calls[p := Leaving(c.semaphore, c.id, c.consumed)])
    case Reset(p) =>
      var x := s.calls[p].semaphore;
      s.(calls := s.calls[p := Cleared(x)], signals := s.signals[x := 0])
    case Return(p) =>
      s.(ledger := Apply(s.ledger, Give(p, s.calls[p].semaphore)), calls := s.calls - {p})
  }

  /** A lease touches the pool, and the calls of its process. */
  lemma LeaseCalls(s: State, p: Client)
    requires Enabled(s, Lease(p))
    ensures
      var t := Next(s, Lease(p));
      && t.tasks == s.tasks && t.signals == s.signals && t.results == s.results && t.nextTask == s.nextTask
      && (t.calls == s.calls || exists x :: t.calls == s.calls[p := Leased(x)])
  {
  }

  predicate Valid(s: State, run: seq<Step>)
    decreases |run|
  {
    run == [] || (Enabled(s, run[0]) && Valid(Next(s, run[0]), run[1..]))
  }

  function Exec(s: State, run: seq<Step>): State
    requires Valid(s, run)
    decreases |run|
  {
    if run == [] then s else Exec(Next(s, run[0]), run[1..])
  }

  // ---- the invariant ----

  /** The tasks that will signal semaphore `x`. */
  function Carrying(tasks: map<TaskId, Task>, x: Item): set<TaskId> {
    set id | id in tasks && tasks[id].semaphore == x
  }

  /** Signals and tasks of the semaphore of a process in phase `c`. */
  ghost predicate Balanced(s: State, c: Phase) {
    var x := c.semaphore;
    match c
    case Leased(_) => s.signals[x] == 0 && Carrying(s.tasks, x) == {}
    case Failed(_) => s.signals[x] == 0 && Carrying(s.tasks, x) == {}
    case Cleared(_) => s.signals[x] == 0 && Carrying(s.tasks, x) == {}
    case Dispatched(_, id) => InProgress(s, x, id)
    case Waiting(_, id) => InProgress(s, x, id)
    case Passed(_, id, consumed) => s.signals[x] == (if consumed then 0 else 1) && Carrying(s.tasks, x) == {} && id in s.results
    case Leaving(_, id, consumed) => s.signals[x] == (if consumed then 0 else 1) && Carrying(s.tasks, x) == {} && id in s.results
  }

  /** Either the call has its task still under way and nothing is signalled, or it has signalled once
      and its result is written. */
  ghost predicate InProgress(s: State, x: Item, id: TaskId) {
    id < s.nextTask &&
    if s.signals[x] == 0 then Carrying(s.tasks, x) == {id} && (s.tasks[id].status == Finished ==> id in s.results)
    else s.signals[x] == 1 && Carrying(s.tasks, x) == {} && id in s.results
  }

  /** Each process inside a call holds the semaphore of its phase, and nobody else holds anything. */
  ghost predicate Holding(s: State) {
    && (forall p :: p in s.calls ==> s.calls[p].semaphore in s.ledger.held && s.ledger.held[s.calls[p].semaphore] == p)
    && (forall x :: x in s.ledger.held ==> s.ledger.held[x] in s.calls && s.calls[s.ledger.held[x]].semaphore == x)
  }

  ghost predicate Accounted(s: State) {
    && (forall p :: p in s.calls ==> Balanced(s, s.calls[p]))
    && (forall x :: x !in s.ledger.held ==> s.signals[x] == 0 && Carrying(s.tasks, x) == {})
    && (forall id :: id in s.tasks ==> id < s.nextTask)
  }

  ghost predicate Inv(s: State) {
    Sound(s.ledger) && Holding(s) && Accounted(s)
  }

  /** Another semaphore than `x` keeps its balance when only `x` changes. */
  lemma OthersKeep(s: State, t: State, x: Item)
    requires Holding(s) && Accounted(s)
    requires t.nextTask >= s.nextTask && forall id :: id in s.results ==> id in t.results
    requires forall y :: y != x ==> t.signals[y] == s.signals[y] && Carrying(t.tasks, y) == Carrying(s.tasks, y)
    requires forall id :: id in s.tasks && id in t.tasks && s.tasks[id].semaphore != x ==> t.tasks[id] == s.tasks[id]
    ensures forall p :: p in s.calls && s.calls[p].semaphore != x ==> Balanced(t, s.calls[p])
  {
    forall p | p in s.calls && s.calls[p].semaphore != x ensures Balanced(t, s.calls[p]) {
      var c := s.calls[p];
      assert Balanced(s, c);
      if c.Dispatched? || c.Waiting? { InProgressKeeps(s, t, c.semaphore, c.id); }
    }
  }

  lemma InProgressKeeps(s: State, t: State, x: Item, id: TaskId)
    requires InProgress(s, x, id) && t.nextTask >= s.nextTask && forall i :: i in s.results ==> i in t.results
    requires t.signals[x] == s.signals[x] && Carrying(t.tasks, x) == Carrying(s.tasks, x)
    requires forall i :: i in s.tasks && i in t.tasks && s.tasks[i].semaphore == x ==> t.tasks[i] == s.tasks[i]
    ensures InProgress(t, x, id)
  {
    if s.signals[x] == 0 {
      assert id in Carrying(s.tasks, x) && id in Carrying(t.tasks, x);
    }
  }

  lemma DispatchStep(s: State, p: Client, id: TaskId)
    requires Holding(s) && Accounted(s) && Enabled(s, Dispatch(p, id))
    ensures Holding(Next(s, Dispatch(p, id))) && Accounted(Next(s, Dispatch(p, id)))
  {
    var t := Next(s, Dispatch(p, id));
    var x := s.calls[p].semaphore;
    assert Balanced(s, s.calls[p]) && id !in s.tasks;
    NewCarries(s.tasks, id, x);
    OthersKeep(s, t, x);
    DispatchKeeps(s, t, p, id);
  }

  lemma NewCarries(tasks: map<TaskId, Task>, id: TaskId, x: Item)
    requires id !in tasks
    ensures Carrying(tasks[id := Task(x, Queued)], x) == Carrying(tasks, x) + {id}
    ensures forall y :: y != x ==> Carrying(tasks[id := Task(x, Queued)], y) == Carrying(tasks, y)
  {
  }

  lemma DispatchKeeps(s: State, t: State, p: Client, id: TaskId)
    requires Holding(s) && Accounted(s) && p in s.calls && s.calls[p].Leased? && id >= s.nextTask
    requires t == s.(calls := s.calls[p := Dispatched(s.calls[p].semaphore, id)],
      tasks := s.tasks[id := Task(s.calls[p].semaphore, Queued)], nextTask := id + 1)
    requires Carrying(t.tasks, s.calls[p].semaphore) == {id} && s.signals[s.calls[p].semaphore] == 0
    requires forall y :: y != s.calls[p].semaphore ==> Carrying(t.tasks, y) == Carrying(s.tasks, y)
    requires forall q :: q in s.calls && s.calls[q].semaphore != s.calls[p].semaphore ==> Balanced(t, s.calls[q])
    ensures Holding(t) && Accounted(t)
  {
    forall q | q in t.calls ensures Balanced(t, t.calls[q]) {
      if q != p { assert s.calls[q].semaphore != s.calls[p].semaphore; }
    }
  }

  /** A task changes its status. */
  lemma StatusStep(s: State, a: Step)
    requires Holding(s) && Accounted(s) && Enabled(s, a) && (a.Start? || a.Finish?)
    ensures Holding(Next(s, a)) && Accounted(Next(s, a))
  {
    var t := Next(s, a);
    var x := s.tasks[a.id].semaphore;
    forall y ensures Carrying(t.tasks, y) == Carrying(s.tasks, y) {
    }
    OthersKeep(s, t, x);
    forall p | p in s.calls && s.calls[p].semaphore == x ensures Balanced(t, s.calls[p]) {
      assert Balanced(s, s.calls[p]) && a.id in Carrying(s.tasks, x);
    }
  }

  lemma SignalStep(s: State, id: TaskId)
    requires Holding(s) && Accounted(s) && Enabled(s, SignalCaller(id))
    ensures Holding(Next(s, SignalCaller(id))) && Accounted(Next(s, SignalCaller(id)))
  {
    var t := Next(s, SignalCaller(id));
    var x := s.tasks[id].semaphore;
    assert id in Carrying(s.tasks, x);
    assert Carrying(t.tasks, x) == Carrying(s.tasks, x) - {id};
    forall y | y != x ensures Carrying(t.tasks, y) == Carrying(s.tasks, y) {
    }
    OthersKeep(s, t, x);
    forall p | p in s.calls && s.calls[p].semaphore == x ensures Balanced(t, s.calls[p]) {
      assert Balanced(s, s.calls[p]);
    }
  }

  /** The steps of a process that already holds its semaphore. */
  predicate Inner(a: Step) {
    a.Fail? || a.Check? || a.Wake? || a.Read? || a.Reset?
  }

  lemma InnerEffect(s: State, a: Step)
    requires Enabled(s, a) && Inner(a)
    ensures
      var t, x := Next(s, a), s.calls[a.p].semaphore;
      && t.calls.Keys == s.calls.Keys && t.calls[a.p].semaphore == x && (forall p :: p in s.calls && p != a.p ==> t.calls[p] == s.calls[p])
      && t.ledger == s.ledger && t.tasks == s.tasks && t.results == s.results && t.nextTask == s.nextTask
      && (forall y :: y != x ==> t.signals[y] == s.signals[y])
  {
  }

  lemma InnerBalanced(s: State, a: Step)
    requires Enabled(s, a) && Inner(a) && Balanced(s, s.calls[a.p])
    ensures a.p in Next(s, a).calls && Balanced(Next(s, a), Next(s, a).calls[a.p])
  {
  }

  lemma ProcessStep(s: State, a: Step)
    requires Holding(s) && Accounted(s) && Enabled(s, a) && Inner(a)
    ensures Holding(Next(s, a)) && Accounted(Next(s, a))
  {
    InnerEffect(s, a);
    InnerBalanced(s, a);
    ProcessKeeps(s, Next(s, a), a.p);
  }

  lemma ProcessKeeps(s: State, t: State, p: Client)
    requires Holding(s) && Accounted(s) && p in s.calls
    requires t.calls.Keys == s.calls.Keys && t.calls[p].semaphore == s.calls[p].semaphore
    requires forall q :: q in s.calls && q != p ==> t.calls[q] == s.calls[q]
    requires t.ledger == s.ledger && t.tasks == s.tasks && t.results == s.results && t.nextTask == s.nextTask
    requires forall y :: y != s.calls[p].semaphore ==> t.signals[y] == s.signals[y]
    requires Balanced(t, t.calls[p])
    ensures Holding(t) && Accounted(t)
  {
    OthersKeep(s, t, s.calls[p].semaphore);
    forall q | q in t.calls ensures Balanced(t, t.calls[q]) {
      assert q in s.calls;
      if q != p { assert s.calls[q].semaphore != s.calls[p].semaphore; }
    }
  }

  lemma LeaseStep(s: State, p: Client)
    requires Inv(s) && Enabled(s, Lease(p))
    ensures Inv(Next(s, Lease(p)))
  {
    TakeSound(s.ledger, p);
    var t := Next(s, Lease(p));
    OthersKeep(s, t, t.calls[p].semaphore);
  }

  lemma ReturnStep(s: State, p: Client)
    requires Inv(s) && Enabled(s, Return(p))
    ensures Inv(Next(s, Return(p)))
  {
    var x := s.calls[p].semaphore;
    var t := Next(s, Return(p));
    GiveSound(s.ledger, p, x);
    GivenBackIsFree(s, t, p);
  }

  lemma GivenBackIsFree(s: State, t: State, p: Client)
    requires Holding(s) && Accounted(s) && p in s.calls && s.calls[p].Cleared?
    requires t.ledger.held == s.ledger.held - {s.calls[p].semaphore} && t.calls == s.calls - {p}
    requires t.tasks == s.tasks && t.signals == s.signals && t.results == s.results && t.nextTask == s.nextTask
    ensures Holding(t) && Accounted(t)
  {
    var x := s.calls[p].semaphore;
    assert Balanced(s, s.calls[p]);
    OthersKeep(s, t, x);
  }

  lemma InvStep(s: State, a: Step)
    requires Inv(s) && Enabled(s, a)
    ensures Inv(Next(s, a))
  {
    match a
    case Lease(p) => LeaseStep(s, p);
    case Return(p) => ReturnStep(s, p);
    case Dispatch(p, id) => DispatchStep(s, p, id);
    case Start(_) => StatusStep(s, a);
    case Finish(_, _) => StatusStep(s, a);
    case SignalCaller(id) => SignalStep(s, id);
    case _ => ProcessStep(s, a);
  }

  lemma {:induction false} InvRun(s: State, run: seq<Step>)
    requires Inv(s) && Valid(s, run)
    ensures Inv(Exec(s, run))
    decreases |run|
  {
    if run != [] {
      InvStep(s, run[0]);
      InvRun(Next(s, run[0]), run[1..]);
    }
  }

  // ---- the main results ----

  /** The phases between dispatch and reset. */
  predicate UnderWay(c: Phase) {
    c.Dispatched? || c.Waiting? || c.Passed? || c.Leaving?
  }

  /** Signal accounting: from dispatch until reset, signals plus the one consumed plus tasks that
      will signal are always one; every other semaphore has no signal and no task. */
  lemma OneSignalPerCall(poolSize: nat, run: seq<Step>)
    requires poolSize >= 2 && Valid(Init(poolSize), run)
    ensures
      var s := Exec(Init(poolSize), run);
      && (forall p :: p in s.calls && UnderWay(s.calls[p]) ==>
            s.signals[s.calls[p].semaphore] + |Carrying(s.tasks, s.calls[p].semaphore)|
            + (if (s.calls[p].Passed? || s.calls[p].Leaving?) && s.calls[p].consumed then 1 else 0) == 1)
      && (forall x :: x !in s.ledger.held ==> s.signals[x] == 0 && Carrying(s.tasks, x) == {})
      && (forall k :: 0 <= k < |s.ledger.pool.elements| && s.ledger.pool.elements[k].Some? ==>
            s.signals[s.ledger.pool.elements[k].value] == 0)
  {
    OpenSound(poolSize);
    InvRun(Init(poolSize), run);
    AccountedSpelledOut(Exec(Init(poolSize), run));
  }

  lemma AccountedSpelledOut(s: State)
    requires Inv(s)
    ensures forall p :: p in s.calls && UnderWay(s.calls[p]) ==>
      s.signals[s.calls[p].semaphore] + |Carrying(s.tasks, s.calls[p].semaphore)|
      + (if (s.calls[p].Passed? || s.calls[p].Leaving?) && s.calls[p].consumed then 1 else 0) == 1
    ensures forall k :: 0 <= k < |s.ledger.pool.elements| && s.ledger.pool.elements[k].Some? ==>
      s.signals[s.ledger.pool.elements[k].value] == 0
  {
    forall k | 0 <= k < |s.ledger.pool.elements| && s.ledger.pool.elements[k].Some?
      ensures s.ledger.pool.elements[k].value !in s.ledger.held
    {
      assert s.ledger.pool.elements[k] in s.ledger.pool.elements;
    }
  }

  // ---- results ----

  /** A task whose result is written is past `ffi_call`. */
  ghost predicate WrittenOnce(s: State) {
    && (forall id :: id in s.tasks || id in s.results ==> id < s.nextTask)
    && (forall id :: id in s.tasks && id in s.results ==> s.tasks[id].status == Finished)
  }

  lemma WrittenOnceStep(s: State, a: Step)
    requires WrittenOnce(s) && Enabled(s, a)
    ensures WrittenOnce(Next(s, a))
    ensures forall id :: id in s.results ==> id in Next(s, a).results && Next(s, a).results[id] == s.results[id]
  {
  }

  /** The results are those the functions finished with in the run, and each is written once. */
  lemma {:induction false} ResultsOfRun(s: State, run: seq<Step>)
    requires WrittenOnce(s) && Valid(s, run)
    ensures forall id :: id in s.results ==> id in Exec(s, run).results && Exec(s, run).results[id] == s.results[id]
    ensures forall id, v :: Finish(id, v) in run ==> id in Exec(s, run).results && Exec(s, run).results[id] == v
    ensures forall id :: id in Exec(s, run).results && id !in s.results ==> Finish(id, Exec(s, run).results[id]) in run
    decreases |run|
  {
    if run != [] {
      var t := Next(s, run[0]);
      WrittenOnceStep(s, run[0]);
      ResultsOfRun(t, run[1..]);
      assert run == [run[0]] + run[1..];
    }
  }

  /** A process reads its return value only after its own function has finished: what it reads is the
      one value its function finished with, and the semaphore it leases is its own alone. */
  lemma ReadsOwnResult(poolSize: nat, run: seq<Step>, p: Client)
    requires poolSize >= 2 && Valid(Init(poolSize), run) && Enabled(Exec(Init(poolSize), run), Read(p))
    ensures
      var s := Exec(Init(poolSize), run);
      var id := s.calls[p].id;
      && id in s.results && id !in Carrying(s.tasks, s.calls[p].semaphore)
      && (forall v :: Finish(id, v) in run <==> v == s.results[id])
      && (forall q :: q in s.calls && q != p ==> s.calls[q].semaphore != s.calls[p].semaphore)
  {
    OpenSound(poolSize);
    InvRun(Init(poolSize), run);
    ResultsOfRun(Init(poolSize), run);
  }

  /** Nobody waits in vain: a waiting process has a signal, or its task is still on its way. */
  lemma WaitersAreServed(poolSize: nat, run: seq<Step>, p: Client)
    requires poolSize >= 2 && Valid(Init(poolSize), run)
    requires p in Exec(Init(poolSize), run).calls && Exec(Init(poolSize), run).calls[p].Waiting?
    ensures
      var s := Exec(Init(poolSize), run);
      Enabled(s, Wake(p)) || (s.calls[p].id in s.tasks && s.tasks[s.calls[p].id].semaphore == s.calls[p].semaphore)
  {
    OpenSound(poolSize);
    InvRun(Init(poolSize), run);
    WaiterIsServed(Exec(Init(poolSize), run), p);
  }

  lemma WaiterIsServed(s: State, p: Client)
    requires Accounted(s) && p in s.calls && s.calls[p].Waiting?
    ensures Enabled(s, Wake(p)) || (s.calls[p].id in s.tasks && s.tasks[s.calls[p].id].semaphore == s.calls[p].semaphore)
  {
    assert Balanced(s, s.calls[p]);
    assert s.signals[s.calls[p].semaphore] == 0 ==> s.calls[p].id in Carrying(s.tasks, s.calls[p].semaphore);
  }
}
