/** The life of one call, read off the states: which phases a process goes through, what each of them does
    to its semaphore, and when it sleeps. */
module HandshakeLaws {
  import opened Prelude
  import opened Pool
  import opened PoolLending
  import opened AsyncCall

  /** The process whose own step it is; the other steps are a worker's. */
  function Mover(a: Step): Option<Client> {
    match a
    case Lease(p) => Some(p)
    case Fail(p) => Some(p)
    case Dispatch(p, _) => Some(p)
    case Check(p) => Some(p)
    case Wake(p) => Some(p)
    case Read(p) => Some(p)
    case Reset(p) => Some(p)
    case Return(p) => Some(p)
    case _ => None
  }

  function PhaseOf(s: State, p: Client): Option<Phase> {
    if p in s.calls then Some(s.calls[p]) else None
  }

  /** Between the two states process `p` has gone from its phase to the one that follows: it leases a semaphore
      that nobody has; it dispatches its one task or fails; it passes the test exactly when the signal is there,
      which stays, and sleeps otherwise; woken, it consumes the signal; after it has read, no signal is left; and
      the semaphore goes back. */
  ghost predicate Advances(s: State, t: State, p: Client) {
    match PhaseOf(s, p)
    case None =>
      p in t.calls && t.calls[p].Leased? && t.calls[p].semaphore !in s.ledger.held
      && t.ledger.held == s.ledger.held[t.calls[p].semaphore := p] && t.signals == s.signals
    case Some(Leased(x)) =>
      p in t.calls && t.signals == s.signals
      && (t.calls[p] == Failed(x) || Sends(s, t, p, x))
    case Some(Dispatched(x, id)) =>
      PhaseOf(t, p) == Some(if s.signals[x] > 0 then Passed(x, id, false) else Waiting(x, id)) && t.signals == s.signals
    case Some(Waiting(x, id)) =>
      PhaseOf(t, p) == Some(Passed(x, id, true)) && s.signals[x] == 1 && t.signals == s.signals[x := 0]
    case Some(Passed(x, id, consumed)) => PhaseOf(t, p) == Some(Leaving(x, id, consumed)) && t.signals == s.signals
    case Some(Leaving(x, _, _)) => PhaseOf(t, p) == Some(Cleared(x)) && t.signals == s.signals[x := 0]
    case Some(Failed(x)) => PhaseOf(t, p) == Some(Cleared(x)) && t.signals == s.signals
    case Some(Cleared(x)) => PhaseOf(t, p) == None && t.ledger.held == s.ledger.held - {x} && t.signals == s.signals
  }

  /** The task of `p` is new and carries its semaphore. */
  ghost predicate Sends(s: State, t: State, p: Client, x: Item) {
    && p in t.calls && t.calls[p].Dispatched? && t.calls[p].semaphore == x && t.calls[p].id !in s.tasks
    && t.tasks == s.tasks[t.calls[p].id := Task(x, Queued)]
  }

  lemma RunInv(poolSize: nat, run: seq<Step>)
    requires poolSize >= 2 && Valid(Init(poolSize), run)
    ensures Inv(Exec(Init(poolSize), run))
  {
    OpenSound(poolSize);
    InvRun(Init(poolSize), run);
  }

  lemma LeaseAdvances(s: State, p: Client)
    requires Inv(s) && Enabled(s, Lease(p))
    ensures Advances(s, Next(s, Lease(p)), p)
  {
    TakeSound(s.ledger, p);
  }

  lemma GoesOn(s: State, a: Step)
    requires Inv(s) && Enabled(s, a) && Mover(a).Some? && !a.Lease?
    ensures Advances(s, Next(s, a), Mover(a).value)
  {
    assert Balanced(s, s.calls[Mover(a).value]);
  }

  lemma OthersStay(s: State, a: Step, p: Client)
    requires Enabled(s, a) && Mover(a) != Some(p)
    ensures PhaseOf(Next(s, a), p) == PhaseOf(s, p)
  {
  }

  lemma OneMove(s: State, a: Step, p: Client)
    requires Inv(s) && Enabled(s, a)
    ensures if Mover(a) == Some(p) then Advances(s, Next(s, a), p) else PhaseOf(Next(s, a), p) == PhaseOf(s, p)
  {
    if Mover(a) != Some(p) {
      OthersStay(s, a, p);
    } else if a.Lease? {
      LeaseAdvances(s, p);
    } else {
      GoesOn(s, a);
    }
  }

  /** In every state of every run: by its own step a process goes on to its next phase, and no step of another
      process or of a worker moves it. */
  lemma OneCallsLife(poolSize: nat, run: seq<Step>, a: Step, p: Client)
    requires poolSize >= 2 && Valid(Init(poolSize), run) && Enabled(Exec(Init(poolSize), run), a)
    ensures
      var s := Exec(Init(poolSize), run);
      if Mover(a) == Some(p) then Advances(s, Next(s, a), p) else PhaseOf(Next(s, a), p) == PhaseOf(s, p)
  {
    RunInv(poolSize, run);
    OneMove(Exec(Init(poolSize), run), a, p);
  }

  /** Between the two states the task `id`, and no other, has gone on: the function is entered; it has
      returned and its result is written; or the task is gone and its semaphore has one signal more. */
  ghost predicate TaskAdvances(s: State, t: State, id: TaskId) {
    && id in s.tasks && t.calls == s.calls && t.ledger == s.ledger
    && match s.tasks[id].status
      case Queued =>
        && t.tasks == s.tasks[id := Task(s.tasks[id].semaphore, Running)] && t.signals == s.signals
        && t.results == s.results
      case Running =>
        && t.tasks == s.tasks[id := Task(s.tasks[id].semaphore, Finished)] && t.signals == s.signals
        && id in t.results && t.results == s.results[id := t.results[id]]
      case Finished =>
        && t.tasks == s.tasks - {id} && t.results == s.results
        && t.signals == s.signals + multiset{s.tasks[id].semaphore}
  }

  lemma OneTasksLife(s: State, a: Step)
    requires Enabled(s, a) && Mover(a) == None
    ensures exists id :: TaskAdvances(s, Next(s, a), id)
  {
    assert TaskAdvances(s, Next(s, a), a.id);
  }

  // ---- who sleeps, and how long ----

  /** The worker has not signalled yet for the task of `p`. */
  ghost predicate StillComes(s: State, p: Client)
    requires p in s.calls && (s.calls[p].Dispatched? || s.calls[p].Waiting?)
  {
    s.calls[p].id in Carrying(s.tasks, s.calls[p].semaphore)
  }

  /** A process sleeps if and only if it tests the semaphore before the worker has signalled for its task;
      otherwise it can read its result at once. */
  lemma SleepsIff(poolSize: nat, run: seq<Step>, p: Client)
    requires poolSize >= 2 && Valid(Init(poolSize), run)
    requires var s := Exec(Init(poolSize), run); p in s.calls && s.calls[p].Dispatched?
    ensures
      var s := Exec(Init(poolSize), run);
      && Enabled(s, Check(p))
      && (Next(s, Check(p)).calls[p].Waiting? <==> StillComes(s, p))
      && (!StillComes(s, p) ==> Enabled(Next(s, Check(p)), Read(p)) && s.calls[p].id in s.results)
  {
    RunInv(poolSize, run);
    TestTells(Exec(Init(poolSize), run), p);
  }

  lemma TestTells(s: State, p: Client)
    requires Inv(s) && p in s.calls && (s.calls[p].Dispatched? || s.calls[p].Waiting?)
    ensures s.signals[s.calls[p].semaphore] == 0 <==> StillComes(s, p)
    ensures !StillComes(s, p) ==> s.calls[p].id in s.results
    ensures s.calls[p].Waiting? ==> (Enabled(s, Wake(p)) <==> !StillComes(s, p))
  {
    assert Balanced(s, s.calls[p]);
  }

  /** ... and then sleeps until that signal, and no longer: asleep, it can be woken if and only if the signal
      has been given. */
  lemma WokenIff(poolSize: nat, run: seq<Step>, p: Client)
    requires poolSize >= 2 && Valid(Init(poolSize), run)
    requires var s := Exec(Init(poolSize), run); p in s.calls && s.calls[p].Waiting?
    ensures Enabled(Exec(Init(poolSize), run), Wake(p)) <==> !StillComes(Exec(Init(poolSize), run), p)
  {
    RunInv(poolSize, run);
    TestTells(Exec(Init(poolSize), run), p);
  }

  // ---- nothing else holds anybody up ----

  /** The next steps of process `p` in each of its phases. */
  ghost predicate CanGoOn(s: State, p: Client) {
    match PhaseOf(s, p)
    case None => Enabled(s, Lease(p))
    case Some(Leased(_)) => Enabled(s, Fail(p)) && Enabled(s, Dispatch(p, s.nextTask))
    case Some(Dispatched(_, _)) => Enabled(s, Check(p))
    case Some(Waiting(_, _)) => StillComes(s, p) || Enabled(s, Wake(p))
    case Some(Passed(_, _, _)) => Enabled(s, Read(p)) && s.calls[p].id in s.results
    case Some(Leaving(_, _, _)) => Enabled(s, Reset(p))
    case Some(Failed(_)) => Enabled(s, Reset(p))
    case Some(Cleared(_)) => Enabled(s, Return(p))
  }

  lemma GoesOnAlways(s: State, p: Client)
    requires Inv(s)
    ensures CanGoOn(s, p)
  {
    if p in s.calls {
      assert Balanced(s, s.calls[p]);
      if s.calls[p].Waiting? { TestTells(s, p); }
    }
  }

  /** In every state of every run a process can go on, from the first lease to giving the semaphore back; it is
      held up only while it sleeps before the signal of its own task. A task is never held up. */
  lemma NobodyIsHeldUp(poolSize: nat, run: seq<Step>)
    requires poolSize >= 2 && Valid(Init(poolSize), run)
    ensures forall p :: CanGoOn(Exec(Init(poolSize), run), p)
    ensures
      var s := Exec(Init(poolSize), run);
      forall id, v :: id in s.tasks ==> Enabled(s, Start(id)) || Enabled(s, Finish(id, v)) || Enabled(s, SignalCaller(id))
  {
    RunInv(poolSize, run);
    forall p ensures CanGoOn(Exec(Init(poolSize), run), p) {
      GoesOnAlways(Exec(Init(poolSize), run), p);
    }
  }
}
