/** What a process can do at every moment of a pooled call: in every reached state of the protocol with its
    semaphores, everybody can go on, except for a process that sleeps before the signal of its own task. */
module CallProgress {
  import opened Prelude
  import opened EndToEnd
  import P = Protocol
  import A = AsyncCall
  import HandshakeLaws

  /** What process `p`, inside a call on runner `r`, can do next. */
  ghost predicate CallGoesOn(b: Both, r: nat, p: Process)
    requires r < |b.pools| && p in b.pools[r].calls
  {
    match b.pools[r].calls[p]
    case Leased(_) => CanDo(b, Send(r, p)) && CanDo(b, Wait(r, A.Fail(p)))
    case Dispatched(_, _) => CanDo(b, Wait(r, A.Check(p)))
    case Waiting(_, _) => HandshakeLaws.StillComes(b.pools[r], p) || CanDo(b, Wait(r, A.Wake(p)))
    case Passed(_, _, _) => CanDo(b, Read(r, p))
    case Leaving(_, _, _) => CanDo(b, Wait(r, A.Reset(p)))
    case Failed(_) => CanDo(b, Wait(r, A.Reset(p)))
    case Cleared(_) => CanDo(b, Wait(r, A.Return(p)))
  }

  /** The task of a process that still sleeps is in the queue of its worker or under `ffi_call`, or the worker is
      about to signal. */
  ghost predicate TaskGoesOn(b: Both, r: nat, id: A.TaskId)
    requires r < |b.pools| && id in b.pools[r].tasks
  {
    b.pools[r].tasks[id].status == A.Finished ==> CanDo(b, Wait(r, A.SignalCaller(id)))
  }

  /** Everything else goes on as in the protocol alone; only the block of a process inside a call does not end. */
  ghost predicate SystemGoesOn(b: Both) {
    forall a :: P.Enabled(b.system, a) && !a.Dispatch? && !a.CallerResumes? && !EndsInCall(b, a) ==> CanDo(b, System(a))
  }

  predicate EndsInCall(b: Both, a: P.Step)
    requires P.Enabled(b.system, a)
  {
    a.BlockEnds? && InCall(b, P.OfCallback(b.system.runners[a.r].image[a.k].inv))
  }

  /** All of this, and a process that is in no call can lease at once, whoever else has. */
  ghost predicate AllGoOn(b: Both) {
    && (forall r, p :: 0 <= r < |b.pools| && p in b.pools[r].calls ==> CallGoesOn(b, r, p))
    && (forall r, p :: 0 <= r < |b.pools| && !InCall(b, p) && CanAct(b.system, p) ==> CanDo(b, Wait(r, A.Lease(p))))
    && (forall r, id :: 0 <= r < |b.pools| && id in b.pools[r].tasks ==> TaskGoesOn(b, r, id))
    && SystemGoesOn(b)
  }

  lemma CallsGoOn(b: Both, r: nat, p: Process)
    requires r < |b.pools| && p in b.pools[r].calls && HandshakeLaws.CanGoOn(b.pools[r], p)
    ensures CallGoesOn(b, r, p)
  {
  }

  lemma LeasesAlways(b: Both, r: nat, p: Process)
    requires r < |b.pools| && HandshakeLaws.CanGoOn(b.pools[r], p) && !InCall(b, p) && CanAct(b.system, p)
    ensures CanDo(b, Wait(r, A.Lease(p)))
  {
    assert p !in b.pools[r].calls;
  }

  lemma PoolGoesOn(b: Both, r: nat, p: Process)
    requires Coupled(b) && r < |b.pools|
    ensures HandshakeLaws.CanGoOn(b.pools[r], p)
  {
    assert CoupledRunner(b.system, b.pools[r], r);
    HandshakeLaws.GoesOnAlways(b.pools[r], p);
  }

  lemma TasksGoOn(b: Both, r: nat, id: A.TaskId)
    requires r < |b.pools| && id in b.pools[r].tasks
    ensures TaskGoesOn(b, r, id)
  {
  }

  lemma SystemsGoOn(b: Both)
    ensures SystemGoesOn(b)
  {
  }

  lemma CoupledGoesOn(b: Both)
    requires Coupled(b)
    ensures AllGoOn(b)
  {
    forall r, p | 0 <= r < |b.pools| && p in b.pools[r].calls ensures CallGoesOn(b, r, p) {
      PoolGoesOn(b, r, p);
      CallsGoOn(b, r, p);
    }
    forall r, p | 0 <= r < |b.pools| && !InCall(b, p) && CanAct(b.system, p) ensures CanDo(b, Wait(r, A.Lease(p))) {
      PoolGoesOn(b, r, p);
      LeasesAlways(b, r, p);
    }
    forall r, id | 0 <= r < |b.pools| && id in b.pools[r].tasks ensures TaskGoesOn(b, r, id) {
      TasksGoOn(b, r, id);
    }
    SystemsGoOn(b);
  }

  /** After every run that the guards of the code allow: any number of processes are inside calls on the same
      runner or on different ones, and each can go on; a process that is in none can lease at once. */
  lemma EverybodyGoesOn(n: nat, poolSize: nat, acts: seq<Act>)
    requires poolSize >= 2 && Allowed(Init(n, poolSize), acts)
    ensures Runs(Init(n, poolSize), acts) && AllGoOn(After(Init(n, poolSize), acts))
  {
    RunsAreProtocolRuns(n, poolSize, acts);
    CoupledGoesOn(After(Init(n, poolSize), acts));
  }
}
