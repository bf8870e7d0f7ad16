/** What a single callback goes through in the image, entry by entry of `callbackInvocationStack`, and what
    every participant can do in every state. */
module CallbackPhases {
  import opened Prelude
  import opened Protocol
  import Frames
  import StackAgreement

  /** The phase of entry `k` after a step: its own end, its own try, or the return of another one. */
  function PhaseAfter(s: State, a: Step, r: nat, k: nat): Phase
    requires r < |s.runners| && k < |s.runners[r].image|
  {
    var rs := s.runners[r];
    var top := k == |rs.image| - 1 && rs.native != [] && Last(rs.native) == rs.image[k].inv;
    if a.BlockEnds? && a.r == r && a.k == k then Awake
    else if a == TryReturn(r, k) then (if top then Returning else Waiting)
    else if a == FinishReturn(r) && rs.image[k].phase == Waiting then Awake
    else rs.image[k].phase
  }

  /** No other entry is changed, and the only one that ever goes is the newest, by its own return. */
  lemma EntriesAfter(s: State, a: Step, r: nat)
    requires Enabled(s, a) && r < |s.runners|
    ensures var image, after := s.runners[r].image, Next(s, a).runners[r].image;
      && |after| == (if a == FinishReturn(r) then |image| - 1
                     else if a.PushImage? && s.inFlight.value.runner == r then |image| + 1 else |image|)
      && forall k :: 0 <= k < |image| && k < |after| ==> after[k] == Live(image[k].inv, PhaseAfter(s, a, r, k))
  {
    if a.CrossCallback? {
      CrossEffect(s, a.q, a.r);
    } else if !Touches(s, a, r) {
      Untouched(s, a, r);
    } else if a.TryReturn? {
      TriedEntries(s, r, a.k);
    } else {
      OtherEntries(s, a, r);
    }
  }

  lemma OtherEntries(s: State, a: Step, r: nat)
    requires Enabled(s, a) && r < |s.runners| && Touches(s, a, r) && !a.CrossCallback? && !a.TryReturn?
    ensures var image, after := s.runners[r].image, Next(s, a).runners[r].image;
      && |after| == (if a == FinishReturn(r) then |image| - 1 else if a.PushImage? then |image| + 1 else |image|)
      && forall k :: 0 <= k < |image| && k < |after| ==> after[k] == Live(image[k].inv, PhaseAfter(s, a, r, k))
  {
  }

  lemma TriedEntries(s: State, r: nat, n: nat)
    requires Enabled(s, TryReturn(r, n))
    ensures var image, after := s.runners[r].image, TryReturnAt(s.runners[r], n).image;
      |after| == |image|
      && forall k :: 0 <= k < |image| ==> after[k] == Live(image[k].inv, PhaseAfter(s, TryReturn(r, n), r, k))
  {
  }

  /** When a callback has returned, nobody on its runner waits: every process that waited tries again. */
  lemma ReturnWakesEverybody(s: State, r: nat)
    requires Enabled(s, FinishReturn(r))
    ensures var image, after := s.runners[r].image, Next(s, FinishReturn(r)).runners[r].image;
      && |after| == |image| - 1
      && forall k :: 0 <= k < |after| ==>
           after[k].inv == image[k].inv && after[k].phase != Waiting
           && (after[k].phase != image[k].phase ==> image[k].phase == Waiting && after[k].phase == Awake)
  {
    EntriesAfter(s, FinishReturn(r), r);
  }

  lemma SleepsOn(s: State, a: Step, r: nat, k: nat)
    requires Enabled(s, a) && a != FinishReturn(r)
    requires r < |s.runners| && k < |s.runners[r].image| && s.runners[r].image[k].phase == Waiting
    ensures k < |Next(s, a).runners[r].image| && Next(s, a).runners[r].image[k] == s.runners[r].image[k]
  {
    EntriesAfter(s, a, r);
  }

  /** Nothing else wakes a process: over every run without a completed return on its runner, it waits. */
  lemma {:induction false} SleepsUntilAReturn(s: State, run: seq<Step>, r: nat, k: nat)
    requires Valid(s, run) && FinishReturn(r) !in run
    requires r < |s.runners| && k < |s.runners[r].image| && s.runners[r].image[k].phase == Waiting
    ensures var t := Exec(s, run);
      r < |t.runners| && k < |t.runners[r].image| && t.runners[r].image[k] == s.runners[r].image[k]
    decreases |run|
  {
    if run != [] {
      assert run[0] in run && forall a :: a in run[1..] ==> a in run;
      SleepsOn(s, run[0], r, k);
      SleepsUntilAReturn(Next(s, run[0]), run[1..], r, k);
    }
  }

  /** A callback that tries is let go exactly when it is the newest on both stacks, and then the callback
      stack loses its top and the worker gets the return; otherwise only the process itself goes to sleep. */
  lemma TriesOnce(s: State, r: nat, k: nat)
    requires Enabled(s, TryReturn(r, k))
    ensures var rs, t, inv := s.runners[r], Next(s, TryReturn(r, k)), s.runners[r].image[k].inv;
      var after := t.runners[r];
      && t.(runners := s.runners) == s && (forall q :: 0 <= q < |s.runners| && q != r ==> t.runners[q] == s.runners[q])
      && after.frames == rs.frames && after.entering == rs.entering && after.rootReturned == rs.rootReturned
      && (forall j :: 0 <= j < |rs.image| && j != k ==> after.image[j] == rs.image[j])
      && if k == |rs.image| - 1 && rs.native != [] && Last(rs.native) == inv then
           && after.image[k].phase == Returning && rs.native == after.native + [inv]
           && after.tasks == rs.tasks + [CallbackReturn(inv)]
         else
           && after.image[k].phase == Waiting && after.native == rs.native && after.tasks == rs.tasks
  {
    EntriesAfter(s, TryReturn(r, k), r);
  }

  // ---- the critical section ----

  /** The same entries, with some blocks at their end. */
  ghost predicate OnlyBlocksEnd(image: seq<Live>, after: seq<Live>) {
    |after| == |image| && forall k :: 0 <= k < |image| ==>
      after[k] == image[k] || (image[k].phase == Executing && after[k] == Live(image[k].inv, Awake))
  }

  lemma LockedStep(s: State, a: Step, r: nat)
    requires Enabled(s, a) && r < |s.runners| && Locked(s.runners[r]) && a != FinishReturn(r)
    ensures Locked(Next(s, a).runners[r]) && OnlyBlocksEnd(s.runners[r].image, Next(s, a).runners[r].image)
  {
    EntriesAfter(s, a, r);
    var image, after := s.runners[r].image, Next(s, a).runners[r].image;
    assert !(a.PushImage? && s.inFlight.value.runner == r);
    var k :| 0 <= k < |image| && image[k].phase == Returning;
    assert after[k].phase == Returning;
  }

  /** The critical section is exclusive: from the moment that the primitive has answered true for a callback
      until its completed return, no process passes the test or is refused, nothing is pushed on the image
      stack or popped, and the callback stack only grows. */
  lemma {:induction false} LockExcludes(s: State, run: seq<Step>, r: nat)
    requires Valid(s, run) && FinishReturn(r) !in run && r < |s.runners| && Locked(s.runners[r])
    ensures var t := Exec(s, run);
      && r < |t.runners| && Locked(t.runners[r])
      && OnlyBlocksEnd(s.runners[r].image, t.runners[r].image)
      && s.runners[r].native <= t.runners[r].native
    decreases |run|
  {
    if run != [] {
      assert run[0] in run && forall a :: a in run[1..] ==> a in run;
      LockedStep(s, run[0], r);
      LockedNative(s, run[0], r);
      LockExcludes(Next(s, run[0]), run[1..], r);
    }
  }

  lemma LockedNative(s: State, a: Step, r: nat)
    requires Enabled(s, a) && r < |s.runners| && Locked(s.runners[r])
    ensures s.runners[r].native <= Next(s, a).runners[r].native
  {
    if a.CrossCallback? { CrossEffect(s, a.q, a.r); }
    if !Touches(s, a, r) { Untouched(s, a, r); }
  }

  // ---- what everybody can do ----

  /** Worker `r`: a function can return anything, call back, or call a callback of any other runner; a loop
      takes what there is; a thread that waits goes on when it is told. */
  ghost predicate WorkerCan(s: State, r: nat)
    requires r < |s.runners|
  {
    var rs := s.runners[r];
    if rs.frames == [] then rs.tasks != [] ==> Enabled(s, TakeTask(r))
    else match Last(rs.frames)
      case CallFrame(_) =>
        && Enabled(s, OwnCallback(r)) && (forall v :: Enabled(s, CalloutEnds(r, v)))
        && (forall q :: 0 <= q < |s.runners| && q != r ==> Enabled(s, CrossCallback(r, q)))
      case BackFrame(i) => i !in rs.entering && rs.tasks != [] ==> Enabled(s, TakeTask(r))
      case WaitFrame(i) => s.signals[i] > 0 ==> Enabled(s, CrossResumes(r))
  }

  /** Callback `k` of runner `r`: its block can end with anything unless it waits for a function of its own;
      a process that is awake tries unless another is in the critical section, which the one inside leaves. */
  ghost predicate CallbackCan(s: State, r: nat, k: nat)
    requires r < |s.runners| && k < |s.runners[r].image|
  {
    match s.runners[r].image[k].phase
    case Executing => OfCallback(s.runners[r].image[k].inv) !in s.awaiting ==> forall v :: Enabled(s, BlockEnds(r, k, v))
    case Awake => Enabled(s, TryReturn(r, k)) || Enabled(s, FinishReturn(r))
    case Waiting => true
    case Returning => Enabled(s, FinishReturn(r))
  }

  /** The callback process of the image takes what is queued, unless a return on the runner is under way. */
  ghost predicate ImageCan(s: State) {
    match s.inFlight
    case None => s.pending != [] ==> Enabled(s, ReadPending)
    case Some(i) => Enabled(s, PushImage) || Enabled(s, FinishReturn(i.runner))
  }

  /** A process waits for nothing but the result of its own function, and a thread for nothing but its signal. */
  ghost predicate ThreadsCan(s: State) {
    && (forall p :: p in s.awaiting && s.awaiting[p] in s.result ==> Enabled(s, CallerResumes(p)))
    && (forall p, r :: p !in s.awaiting && (p.Green? || Runs(s, p.inv)) && 0 <= r < |s.runners| ==> Enabled(s, Dispatch(r, p)))
    && (forall i :: s.signals[i] > 0 ==>
          Enabled(s, ForeignResumes(i)) || exists q :: Away(s, q, i) && Enabled(s, CrossResumes(q)))
    && (forall r, k :: 0 <= r < |s.runners| && 0 <= k < |s.runners[r].entering| ==> Enabled(s, Enqueue(r, k)))
    && (forall r :: 0 <= r < |s.runners| ==> Enabled(s, ForeignCallback(r)))
  }

  predicate Away(s: State, q: nat, i: Invocation) {
    q < |s.runners| && s.runners[q].frames != [] && Last(s.runners[q].frames) == WaitFrame(i)
  }

  lemma LockIsLeft(s: State, r: nat)
    requires StackAgreement.Inv(s) && r < |s.runners| && Locked(s.runners[r])
    ensures Enabled(s, FinishReturn(r))
  {
    assert StackAgreement.RunnerInv(s, r);
  }

  lemma ThreadsGoOn(s: State)
    ensures ThreadsCan(s)
  {
    forall i | s.signals[i] > 0
      ensures Enabled(s, ForeignResumes(i)) || exists q :: Away(s, q, i) && Enabled(s, CrossResumes(q))
    {
      if Crossing(s, i) {
        var q :| 0 <= q < |s.runners| && s.runners[q].frames != [] && Last(s.runners[q].frames) == WaitFrame(i);
        assert Away(s, q, i) && Enabled(s, CrossResumes(q));
      }
    }
  }

  lemma WorkerGoesOn(s: State, r: nat)
    requires r < |s.runners| && !s.runners[r].rootReturned
    ensures WorkerCan(s, r)
  {
  }

  lemma CallbackGoesOn(s: State, r: nat, k: nat)
    requires r < |s.runners| && k < |s.runners[r].image|
    requires Locked(s.runners[r]) ==> Enabled(s, FinishReturn(r))
    ensures CallbackCan(s, r, k)
  {
    if s.runners[r].image[k].phase == Returning { assert Locked(s.runners[r]); }
  }

  lemma ImageGoesOn(s: State)
    requires s.inFlight.Some? ==> s.inFlight.value.runner < |s.runners|
    requires s.inFlight.Some? && Locked(s.runners[s.inFlight.value.runner]) ==> Enabled(s, FinishReturn(s.inFlight.value.runner))
    ensures ImageCan(s)
  {
  }

  /** In every reachable state each participant can go on with whatever it may do next: it is held up only by
      what the code makes it wait for, and the critical section can always be left. */
  lemma NothingElseHoldsUp(s: State)
    requires Reachable(s)
    ensures forall r :: 0 <= r < |s.runners| ==> WorkerCan(s, r)
    ensures forall r, k :: 0 <= r < |s.runners| && 0 <= k < |s.runners[r].image| ==> CallbackCan(s, r, k)
    ensures ImageCan(s) && ThreadsCan(s)
  {
    StackAgreement.ReachableInv(s);
    if s.inFlight.Some? {
      assert s.inFlight.value in StackAgreement.InFlight(s) + s.pending;
      if Locked(s.runners[s.inFlight.value.runner]) { LockIsLeft(s, s.inFlight.value.runner); }
    }
    ImageGoesOn(s);
    ThreadsGoOn(s);
    forall r | 0 <= r < |s.runners| ensures WorkerCan(s, r) {
      Frames.FramesConserved(s, r);
      WorkerGoesOn(s, r);
    }
    forall r, k | 0 <= r < |s.runners| && 0 <= k < |s.runners[r].image| ensures CallbackCan(s, r, k) {
      if Locked(s.runners[r]) { LockIsLeft(s, r); }
      CallbackGoesOn(s, r, k);
    }
  }
}
