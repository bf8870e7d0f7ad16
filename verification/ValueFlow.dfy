/** Return holders, callers and callouts: what holds of them in every run.

    A callback block has written its return holder exactly from the moment it ends; a process that
    waits for a callout waits for one it issued itself, and its block is still running. */
module ValueFlow {
  import opened Prelude
  import opened Protocol
  import opened Frames
  import StackAgreement

  /** A block on the image stack is executing exactly when its holder is not written. */
  ghost predicate ImagesWritten(s: State) {
    forall r, k :: 0 <= r < |s.runners| && 0 <= k < |s.runners[r].image| ==>
      (s.runners[r].image[k].phase == Executing <==> s.runners[r].image[k].inv !in s.holder)
  }

  ghost predicate BacklogUnwritten(s: State) {
    forall i :: i in StackAgreement.InFlight(s) + s.pending ==> i !in s.holder
  }

  ghost predicate EnteringUnwritten(s: State) {
    forall r, k :: 0 <= r < |s.runners| && 0 <= k < |s.runners[r].entering| ==> s.runners[r].entering[k] !in s.holder
  }

  ghost predicate WrittenKnown(s: State) {
    forall i :: i in s.holder ==> i.id < s.nextId
  }

  ghost predicate ReturnsWritten(s: State) {
    forall r, k :: 0 <= r < |s.runners| && 0 <= k < |s.runners[r].tasks| && s.runners[r].tasks[k].CallbackReturn? ==>
      s.runners[r].tasks[k].inv in s.holder
  }

  /** Written return holders against the phases of the callbacks. */
  ghost predicate Holders(s: State) {
    ImagesWritten(s) && BacklogUnwritten(s) && EnteringUnwritten(s) && WrittenKnown(s) && ReturnsWritten(s)
  }

  /** Waiting processes and the callouts they wait for. */
  ghost predicate Callers(s: State) {
    && (forall p :: p in s.awaiting ==> s.awaiting[p].caller == p && s.awaiting[p].id < s.nextCall)
    && (forall p :: p in s.awaiting && p.OfCallback? ==> p.inv !in s.holder && p.inv.id < s.nextId)
    && (forall c :: c in s.result ==> c.id < s.nextCall)
  }

  /** Tasks and frames of a runner belong to it. */
  ghost predicate Owned(rs: RunnerState, r: nat, nextId: nat, nextCall: nat) {
    && (forall k :: 0 <= k < |rs.tasks| && rs.tasks[k].Callout? ==> rs.tasks[k].call.runner == r && rs.tasks[k].call.id < nextCall)
    && (forall k :: 0 <= k < |rs.frames| && rs.frames[k].CallFrame? ==> rs.frames[k].call.runner == r && rs.frames[k].call.id < nextCall)
    && (forall k :: 0 <= k < |rs.frames| && rs.frames[k].BackFrame? ==>
          rs.frames[k].inv.runner == r && !rs.frames[k].inv.foreign && rs.frames[k].inv.id < nextId)
    && (forall j, k :: 0 <= j < k < |rs.frames| && rs.frames[j].BackFrame? ==> rs.frames[j] != rs.frames[k])
  }

  ghost predicate Inv(s: State) {
    && StackAgreement.Inv(s) && Holders(s) && Callers(s)
    && (forall r :: 0 <= r < |s.runners| ==>
          Owned(s.runners[r], r, s.nextId, s.nextCall) && Balanced(s.runners[r]))
  }

  /** The tasks are the same but for a first one taken or a last one added. */
  ghost predicate OwnedTasks(t: RunnerState, rs: RunnerState, r: nat, nextCall: nat) {
    t.tasks == rs.tasks || (t.tasks != [] && Front(t.tasks) == rs.tasks &&
      (Last(t.tasks).Callout? ==> Last(t.tasks).call.runner == r && Last(t.tasks).call.id < nextCall))
  }

  /** The frames are the same but for an innermost one taken away or one that waits. */
  ghost predicate OwnedFrames(t: RunnerState, rs: RunnerState) {
    t.frames == rs.frames || (rs.frames != [] && t.frames == Front(rs.frames))
      || (t.frames != [] && Front(t.frames) == rs.frames && Last(t.frames).WaitFrame?)
  }

  lemma OwnedSame(rs: RunnerState, t: RunnerState, r: nat, nextId: nat, nextCall: nat, later: nat, laterCall: nat)
    requires Owned(rs, r, nextId, nextCall) && nextId <= later && nextCall <= laterCall
    requires OwnedTasks(t, rs, r, laterCall) && OwnedFrames(t, rs)
    ensures Owned(t, r, later, laterCall)
  {
  }

  lemma OwnedEffect(s: State, a: Step, r: nat)
    requires Enabled(s, a) && r < |s.runners| && a != TakeTask(r) && !Enters(a, r)
    ensures OwnedTasks(Next(s, a).runners[r], s.runners[r], r, Next(s, a).nextCall)
    ensures OwnedFrames(Next(s, a).runners[r], s.runners[r])
    ensures Next(s, a).nextId >= s.nextId && Next(s, a).nextCall >= s.nextCall
  {
    if a.CrossCallback? { CrossEffect(s, a.q, a.r); }
    if !Touches(s, a, r) { Untouched(s, a, r); }
  }

  lemma OwnedStep(s: State, a: Step, r: nat)
    requires Enabled(s, a) && r < |s.runners| && Owned(s.runners[r], r, s.nextId, s.nextCall)
    ensures Owned(Next(s, a).runners[r], r, Next(s, a).nextId, Next(s, a).nextCall)
  {
    var rs, t := s.runners[r], Next(s, a);
    if a == TakeTask(r) {
      OwnedTake(rs, r, s.nextId, s.nextCall);
    } else if Enters(a, r) {
      EnterEffect(s, a, r);
      OwnedEnter(rs, Invocation(s.nextId, r, !a.OwnCallback?), r, s.nextCall);
    } else {
      OwnedEffect(s, a, r);
      OwnedSame(rs, t.runners[r], r, s.nextId, s.nextCall, t.nextId, t.nextCall);
    }
  }

  lemma OwnedEnter(rs: RunnerState, inv: Invocation, r: nat, nextCall: nat)
    requires Owned(rs, r, inv.id, nextCall) && inv.runner == r
    ensures Owned(Enter(rs, inv), r, inv.id + 1, nextCall)
  {
  }

  lemma OwnedTake(rs: RunnerState, r: nat, nextId: nat, nextCall: nat)
    requires Owned(rs, r, nextId, nextCall) && Idle(rs) && rs.tasks != []
    ensures Owned(Take(rs), r, nextId, nextCall)
  {
  }

  lemma CallersStep(s: State, a: Step)
    requires Inv(s) && Enabled(s, a)
    ensures Callers(Next(s, a))
  {
    match a
    case Dispatch(r, p) =>
      if p.OfCallback? { RunningIsFresh(s, p.inv); }
      CallersDispatch(s, r, p);
    case CalloutEnds(r, v) =>
      assert Owned(s.runners[r], r, s.nextId, s.nextCall);
      CallersEnd(s, r, v);
    case BlockEnds(r, k, v) => CallersBlockEnds(s, r, k, v);
    case _ => CallersRest(s, a);
  }

  lemma CallersDispatch(s: State, r: nat, p: Process)
    requires Callers(s) && Enabled(s, Dispatch(r, p)) && (p.OfCallback? ==> p.inv !in s.holder && p.inv.id < s.nextId)
    ensures Callers(Next(s, Dispatch(r, p)))
  {
  }

  lemma CallersEnd(s: State, r: nat, v: Value)
    requires Callers(s) && Enabled(s, CalloutEnds(r, v)) && Last(s.runners[r].frames).call.id < s.nextCall
    ensures Callers(Next(s, CalloutEnds(r, v)))
  {
  }

  lemma CallersBlockEnds(s: State, r: nat, k: nat, v: Value)
    requires Callers(s) && Enabled(s, BlockEnds(r, k, v))
    ensures Callers(Next(s, BlockEnds(r, k, v)))
  {
  }

  lemma CallersRest(s: State, a: Step)
    requires Callers(s) && Enabled(s, a) && !a.Dispatch? && !a.CalloutEnds? && !a.BlockEnds?
    ensures Callers(Next(s, a))
  {
    WritesEffect(s, a);
    KnownIdsGrow(s, a);
    FewerWait(s, a);
  }

  lemma KnownIdsGrow(s: State, a: Step)
    requires Enabled(s, a)
    ensures Next(s, a).nextId >= s.nextId
  {
  }

  lemma FewerWait(s: State, a: Step)
    requires Enabled(s, a) && !a.Dispatch?
    ensures forall p :: p in Next(s, a).awaiting ==> p in s.awaiting && Next(s, a).awaiting[p] == s.awaiting[p]
  {
    WritesEffect(s, a);
  }

  /** A running block has not written its holder, and its invocation is known. */
  lemma RunningIsFresh(s: State, inv: Invocation)
    requires Inv(s) && Runs(s, inv)
    ensures inv !in s.holder && inv.id < s.nextId
  {
    var image := s.runners[inv.runner].image;
    var k :| 0 <= k < |image| && image[k] == Live(inv, Executing);
    OnNativeStack(s, inv.runner, k);
  }

  /** An image entry that is not being returned is on the native stack. */
  lemma OnNativeStack(s: State, r: nat, k: nat)
    requires StackAgreement.Inv(s) && r < |s.runners| && k < |s.runners[r].image|
    requires s.runners[r].image[k].phase != Returning
    ensures s.runners[r].image[k].inv in s.runners[r].native && s.runners[r].image[k].inv.id < s.nextId
    ensures s.runners[r].image[k].inv !in s.runners[r].entering
    ensures forall j :: 0 <= j < |s.runners[r].image| && j != k && s.runners[r].image[j].phase != Returning ==>
      s.runners[r].image[j].inv != s.runners[r].image[k].inv
  {
    assert StackAgreement.RunnerInv(s, r);
    StackAgreement.SettledIsNative(s, r, k);
    assert forall i :: i in s.runners[r].entering ==> i in StackAgreement.Coming(s, r);
  }

  /** What is pending or in flight is on the native stack, above the image entries. */
  lemma BacklogOnNativeStack(s: State, i: Invocation)
    requires StackAgreement.Inv(s) && i in StackAgreement.InFlight(s) + s.pending
    ensures i.runner < |s.runners| && i.id < s.nextId
    ensures forall k :: 0 <= k < |s.runners[i.runner].image| && s.runners[i.runner].image[k].phase != Returning ==>
      s.runners[i.runner].image[k].inv != i
  {
    var r := i.runner;
    assert StackAgreement.RunnerInv(s, r);
    assert i in StackAgreement.Backlog(s, r);
    StackAgreement.ComingIsNative(s, r);
    assert i in StackAgreement.Coming(s, r);
    forall k | 0 <= k < |s.runners[r].image| && s.runners[r].image[k].phase != Returning
      ensures s.runners[r].image[k].inv != i
    {
      StackAgreement.SettledIsNative(s, r, k);
    }
  }

  // ---- holders ----

  lemma HoldersBlockEnds(s: State, r: nat, k: nat, v: Value)
    requires StackAgreement.Inv(s) && Holders(s) && Enabled(s, BlockEnds(r, k, v))
    ensures Holders(Next(s, BlockEnds(r, k, v)))
  {
    OnNativeStack(s, r, k);
    BlockEndsPhases(s, r, k, v);
    BlockEndsBacklog(s, r, k, v);
    BlockEndsEntering(s, r, k, v);
    BlockEndsKnown(s, r, k, v);
  }

  /** Only the block that ends has its holder written. */
  lemma BlockEndsPhases(s: State, r: nat, k: nat, v: Value)
    requires StackAgreement.Inv(s) && ImagesWritten(s) && Enabled(s, BlockEnds(r, k, v))
    ensures ImagesWritten(Next(s, BlockEnds(r, k, v)))
  {
    var t := Next(s, BlockEnds(r, k, v));
    OnNativeStack(s, r, k);
    assert StackAgreement.RunnerInv(s, r);
    forall q, j | 0 <= q < |t.runners| && 0 <= j < |t.runners[q].image|
      ensures t.runners[q].image[j].phase == Executing <==> t.runners[q].image[j].inv !in t.holder
    {
      assert s.runners[q].image[j].inv.runner == q;
    }
  }

  lemma BlockEndsBacklog(s: State, r: nat, k: nat, v: Value)
    requires StackAgreement.Inv(s) && BacklogUnwritten(s) && Enabled(s, BlockEnds(r, k, v))
    ensures BacklogUnwritten(Next(s, BlockEnds(r, k, v)))
  {
    var t := Next(s, BlockEnds(r, k, v));
    forall i | i in StackAgreement.InFlight(t) + t.pending ensures i !in t.holder {
      assert i in StackAgreement.InFlight(s) + s.pending;
      BacklogOnNativeStack(s, i);
      assert s.runners[r].image[k].inv.runner == r;
    }
  }

  lemma BlockEndsEntering(s: State, r: nat, k: nat, v: Value)
    requires EnteringUnwritten(s) && Enabled(s, BlockEnds(r, k, v)) && StackAgreement.Homed(s)
    requires s.runners[r].image[k].inv !in s.runners[r].entering
    ensures EnteringUnwritten(Next(s, BlockEnds(r, k, v)))
  {
    var t := Next(s, BlockEnds(r, k, v));
    assert s.runners[r].image[k].inv.runner == r;
    forall q, j | 0 <= q < |t.runners| && 0 <= j < |t.runners[q].entering| ensures t.runners[q].entering[j] !in t.holder {
      assert s.runners[q].entering[j].runner == q;
    }
  }

  lemma BlockEndsKnown(s: State, r: nat, k: nat, v: Value)
    requires WrittenKnown(s) && ReturnsWritten(s) && Enabled(s, BlockEnds(r, k, v)) && s.runners[r].image[k].inv.id < s.nextId
    ensures WrittenKnown(Next(s, BlockEnds(r, k, v))) && ReturnsWritten(Next(s, BlockEnds(r, k, v)))
  {
  }

  lemma HoldersTryReturn(s: State, r: nat, k: nat)
    requires Holders(s) && Enabled(s, TryReturn(r, k))
    ensures Holders(Next(s, TryReturn(r, k)))
  {
    var t := Next(s, TryReturn(r, k));
    assert s.runners[r].image[k].inv in s.holder;
    forall q, j | 0 <= q < |t.runners| && 0 <= j < |t.runners[q].tasks| && t.runners[q].tasks[j].CallbackReturn?
      ensures t.runners[q].tasks[j].inv in t.holder
    {
      if j < |s.runners[q].tasks| { assert t.runners[q].tasks[j] == s.runners[q].tasks[j]; }
    }
  }

  lemma HoldersPush(s: State)
    requires Holders(s) && Enabled(s, PushImage)
    ensures Holders(Next(s, PushImage))
  {
    assert s.inFlight.value in StackAgreement.InFlight(s) + s.pending;
    assert forall i :: i in s.pending ==> i in StackAgreement.InFlight(s) + s.pending;
  }

  lemma HoldersFinish(s: State, r: nat)
    requires Holders(s) && Enabled(s, FinishReturn(r))
    ensures Holders(Next(s, FinishReturn(r)))
  {
  }

  lemma RestBacklog(s: State, a: Step)
    requires Enabled(s, a) && !a.PushImage?
    ensures var t := Next(s, a);
      forall i :: i in StackAgreement.InFlight(t) + t.pending ==>
        i in StackAgreement.InFlight(s) + s.pending || (a.Enqueue? && i == s.runners[a.r].entering[a.k])
  {
    var t := Next(s, a);
    forall i | i in StackAgreement.InFlight(t) + t.pending
      ensures i in StackAgreement.InFlight(s) + s.pending || (a.Enqueue? && i == s.runners[a.r].entering[a.k])
    {
      if i !in StackAgreement.InFlight(t) { assert i in t.pending; }
    }
  }

  /** The step touches neither image stacks nor holders. */
  predicate Bystander(a: Step) {
    !a.PushImage? && !a.FinishReturn? && !a.BlockEnds? && !a.TryReturn?
  }

  lemma HoldersRest(s: State, a: Step)
    requires Holders(s) && Enabled(s, a) && Bystander(a)
    ensures Holders(Next(s, a))
  {
    RestHolder(s, a);
    RestImages(s, a);
    RestBacklog(s, a);
    RestEntering(s, a);
    RestReturns(s, a);
  }

  lemma RestHolder(s: State, a: Step)
    requires Enabled(s, a) && Bystander(a)
    ensures Next(s, a).holder == s.holder && |Next(s, a).runners| == |s.runners| && Next(s, a).nextId >= s.nextId
  {
    WritesEffect(s, a);
    KnownIdsGrow(s, a);
  }

  lemma RestImages(s: State, a: Step)
    requires ImagesWritten(s) && Enabled(s, a) && Bystander(a)
    ensures ImagesWritten(Next(s, a))
  {
    RestHolder(s, a);
    forall q | 0 <= q < |s.runners| ensures Next(s, a).runners[q].image == s.runners[q].image {
      RestRunner(s, a, q);
    }
  }

  lemma RestEntering(s: State, a: Step)
    requires EnteringUnwritten(s) && WrittenKnown(s) && Enabled(s, a) && Bystander(a)
    ensures EnteringUnwritten(Next(s, a))
  {
    var t := Next(s, a);
    RestHolder(s, a);
    forall q, k | 0 <= q < |t.runners| && 0 <= k < |t.runners[q].entering| ensures t.runners[q].entering[k] !in t.holder {
      RestRunner(s, a, q);
    }
  }

  lemma RestReturns(s: State, a: Step)
    requires ReturnsWritten(s) && Enabled(s, a) && Bystander(a)
    ensures ReturnsWritten(Next(s, a))
  {
    var t := Next(s, a);
    RestHolder(s, a);
    forall q, k | 0 <= q < |t.runners| && 0 <= k < |t.runners[q].tasks| && t.runners[q].tasks[k].CallbackReturn?
      ensures t.runners[q].tasks[k].inv in t.holder
    {
      RestRunner(s, a, q);
    }
  }

  lemma RestRunner(s: State, a: Step, q: nat)
    requires Enabled(s, a) && q < |s.runners| && Bystander(a)
    ensures var rs, t := s.runners[q], Next(s, a).runners[q];
      && t.image == rs.image
      && (forall j :: 0 <= j < |t.tasks| && t.tasks[j].CallbackReturn? ==> t.tasks[j] in rs.tasks)
      && (forall j :: 0 <= j < |t.entering| ==> t.entering[j] in rs.entering || t.entering[j].id == s.nextId)
  {
    if !Touches(s, a, q) { Untouched(s, a, q); }
  }

  lemma HoldersStep(s: State, a: Step)
    requires Inv(s) && Enabled(s, a)
    ensures Holders(Next(s, a))
  {
    match a
    case BlockEnds(r, k, v) => HoldersBlockEnds(s, r, k, v);
    case TryReturn(r, k) => HoldersTryReturn(s, r, k);
    case PushImage => HoldersPush(s);
    case FinishReturn(r) => HoldersFinish(s, r);
    case _ => HoldersRest(s, a);
  }

  lemma InvStep(s: State, a: Step)
    requires Inv(s) && Enabled(s, a)
    ensures Inv(Next(s, a))
  {
    StackAgreement.InvStep(s, a);
    HoldersStep(s, a);
    CallersStep(s, a);
    forall r | 0 <= r < |s.runners|
      ensures Owned(Next(s, a).runners[r], r, Next(s, a).nextId, Next(s, a).nextCall) && Balanced(Next(s, a).runners[r])
    {
      OwnedStep(s, a, r);
      BalancedStep(s, a, r);
    }
  }

  lemma {:induction false} InvRun(s: State, run: seq<Step>)
    requires Inv(s) && Valid(s, run)
    ensures Inv(Exec(s, run))
    decreases |run|
  {
    if run != [] {
      InvStep(s, run[0]);
      InvRun(Next(s, run[0]), run[1..]);
    }
  }

  lemma InitInv(n: nat)
    ensures Inv(Init(n))
  {
  }

  lemma ReachableInv(s: State)
    requires Reachable(s)
    ensures Inv(s)
  {
    var n: nat, run: seq<Step> :| Reaches(Init(n), run, s);
    InitInv(n);
    InvRun(Init(n), run);
  }
}
