/** What becomes of the nodes and of the elements of the thread-safe queue, with one consumer.

    The heap holds the nodes in use and no others, a put links the element it was called with, and a
    thread inside an operation waits for nothing but the mutex, whose holder can go on. */
module QueueMemory {
  import opened Prelude
  import opened QueueInterleaving

  // ---- nothing leaks ----

  /** The node belongs to a put that has not linked it yet. */
  predicate PutHolds(s: State, n: Node) {
    exists i :: 0 <= i < |s.producers| && Private(s.producers[i]) && s.producers[i].node == n
  }

  /** The node has been cut off by the take under way, which has not freed it yet. */
  predicate TakeHolds(s: State, n: Node)
    requires |s.consumers| == 1
  {
    Holds(s.consumers[0]) && s.consumers[0].node == n
  }

  ghost predicate InUse(s: State, n: Node)
    requires |s.consumers| == 1
  {
    n in s.chain || PutHolds(s, n) || TakeHolds(s, n)
  }

  ghost predicate NothingLeaks(s: State) {
    |s.consumers| == 1 && forall n :: n in s.heap ==> InUse(s, n)
  }

  /** The producers are the same but for one, whose node changes hands or not. */
  lemma PutStillHolds(s: State, t: State, i: nat, n: Node)
    requires PutHolds(s, n) && i < |s.producers| == |t.producers|
    requires forall j :: 0 <= j < |s.producers| && j != i ==> t.producers[j] == s.producers[j]
    requires Private(s.producers[i]) && s.producers[i].node == n ==> Private(t.producers[i]) && t.producers[i].node == n
    ensures PutHolds(t, n)
  {
    var j :| 0 <= j < |s.producers| && Private(s.producers[j]) && s.producers[j].node == n;
    assert Private(t.producers[j]) && t.producers[j].node == n;
  }

  lemma PutLeaksNothing(s: State, a: Step)
    requires Inv(s) && NothingLeaks(s) && Enabled(s, a)
    requires a.Allocate? || a.LockPut? || a.StoreLast? || a.UnlockPut? || a.Signal?
    ensures NothingLeaks(Next(s, a))
  {
    var t := Next(s, a);
    forall n | n in t.heap ensures InUse(t, n) {
      if n in s.heap {
        if PutHolds(s, n) { PutStillHolds(s, t, a.i, n); }
      } else {
        assert Private(t.producers[a.i]) && t.producers[a.i].node == n;
      }
    }
  }

  lemma LinkLeaksNothing(s: State, i: nat)
    requires Inv(s) && NothingLeaks(s) && Enabled(s, Link(i))
    ensures NothingLeaks(Next(s, Link(i)))
  {
    LinkEffect(s, i);
    InvStep(s, Link(i));
    var t, m := Next(s, Link(i)), s.producers[i].node;
    assert t.chain == s.chain + [m];
    forall n | n in t.heap ensures InUse(t, n) {
      if n != m && PutHolds(s, n) { PutStillHolds(s, t, i, n); }
    }
  }

  lemma TakeLeaksNothing(s: State, a: Step)
    requires Inv(s) && NothingLeaks(s) && Enabled(s, a)
    requires a.Wait? || a.ReadFirst? || a.ReadElement? || a.LockTake? || a.ClearLast? || a.UnlockTake? || a.Free?
    ensures NothingLeaks(Next(s, a))
  {
    var t := Next(s, a);
    assert a.j == 0 && t.producers == s.producers && t.chain == s.chain;
    forall n | n in t.heap ensures InUse(t, n) {
      assert n in s.heap;
      if PutHolds(s, n) {
        var i :| 0 <= i < |s.producers| && Private(s.producers[i]) && s.producers[i].node == n;
        assert Private(t.producers[i]);
      }
    }
  }

  lemma CutLeaksNothing(s: State)
    requires Inv(s) && NothingLeaks(s) && Enabled(s, Cut(0))
    ensures NothingLeaks(Next(s, Cut(0)))
  {
    CutEffect(s);
    var t := Next(s, Cut(0));
    forall n | n in t.heap ensures InUse(t, n) {
      assert InUse(s, n);
      if n in s.chain {
        var k :| 0 <= k < |s.chain| && s.chain[k] == n;
        assert k > 0 ==> t.chain[k - 1] == n;
      } else {
        var i :| 0 <= i < |s.producers| && Private(s.producers[i]) && s.producers[i].node == n;
        assert Private(t.producers[i]);
      }
    }
  }

  lemma LeaksNothingStep(s: State, a: Step)
    requires Inv(s) && NothingLeaks(s) && Enabled(s, a)
    ensures NothingLeaks(Next(s, a))
  {
    if a.Link? {
      LinkLeaksNothing(s, a.i);
    } else if a.Cut? {
      CutLeaksNothing(s);
    } else if a.Allocate? || a.LockPut? || a.StoreLast? || a.UnlockPut? || a.Signal? {
      PutLeaksNothing(s, a);
    } else {
      TakeLeaksNothing(s, a);
    }
  }

  lemma {:induction false} LeaksNothingRun(s: State, run: seq<Step>)
    requires Inv(s) && NothingLeaks(s) && Valid(s, run)
    ensures Inv(Exec(s, run)) && NothingLeaks(Exec(s, run))
    decreases |run|
  {
    if run != [] {
      InvStep(s, run[0]);
      LeaksNothingStep(s, run[0]);
      LeaksNothingRun(Next(s, run[0]), run[1..]);
    }
  }

  /** Over every run the nodes in the heap are exactly those of the list, those of puts that have not
      linked theirs yet, and the one that a take has cut off and not freed. */
  lemma HeapIsInUse(producers: nat, run: seq<Step>)
    requires Valid(Init(producers, 1), run)
    ensures
      var s := Exec(Init(producers, 1), run);
      |s.consumers| == 1 && forall n :: n in s.heap <==> InUse(s, n)
  {
    InitInv(producers);
    LeaksNothingRun(Init(producers, 1), run);
    InUseIsThere(Exec(Init(producers, 1), run));
  }

  lemma InUseIsThere(s: State)
    requires Inv(s)
    ensures forall n :: InUse(s, n) ==> n in s.heap
  {
    forall n | InUse(s, n) ensures n in s.heap {
      if n in s.chain {
        var k :| 0 <= k < |s.chain| && s.chain[k] == n;
      } else if PutHolds(s, n) {
        var i :| 0 <= i < |s.producers| && Private(s.producers[i]) && s.producers[i].node == n;
      }
    }
  }

  /** So when nobody is inside an operation and the list is empty, so is the heap. */
  lemma NothingLeftOver(producers: nat, run: seq<Step>)
    requires Valid(Init(producers, 1), run)
    ensures
      var s := Exec(Init(producers, 1), run);
      (forall i :: 0 <= i < |s.producers| ==> s.producers[i].PIdle?) && s.consumers == [CIdle] && s.chain == [] ==>
        s.heap == map[]
  {
    HeapIsInUse(producers, run);
    var s := Exec(Init(producers, 1), run);
    if (forall i :: 0 <= i < |s.producers| ==> s.producers[i].PIdle?) && s.consumers == [CIdle] && s.chain == [] {
      forall n ensures n !in s.heap {
        assert !InUse(s, n);
      }
    }
  }

  // ---- a put links its own element ----

  /** The put of thread `i` is going to link `e`. */
  predicate Carries(s: State, i: nat, e: Element) {
    && i < |s.producers| && Private(s.producers[i])
    && s.producers[i].node in s.heap && s.heap[s.producers[i].node].element == e
  }

  lemma CarriesStep(s: State, a: Step, i: nat, e: Element)
    requires Inv(s) && Enabled(s, a) && Carries(s, i, e) && a != Link(i)
    ensures Carries(Next(s, a), i, e)
  {
    if a.Link? {
      LinkEffect(s, a.i);
    } else if a.Cut? {
      CutEffect(s);
    }
  }

  lemma {:induction false} CarriesRun(s: State, run: seq<Step>, i: nat, e: Element)
    requires Inv(s) && Valid(s, run) && Carries(s, i, e) && Link(i) !in run
    ensures Inv(Exec(s, run)) && Carries(Exec(s, run), i, e)
    decreases |run|
  {
    if run != [] {
      CarriesStep(s, run[0], i, e);
      InvStep(s, run[0]);
      assert forall a :: a in run[1..] ==> a in run;
      CarriesRun(Next(s, run[0]), run[1..], i, e);
    }
  }

  /** Whatever the other threads do between its steps, a put adds the element it was called with to the
      history when it links, and to the end of the list. */
  lemma PutsItsElement(producers: nat, before: seq<Step>, i: nat, e: Element, between: seq<Step>)
    requires Valid(Init(producers, 1), before) && Enabled(Exec(Init(producers, 1), before), Allocate(i, e))
    requires Valid(Next(Exec(Init(producers, 1), before), Allocate(i, e)), between) && Link(i) !in between
    requires Enabled(Exec(Next(Exec(Init(producers, 1), before), Allocate(i, e)), between), Link(i))
    ensures
      var s := Exec(Next(Exec(Init(producers, 1), before), Allocate(i, e)), between);
      var t := Next(s, Link(i));
      && t.history == s.history + [Put(e)] && |t.chain| == |s.chain| + 1
      && Last(t.chain) in t.heap && t.heap[Last(t.chain)].element == e
  {
    InitInv(producers);
    InvRun(Init(producers, 1), before);
    var s := Exec(Init(producers, 1), before);
    InvStep(s, Allocate(i, e));
    CarriesRun(Next(s, Allocate(i, e)), between, i, e);
    LinkEffect(Exec(Next(s, Allocate(i, e)), between), i);
  }

  // ---- nobody is stuck ----

  /** What thread `i` does next inside its put. */
  function PutStep(p: Producer, i: nat): Step
    requires !p.PIdle?
  {
    match p
    case PReady(_) => LockPut(i)
    case PLocked(_) => Link(i)
    case PLinked(_) => StoreLast(i)
    case PStored(_) => UnlockPut(i)
    case PUnlocked => Signal(i)
  }

  function TakeStep(c: Consumer, j: nat): Step
    requires !c.CIdle?
  {
    match c
    case CWaited => ReadFirst(j)
    case CFound(_) => ReadElement(j)
    case CLoaded(_, _) => LockTake(j)
    case CLocked(_, _) => Cut(j)
    case CCut(_, _, _) => ClearLast(j)
    case CStored(_, _) => UnlockTake(j)
    case CFree(_, _) => Free(j)
  }

  /** The holder of the mutex can go on. */
  ghost predicate HolderGoesOn(s: State) {
    match s.mutex
    case Some(Putter(i)) => i < |s.producers| && !s.producers[i].PIdle? && Enabled(s, PutStep(s.producers[i], i))
    case Some(Taker(j)) => j < |s.consumers| && !s.consumers[j].CIdle? && Enabled(s, TakeStep(s.consumers[j], j))
    case None => false
  }

  /** Thread `i` can do its next step of a put, or it waits for the mutex and the holder can go on. */
  ghost predicate PutGoesOn(s: State, i: nat)
    requires i < |s.producers|
  {
    if s.producers[i].PIdle? then forall e :: Enabled(s, Allocate(i, e))
    else Enabled(s, PutStep(s.producers[i], i)) || (s.producers[i].PReady? && HolderGoesOn(s))
  }

  ghost predicate TakeGoesOn(s: State)
    requires |s.consumers| == 1
  {
    if s.consumers[0].CIdle? then Enabled(s, Wait(0)) <==> s.semaphore > 0
    else Enabled(s, TakeStep(s.consumers[0], 0)) || (s.consumers[0].CLoaded? && HolderGoesOn(s))
  }

  /** In every reachable state a thread inside an operation can do its next step, or it waits for the mutex
      and the holder can; a thread outside can put at any time, and take exactly when there is a signal. */
  lemma NobodyIsStuck(producers: nat, run: seq<Step>)
    requires Valid(Init(producers, 1), run)
    ensures
      var s := Exec(Init(producers, 1), run);
      && (forall i :: 0 <= i < |s.producers| ==> PutGoesOn(s, i))
      && |s.consumers| == 1 && TakeGoesOn(s)
  {
    var s := Exec(Init(producers, 1), run);
    InitInv(producers);
    InvRun(Init(producers, 1), run);
    KnownHolderRun(Init(producers, 1), run);
    LockFreeOrHeld(s);
    TakesOn(s);
    forall i | 0 <= i < |s.producers| ensures PutGoesOn(s, i) {
      GoesOn(s, i);
    }
  }

  lemma TakesOn(s: State)
    requires Inv(s) && (s.mutex == None || HolderGoesOn(s))
    ensures !s.fault && |s.consumers| == 1 && TakeGoesOn(s)
  {
  }

  lemma GoesOn(s: State, i: nat)
    requires !s.fault && i < |s.producers| && (s.mutex == None || HolderGoesOn(s))
    ensures PutGoesOn(s, i)
  {
  }

  /** The mutex is held by a thread that exists. */
  predicate KnownHolder(s: State) {
    match s.mutex
    case Some(Putter(i)) => i < |s.producers|
    case Some(Taker(j)) => j < |s.consumers|
    case None => true
  }

  lemma {:induction false} KnownHolderRun(s: State, run: seq<Step>)
    requires KnownHolder(s) && Valid(s, run)
    ensures KnownHolder(Exec(s, run))
    decreases |run|
  {
    if run != [] {
      KnownHolderRun(Next(s, run[0]), run[1..]);
    }
  }

  lemma LockFreeOrHeld(s: State)
    requires Inv(s) && KnownHolder(s)
    ensures s.mutex == None || HolderGoesOn(s)
  {
    match s.mutex {
      case None =>
      case Some(Putter(i)) => assert Inside(s.producers[i]);
      case Some(Taker(j)) => assert j == 0;
    }
  }
}
