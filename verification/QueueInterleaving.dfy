/** The thread-safe queue under interleaving: any number of producers, every shared access a step.

    `take` reads `first` and the element of its node before it locks, so it can run in the middle of
    a `put`. Nodes live in a heap: an access to a node that has been freed, or through a NULL link,
    is a fault. */
module QueueInterleaving {
  import opened Prelude

  type Element = int
  type Node = nat

  datatype Cell = Cell(element: Element, next: Option<Node>)

  /** Where a producer is inside `threadsafe_queue_put`. */
  datatype Producer =
    | PIdle
    | PReady(node: Node)    // the node is filled in
    | PLocked(node: Node)   // inside the mutex
    | PLinked(node: Node)   // `first` or `last->next` written
    | PStored(node: Node)   // `last` written
    | PUnlocked             // outside the mutex, the semaphore not signalled yet

  /** Where a consumer is inside `threadsafe_queue_take`. */
  datatype Consumer =
    | CIdle
    | CWaited                                           // past the wait
    | CFound(node: Node)                                // `first` read
    | CLoaded(node: Node, element: Element)             // `node->element` read
    | CLocked(node: Node, element: Element)             // inside the mutex
    | CCut(node: Node, element: Element, only: bool)    // `first` written; `last` is to be cleared if only
    | CStored(node: Node, element: Element)             // `last` written
    | CFree(node: Node, element: Element)               // outside the mutex

  datatype Thread = Putter(i: nat) | Taker(j: nat)

  datatype Event = Put(e: Element) | Take(e: Element)

  datatype State = State(
    heap: map<Node, Cell>, first: Option<Node>, last: Option<Node>,
    mutex: Option<Thread>, semaphore: nat,
    producers: seq<Producer>, consumers: seq<Consumer>,
    nextNode: Node, fault: bool,
    chain: seq<Node>,              // history: the nodes linked and not cut, in order
    history: seq<Event>,           // history: puts when they link, takes when they cut
    answers: seq<Option<Element>>  // history: what takes answered, None for NULL
  )

  datatype Step =
    | Allocate(i: nat, e: Element) | LockPut(i: nat) | Link(i: nat) | StoreLast(i: nat) | UnlockPut(i: nat) | Signal(i: nat)
    | Wait(j: nat) | ReadFirst(j: nat) | ReadElement(j: nat) | LockTake(j: nat) | Cut(j: nat) | ClearLast(j: nat)
    | UnlockTake(j: nat) | Free(j: nat)

  function Init(producers: nat, consumers: nat): State {
    State(map[], None, None, None, 0, seq(producers, _ => PIdle), seq(consumers, _ => CIdle), 0, false, [], [], [])
  }

  predicate IsProducer(s: State, i: nat) { i < |s.producers| }
  predicate IsConsumer(s: State, j: nat) { j < |s.consumers| }

  /** A platform wait ends only when there is a signal; a lock is taken only when it is free. */
  predicate Enabled(s: State, a: Step) {
    !s.fault &&
    match a
    case Allocate(i, _) => IsProducer(s, i) && s.producers[i].PIdle?
    case LockPut(i) => IsProducer(s, i) && s.producers[i].PReady? && s.mutex == None
    case Link(i) => IsProducer(s, i) && s.producers[i].PLocked?
    case StoreLast(i) => IsProducer(s, i) && s.producers[i].PLinked?
    case UnlockPut(i) => IsProducer(s, i) && s.producers[i].PStored?
    case Signal(i) => IsProducer(s, i) && s.producers[i].PUnlocked?
    case Wait(j) => IsConsumer(s, j) && s.consumers[j].CIdle? && s.semaphore > 0
    case ReadFirst(j) => IsConsumer(s, j) && s.consumers[j].CWaited?
    case ReadElement(j) => IsConsumer(s, j) && s.consumers[j].CFound?
    case LockTake(j) => IsConsumer(s, j) && s.consumers[j].CLoaded? && s.mutex == None
    case Cut(j) => IsConsumer(s, j) && s.consumers[j].CLocked?
    case ClearLast(j) => IsConsumer(s, j) && s.consumers[j].CCut?
    case UnlockTake(j) => IsConsumer(s, j) && s.consumers[j].CStored?
    case Free(j) => IsConsumer(s, j) && s.consumers[j].CFree?
  }

  function Next(s: State, a: Step): State
    requires Enabled(s, a)
  {
    match a
    case Allocate(i, e) =>
      s.(heap := s.heap[s.nextNode := Cell(e, None)], nextNode := s.nextNode + 1,
         producers := s.producers[i := PReady(s.nextNode)])
    case LockPut(i) =>
      s.(mutex := Some(Putter(i)), producers := s.producers[i := PLocked(s.producers[i].node)])
    case Link(i) =>
      var n := s.producers[i].node;
      if n !in s.heap then s.(fault := true) else
      var linked := s.(chain := s.chain + [n], history := s.history + [Put(s.heap[n].element)],
                       producers := s.producers[i := PLinked(n)]);
      if s.first == None then linked.(first := Some(n))
      else if s.last == None || s.last.value !in s.heap then s.(fault := true)
      else linked.(heap := s.heap[s.last.value := s.heap[s.last.value].(next := Some(n))])
    case StoreLast(i) =>
      s.(last := Some(s.producers[i].node), producers := s.producers[i := PStored(s.producers[i].node)])
    case UnlockPut(i) => s.(mutex := None, producers := s.producers[i := PUnlocked])
    case Signal(i) => s.(semaphore := s.semaphore + 1, producers := s.producers[i := PIdle])
    case Wait(j) => s.(semaphore := s.semaphore - 1, consumers := s.consumers[j := CWaited])
    case ReadFirst(j) =>
      if s.first == None then s.(answers := s.answers + [None], consumers := s.consumers[j := CIdle])
      else s.(consumers := s.consumers[j := CFound(s.first.value)])
    case ReadElement(j) =>
      var n := s.consumers[j].node;
      if n !in s.heap then s.(fault := true)
      else s.(consumers := s.consumers[j := CLoaded(n, s.heap[n].element)])
    case LockTake(j) =>
      s.(mutex := Some(Taker(j)), consumers := s.consumers[j := CLocked(s.consumers[j].node, s.consumers[j].element)])
    case Cut(j) =>
      var n, e := s.consumers[j].node, s.consumers[j].element;
      var cut := s.(chain := if s.chain == [] then [] else s.chain[1..], history := s.history + [Take(e)],
                    consumers := s.consumers[j := CCut(n, e, s.first == s.last)]);
      if s.first == s.last then cut.(first := None)
      else if n !in s.heap then s.(fault := true)
      else cut.(first := s.heap[n].next)
    case ClearLast(j) =>
      var c := s.consumers[j];
      s.(last := if c.only then None else s.last, consumers := s.consumers[j := CStored(c.node, c.element)])
    case UnlockTake(j) =>
      s.(mutex := None, consumers := s.consumers[j := CFree(s.consumers[j].node, s.consumers[j].element)])
    case Free(j) =>
      var n, e := s.consumers[j].node, s.consumers[j].element;
      if n !in s.heap then s.(fault := true)
      else s.(heap := s.heap - {n}, answers := s.answers + [Some(e)], consumers := s.consumers[j := CIdle])
  }

  predicate Valid(s: State, run: seq<Step>)
    decreases |run|
  {
    run == [] || (Enabled(s, run[0]) && Valid(Next(s, run[0]), run[1..]))
  }

  function Exec(s: State, run: seq<Step>): State
    requires Valid(s, run)
    decreases |run|
  {
    if run == [] then s else Exec(Next(s, run[0]), run[1..])
  }

  // ---- the sequential queue ----

  /** The contents of a FIFO queue after `h`, or None when some take is not what the queue answers. */
  function Replay(h: seq<Event>): Option<seq<Element>> {
    if h == [] then Some([])
    else
      var before := Replay(Front(h));
      match before
      case None => None
      case Some(q) =>
        match Last(h)
        case Put(e) => Some(q + [e])
        case Take(e) => if q != [] && q[0] == e then Some(q[1..]) else None
  }

  /** The elements taken in `h`, as answers. */
  function Taken(h: seq<Event>): seq<Option<Element>> {
    if h == [] then [] else Taken(Front(h)) + if Last(h).Take? then [Some(Last(h).e)] else []
  }

  lemma ReplaySnoc(h: seq<Event>, e: Event)
    ensures Front(h + [e]) == h && Last(h + [e]) == e
  {
  }

  // ---- the invariant, for one consumer ----

  predicate Inside(p: Producer) {
    p.PLocked? || p.PLinked? || p.PStored?
  }

  /** The producer's node is not in the list yet. */
  predicate Private(p: Producer) {
    p.PReady? || p.PLocked?
  }

  predicate InsideTake(c: Consumer) {
    c.CLocked? || c.CCut? || c.CStored?
  }

  /** The consumer has consumed a signal and its node is still in the list. */
  predicate Claims(c: Consumer) {
    c.CWaited? || c.CFound? || c.CLoaded? || c.CLocked?
  }

  /** The consumer owns a node that is not in the list any more. */
  predicate Holds(c: Consumer) {
    c.CCut? || c.CStored? || c.CFree?
  }

  /** Linked, but the semaphore does not know yet. */
  predicate Unsignalled(p: Producer) {
    p.PLinked? || p.PStored? || p.PUnlocked?
  }

  function CountUnsignalled(producers: seq<Producer>): nat {
    if producers == [] then 0
    else CountUnsignalled(Front(producers)) + if Unsignalled(Last(producers)) then 1 else 0
  }

  lemma {:induction false} CountUpdate(producers: seq<Producer>, i: nat, p: Producer)
    requires i < |producers|
    ensures CountUnsignalled(producers[i := p]) + (if Unsignalled(producers[i]) then 1 else 0)
      == CountUnsignalled(producers) + if Unsignalled(p) then 1 else 0
    decreases |producers|
  {
    var u := producers[i := p];
    if i == |producers| - 1 {
      assert Front(u) == Front(producers);
    } else {
      CountUpdate(Front(producers), i, p);
      assert Front(u) == Front(producers)[i := p];
    }
  }

  ghost predicate Exclusion(s: State)
    requires |s.consumers| == 1
  {
    && (forall i :: 0 <= i < |s.producers| ==> (Inside(s.producers[i]) <==> s.mutex == Some(Putter(i))))
    && (InsideTake(s.consumers[0]) <==> s.mutex == Some(Taker(0)))
  }

  /** The heap list from `first` is the chain. */
  ghost predicate Listed(s: State) {
    && NoDup(s.chain)
    && (forall k :: 0 <= k < |s.chain| ==> s.chain[k] in s.heap)
    && (forall k :: 0 <= k < |s.chain| - 1 ==> s.heap[s.chain[k]].next == Some(s.chain[k + 1]))
    && (s.chain != [] ==> s.heap[Last(s.chain)].next == None)
    && s.first == (if s.chain == [] then None else Some(s.chain[0]))
    && (forall n :: n in s.heap ==> n < s.nextNode)
  }

  ghost predicate LastKnown(s: State)
    requires |s.consumers| == 1
  {
    || (exists i :: 0 <= i < |s.producers| && s.producers[i].PLinked?)
    || (s.consumers[0].CCut? && s.consumers[0].only)
    || s.last == (if s.chain == [] then None else Some(Last(s.chain)))
  }

  ghost predicate Owned(s: State)
    requires |s.consumers| == 1
  {
    && (forall i :: 0 <= i < |s.producers| && Private(s.producers[i]) ==>
          s.producers[i].node in s.heap && s.heap[s.producers[i].node].next == None && s.producers[i].node !in s.chain)
    && (forall i, j :: 0 <= i < j < |s.producers| && Private(s.producers[i]) && Private(s.producers[j]) ==>
          s.producers[i].node != s.producers[j].node)
    && (forall i :: 0 <= i < |s.producers| && (s.producers[i].PLinked? || s.producers[i].PStored?) ==>
          s.chain != [] && s.producers[i].node == Last(s.chain))
  }

  ghost predicate ConsumerKnows(s: State)
    requires |s.consumers| == 1
  {
    var c := s.consumers[0];
    && (Claims(c) && !c.CWaited? ==> s.chain != [] && c.node == s.chain[0] && c.node in s.heap)
    && (c.CLoaded? || c.CLocked? ==> s.heap[c.node].element == c.element)
    && (Holds(c) ==> c.node in s.heap && c.node !in s.chain)
    && (Holds(c) ==> forall i :: 0 <= i < |s.producers| && Private(s.producers[i]) ==> s.producers[i].node != c.node)
    && (c.CCut? && c.only ==> s.chain == [])
  }

  /** List length = signals + linked and not signalled + consumed and not cut. */
  ghost predicate Accounted(s: State)
    requires |s.consumers| == 1
  {
    |s.chain| == s.semaphore + CountUnsignalled(s.producers) + if Claims(s.consumers[0]) then 1 else 0
  }

  /** The elements of the nodes of `chain`. */
  function Elements(heap: map<Node, Cell>, chain: seq<Node>): (q: seq<Element>)
    requires forall k :: 0 <= k < |chain| ==> chain[k] in heap
    ensures |q| == |chain| && forall k :: 0 <= k < |q| ==> q[k] == heap[chain[k]].element
  {
    seq(|chain|, k requires 0 <= k < |chain| => heap[chain[k]].element)
  }

  ghost predicate Recorded(s: State)
    requires |s.consumers| == 1 && Listed(s)
  {
    && Replay(s.history) == Some(Elements(s.heap, s.chain))
    && Taken(s.history) == s.answers + if Holds(s.consumers[0]) then [Some(s.consumers[0].element)] else []
  }

  ghost predicate Inv(s: State) {
    && |s.consumers| == 1 && !s.fault
    && Exclusion(s) && Listed(s) && LastKnown(s) && Owned(s) && ConsumerKnows(s) && Accounted(s) && Recorded(s)
  }

  // ---- every step keeps the invariant ----

  /** Steps of a producer that touch neither the list nor the heap. */
  lemma ProducerLocalStep(s: State, a: Step)
    requires Inv(s) && Enabled(s, a) && (a.LockPut? || a.UnlockPut?)
    ensures Inv(Next(s, a))
  {
    var t := Next(s, a);
    CountUpdate(s.producers, a.i, t.producers[a.i]);
    LinkedStays(s, t, a.i);
  }

  lemma SignalStep(s: State, i: nat)
    requires Inv(s) && Enabled(s, Signal(i))
    ensures Inv(Next(s, Signal(i)))
  {
    var t := Next(s, Signal(i));
    CountUpdate(s.producers, i, t.producers[i]);
    LinkedStays(s, t, i);
  }

  /** A producer outside the two writes of `put` does not matter to `last`. */
  lemma LinkedStays(s: State, t: State, i: nat)
    requires |s.consumers| == |t.consumers| == 1 && i < |s.producers| == |t.producers| && !s.producers[i].PLinked?
    requires t.producers == s.producers[i := t.producers[i]]
    requires t.consumers == s.consumers && t.last == s.last && t.chain == s.chain && LastKnown(s)
    ensures LastKnown(t)
  {
    if k :| 0 <= k < |s.producers| && s.producers[k].PLinked? {
      assert t.producers[k].PLinked?;
    }
  }

  lemma StoreLastStep(s: State, i: nat)
    requires Inv(s) && Enabled(s, StoreLast(i))
    ensures Inv(Next(s, StoreLast(i)))
  {
    CountUpdate(s.producers, i, Next(s, StoreLast(i)).producers[i]);
  }

  lemma AllocateStep(s: State, i: nat, e: Element)
    requires Inv(s) && Enabled(s, Allocate(i, e))
    ensures Inv(Next(s, Allocate(i, e)))
  {
    var t := Next(s, Allocate(i, e));
    CountUpdate(s.producers, i, t.producers[i]);
    assert s.nextNode !in s.heap;
    assert Elements(t.heap, t.chain) == Elements(s.heap, s.chain);
    LinkedStays(s, t, i);
  }

  /** What linking a node does to the fields. */
  lemma LinkEffect(s: State, i: nat)
    requires Inv(s) && Enabled(s, Link(i))
    ensures
      var t, n := Next(s, Link(i)), s.producers[i].node;
      && n in s.heap && n !in s.chain && s.heap[n].next == None && !t.fault
      && t.chain == s.chain + [n] && t.producers == s.producers[i := PLinked(n)]
      && t.heap == (if s.chain == [] then s.heap else s.heap[Last(s.chain) := s.heap[Last(s.chain)].(next := Some(n))])
      && t.first == (if s.chain == [] then Some(n) else s.first)
      && t.history == s.history + [Put(s.heap[n].element)]
      && t.consumers == s.consumers && t.mutex == s.mutex && t.semaphore == s.semaphore
      && t.answers == s.answers && t.nextNode == s.nextNode
  {
    assert s.last == if s.chain == [] then None else Some(Last(s.chain));
  }

  lemma LinkListed(s: State, i: nat)
    requires Inv(s) && Enabled(s, Link(i))
    ensures Listed(Next(s, Link(i))) && Recorded(Next(s, Link(i)))
  {
    LinkEffect(s, i);
    var t, n := Next(s, Link(i)), s.producers[i].node;
    assert Elements(t.heap, t.chain) == Elements(s.heap, s.chain) + [s.heap[n].element];
    ReplaySnoc(s.history, Put(s.heap[n].element));
  }

  lemma LinkOwned(s: State, i: nat)
    requires Inv(s) && Enabled(s, Link(i))
    ensures Owned(Next(s, Link(i))) && ConsumerKnows(Next(s, Link(i)))
  {
    LinkEffect(s, i);
    var t := Next(s, Link(i));
    forall k | 0 <= k < |s.producers| && k != i ensures !Inside(t.producers[k]) {
      assert s.mutex == Some(Putter(i));
    }
  }

  lemma LinkStep(s: State, i: nat)
    requires Inv(s) && Enabled(s, Link(i))
    ensures Inv(Next(s, Link(i)))
  {
    LinkEffect(s, i);
    LinkListed(s, i);
    LinkOwned(s, i);
    var t, n := Next(s, Link(i)), s.producers[i].node;
    CountUpdate(s.producers, i, PLinked(n));
    assert t.producers[i].PLinked?;
  }

  /** Steps of the consumer that touch neither the list nor the heap. */
  lemma ConsumerLocalStep(s: State, a: Step)
    requires Inv(s) && Enabled(s, a)
    requires a.Wait? || a.ReadFirst? || a.ReadElement?
    ensures Inv(Next(s, a))
  {
    var t := Next(s, a);
    assert a.j == 0;
    assert t.chain == s.chain && t.history == s.history && t.heap == s.heap;
  }

  lemma ConsumerLockStep(s: State, a: Step)
    requires Inv(s) && Enabled(s, a)
    requires a.LockTake? || a.ClearLast? || a.UnlockTake?
    ensures Inv(Next(s, a))
  {
    var t := Next(s, a);
    assert a.j == 0;
    assert t.chain == s.chain && t.history == s.history && t.heap == s.heap;
  }

  lemma CutStep(s: State)
    requires Inv(s) && Enabled(s, Cut(0))
    ensures Inv(Next(s, Cut(0)))
  {
    CutEffect(s);
    CutListed(s, Next(s, Cut(0)));
    CutOwned(s, Next(s, Cut(0)));
    CutRecorded(s, Next(s, Cut(0)));
  }

  /** The first node is off the list. */
  ghost predicate IsCut(s: State, t: State)
    requires |s.consumers| == 1
  {
    var c := s.consumers[0];
    && c.CLocked? && s.chain != [] && c.node == s.chain[0] && t.chain == s.chain[1..] && t.heap == s.heap && !t.fault
    && t.first == (if |s.chain| == 1 then None else Some(s.chain[1])) && t.last == s.last == Some(Last(s.chain))
    && t.consumers == [CCut(c.node, c.element, |s.chain| == 1)] && t.history == s.history + [Take(c.element)]
    && t.producers == s.producers && t.mutex == s.mutex && t.semaphore == s.semaphore && t.nextNode == s.nextNode
    && t.answers == s.answers
  }

  lemma CutEffect(s: State)
    requires Inv(s) && Enabled(s, Cut(0))
    ensures IsCut(s, Next(s, Cut(0)))
  {
    assert s.last == Some(Last(s.chain));
    assert s.first == s.last <==> |s.chain| == 1;
  }

  lemma CutListed(s: State, t: State)
    requires |s.consumers| == 1 && Listed(s) && IsCut(s, t)
    ensures Listed(t) && LastKnown(t)
  {
  }

  lemma CutOwned(s: State, t: State)
    requires |s.consumers| == 1 && IsCut(s, t) && Exclusion(s) && Listed(s) && Owned(s) && ConsumerKnows(s) && Accounted(s)
    ensures Exclusion(t) && Owned(t) && ConsumerKnows(t) && Accounted(t)
  {
  }

  lemma CutRecorded(s: State, t: State)
    requires |s.consumers| == 1 && IsCut(s, t) && Listed(s) && Listed(t) && ConsumerKnows(s) && Recorded(s)
    ensures Recorded(t)
  {
    assert Elements(t.heap, t.chain) == Elements(s.heap, s.chain)[1..];
    ReplaySnoc(s.history, Take(s.consumers[0].element));
  }

  lemma FreeStep(s: State)
    requires Inv(s) && Enabled(s, Free(0))
    ensures Inv(Next(s, Free(0)))
  {
    var t := Next(s, Free(0));
    assert Elements(t.heap, t.chain) == Elements(s.heap, s.chain);
  }

  lemma InvStep(s: State, a: Step)
    requires Inv(s) && Enabled(s, a)
    ensures Inv(Next(s, a))
  {
    match a
    case Allocate(i, e) => AllocateStep(s, i, e);
    case Link(i) => LinkStep(s, i);
    case Cut(_) => CutStep(s);
    case Free(_) => FreeStep(s);
    case LockPut(_) => ProducerLocalStep(s, a);
    case StoreLast(i) => StoreLastStep(s, i);
    case UnlockPut(_) => ProducerLocalStep(s, a);
    case Signal(i) => SignalStep(s, i);
    case LockTake(_) => ConsumerLockStep(s, a);
    case ClearLast(_) => ConsumerLockStep(s, a);
    case UnlockTake(_) => ConsumerLockStep(s, a);
    case _ => ConsumerLocalStep(s, a);
  }

  lemma {:induction false} InvRun(s: State, run: seq<Step>)
    requires Inv(s) && Valid(s, run)
    ensures Inv(Exec(s, run))
    decreases |run|
  {
    if run != [] {
      InvStep(s, run[0]);
      InvRun(Next(s, run[0]), run[1..]);
    }
  }

  lemma InitInv(producers: nat)
    ensures Inv(Init(producers, 1))
  {
    AllIdle(producers);
  }

  lemma {:induction false} AllIdle(n: nat)
    ensures CountUnsignalled(seq(n, _ => PIdle)) == 0
  {
    if n > 0 {
      AllIdle(n - 1);
      assert Front(seq(n, _ => PIdle)) == seq(n - 1, _ => PIdle);
    }
  }

  // ---- the main results ----

  /** With one consumer, whatever the interleaving: no fault, the history of puts and takes is one of
      a FIFO queue whose contents are the list, and the answers are its takes, in order, none of them
      NULL. */
  lemma Linearizable(producers: nat, run: seq<Step>)
    requires Valid(Init(producers, 1), run)
    ensures
      var s := Exec(Init(producers, 1), run);
      && !s.fault && Listed(s)
      && Replay(s.history) == Some(Elements(s.heap, s.chain))
      && s.answers <= Taken(s.history)
      && (forall k :: 0 <= k < |s.answers| ==> s.answers[k].Some?)
  {
    InitInv(producers);
    InvRun(Init(producers, 1), run);
    TakenAreElements(Exec(Init(producers, 1), run).history);
  }

  lemma {:induction false} TakenAreElements(h: seq<Event>)
    ensures forall k :: 0 <= k < |Taken(h)| ==> Taken(h)[k].Some?
    decreases |h|
  {
    if h != [] { TakenAreElements(Front(h)); }
  }

  /** Semaphore accounting: signals, plus puts not signalled yet, plus a take past its wait, are
      exactly the nodes of the list; a take past its wait never finds the list empty. */
  lemma SignalsAreNodes(producers: nat, run: seq<Step>)
    requires Valid(Init(producers, 1), run)
    ensures
      var s := Exec(Init(producers, 1), run);
      && |s.consumers| == 1
      && |s.chain| == s.semaphore + CountUnsignalled(s.producers) + (if Claims(s.consumers[0]) then 1 else 0)
      && (Claims(s.consumers[0]) ==> s.first != None)
  {
    InitInv(producers);
    InvRun(Init(producers, 1), run);
  }
}
