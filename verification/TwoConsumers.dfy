/** Why the queue needs a single consumer: two of them can answer the same element. With Linearizable this
    gives the exact condition: every history is one of a FIFO queue if and only if at most one consumer
    takes. */
module TwoConsumers {
  import opened Prelude
  import opened QueueInterleaving

  ghost predicate Reached(s: State) {
    exists run :: Valid(Init(1, 2), run) && Exec(Init(1, 2), run) == s
  }

  lemma {:induction false} ExecSnoc(s: State, run: seq<Step>, a: Step)
    requires Valid(s, run) && Enabled(Exec(s, run), a)
    ensures Valid(s, run + [a]) && Exec(s, run + [a]) == Next(Exec(s, run), a)
    decreases |run|
  {
    var longer := run + [a];
    if run == [] {
      assert longer[0] == a && longer[1..] == [];
      assert Valid(Next(s, a), longer[1..]) && Exec(Next(s, a), longer[1..]) == Next(s, a);
    } else {
      ExecSnoc(Next(s, run[0]), run[1..], a);
      assert longer[1..] == run[1..] + [a];
    }
  }

  lemma Play(s: State, a: Step, t: State)
    requires Reached(s) && Enabled(s, a) && Next(s, a) == t
    ensures Reached(t)
  {
    var run :| Valid(Init(1, 2), run) && Exec(Init(1, 2), run) == s;
    ExecSnoc(Init(1, 2), run, a);
  }

  const IDLE: seq<Consumer> := [CIdle, CIdle]

  /** Node `n` is linked, and the thread is about to store `last`. */
  function Linking(s: State, n: Node, e: Element): State {
    s.(heap := Linked(s, n, e), first := if s.first == None then Some(n) else s.first, nextNode := n + 1,
       mutex := Some(Putter(0)), producers := [PLinked(n)], chain := s.chain + [n], history := s.history + [Put(e)])
  }

  /** The steps of a put that runs alone: nodes 0 .. n - 1 are in the list before, node n after. */
  lemma PutAlone(s: State, n: nat, e: Element)
    requires Reached(s) && s.producers == [PIdle] && s.mutex == None && !s.fault && s.nextNode == n && n !in s.heap
    requires s.first == None || (s.last.Some? && s.last.value in s.heap && s.last.value != n)
    ensures Reached(Linking(s, n, e).(last := Some(n), mutex := None, producers := [PIdle], semaphore := s.semaphore + 1))
  {
    var s3 := Linking(s, n, e);
    var s4 := s3.(last := Some(n), producers := [PStored(n)]);
    var s5 := s4.(mutex := None, producers := [PUnlocked]);
    Links(s, n, e);
    Play(s3, StoreLast(0), s4);
    Play(s4, UnlockPut(0), s5);
    Play(s5, Signal(0), s5.(semaphore := s.semaphore + 1, producers := [PIdle]));
  }

  lemma Links(s: State, n: nat, e: Element)
    requires Reached(s) && s.producers == [PIdle] && s.mutex == None && !s.fault && s.nextNode == n && n !in s.heap
    requires s.first == None || (s.last.Some? && s.last.value in s.heap && s.last.value != n)
    ensures Reached(Linking(s, n, e))
  {
    var s1 := s.(heap := s.heap[n := Cell(e, None)], nextNode := n + 1, producers := [PReady(n)]);
    var s2 := s1.(mutex := Some(Putter(0)), producers := [PLocked(n)]);
    Play(s, Allocate(0, e), s1);
    Play(s1, LockPut(0), s2);
    Play(s2, Link(0), Linking(s, n, e));
  }

  /** The heap of `s` with node `n` holding `e` linked at the end. */
  function Linked(s: State, n: Node, e: Element): map<Node, Cell> {
    var heap := s.heap[n := Cell(e, None)];
    if s.first != None && s.last.Some? && s.last.value in heap then
      heap[s.last.value := heap[s.last.value].(next := Some(n))]
    else heap
  }

  /** Elements 1 and 2 are in the queue and nobody is inside an operation. */
  function Filled(): State {
    State(map[0 := Cell(1, Some(1)), 1 := Cell(2, None)], Some(0), Some(1), None, 2, [PIdle], IDLE, 2, false,
          [0, 1], [Put(1), Put(2)], [])
  }

  function FilledOnce(): State {
    State(map[0 := Cell(1, None)], Some(0), Some(0), None, 1, [PIdle], IDLE, 1, false, [0], [Put(1)], [])
  }

  lemma FilledOnceReached()
    ensures Reached(FilledOnce())
  {
    var s := Init(1, 2);
    assert s.producers == [PIdle] && s.consumers == IDLE;
    assert Valid(s, []) && Exec(s, []) == s;
    PutAlone(s, 0, 1);
    assert Linked(s, 0, 1) == FilledOnce().heap;
  }

  lemma FilledReached()
    ensures Reached(Filled())
  {
    var s := FilledOnce();
    FilledOnceReached();
    PutAlone(s, 1, 2);
    assert Linked(s, 1, 2) == Filled().heap;
    assert s.chain + [1] == Filled().chain && s.history + [Put(2)] == Filled().history;
  }

  /** Both consumers have read node 0. */
  lemma BothHaveRead()
    ensures Reached(Filled().(semaphore := 0, consumers := [CLoaded(0, 1), CLoaded(0, 1)]))
  {
    var s := Filled();
    var s1 := s.(semaphore := 1, consumers := [CWaited, CIdle]);
    var s2 := s.(semaphore := 0, consumers := [CWaited, CWaited]);
    var s3 := s2.(consumers := [CFound(0), CWaited]);
    var s4 := s2.(consumers := [CFound(0), CFound(0)]);
    var s5 := s2.(consumers := [CLoaded(0, 1), CFound(0)]);
    FilledReached();
    Play(s, Wait(0), s1);
    Play(s1, Wait(1), s2);
    Play(s2, ReadFirst(0), s3);
    Play(s3, ReadFirst(1), s4);
    Play(s4, ReadElement(0), s5);
    Play(s5, ReadElement(1), s2.(consumers := [CLoaded(0, 1), CLoaded(0, 1)]));
  }

  /** The first of them has cut node 0 off. */
  function TakenOnce(): State {
    Filled().(semaphore := 0, first := Some(1), chain := [1], history := [Put(1), Put(2), Take(1)],
              consumers := [CFree(0, 1), CLoaded(0, 1)])
  }

  lemma TakenOnceReached()
    ensures Reached(TakenOnce())
  {
    var s := Filled().(semaphore := 0, consumers := [CLoaded(0, 1), CLoaded(0, 1)]);
    var s1 := s.(mutex := Some(Taker(0)), consumers := [CLocked(0, 1), CLoaded(0, 1)]);
    var s2 := TakenOnce().(mutex := Some(Taker(0)), consumers := [CCut(0, 1, false), CLoaded(0, 1)]);
    var s3 := s2.(consumers := [CStored(0, 1), CLoaded(0, 1)]);
    BothHaveRead();
    Play(s, LockTake(0), s1);
    Play(s1, Cut(0), s2);
    Play(s2, ClearLast(0), s3);
    Play(s3, UnlockTake(0), TakenOnce());
  }

  /** The single consumer is needed: element 1, put once, is taken twice. */
  lemma TakenTwice()
    ensures exists s :: Reached(s) && s.history == [Put(1), Put(2), Take(1), Take(1)] && Replay(s.history) == None
  {
    var s := TakenOnce().(mutex := Some(Taker(1)), consumers := [CFree(0, 1), CLocked(0, 1)]);
    var t := s.(first := None, chain := [], history := [Put(1), Put(2), Take(1), Take(1)],
                consumers := [CFree(0, 1), CCut(0, 1, true)]);
    TakenOnceReached();
    Play(TakenOnce(), LockTake(1), s);
    Play(s, Cut(1), t);
    NotFifo();
  }

  lemma NotFifo()
    ensures Replay([Put(1), Put(2), Take(1), Take(1)]) == None
  {
    var h1, h2, h3 := [Put(1)], [Put(1), Put(2)], [Put(1), Put(2), Take(1)];
    assert Front(h1) == [] && Front(h2) == h1 && Front(h3) == h2 && Front([Put(1), Put(2), Take(1), Take(1)]) == h3;
    var empty: seq<Element> := [];
    assert empty + [1] == [1] && [1] + [2] == [1, 2] && [1, 2][1..] == [2];
    assert Replay(Front(h1)) == Some(empty) && Last(h1) == Put(1);
    assert Replay(h1) == Some([1]);
    assert Replay(h2) == Some([1, 2]);
    assert Replay(h3) == Some([2]);
  }

  // ---- the exact condition ----

  /** `s` with more threads, which do nothing. */
  function Widen(s: State, ps: seq<Producer>, cs: seq<Consumer>): State {
    s.(producers := s.producers + ps, consumers := s.consumers + cs)
  }

  lemma UpdatePrefix<T>(a: seq<T>, b: seq<T>, i: nat, x: T)
    requires i < |a|
    ensures (a + b)[i := x] == a[i := x] + b
  {
  }

  lemma WidenProducerStep(s: State, a: Step, ps: seq<Producer>, cs: seq<Consumer>)
    requires Enabled(s, a)
    requires a.Allocate? || a.LockPut? || a.Link? || a.StoreLast? || a.UnlockPut? || a.Signal?
    ensures Enabled(Widen(s, ps, cs), a) && Next(Widen(s, ps, cs), a) == Widen(Next(s, a), ps, cs)
  {
    UpdatePrefix(s.producers, ps, a.i, Next(s, a).producers[a.i]);
  }

  lemma WidenConsumerStep(s: State, a: Step, ps: seq<Producer>, cs: seq<Consumer>)
    requires Enabled(s, a)
    requires !(a.Allocate? || a.LockPut? || a.Link? || a.StoreLast? || a.UnlockPut? || a.Signal?)
    ensures Enabled(Widen(s, ps, cs), a) && Next(Widen(s, ps, cs), a) == Widen(Next(s, a), ps, cs)
  {
    UpdatePrefix(s.consumers, cs, a.j, Next(s, a).consumers[a.j]);
  }

  lemma {:induction false} WidenRun(s: State, run: seq<Step>, ps: seq<Producer>, cs: seq<Consumer>)
    requires Valid(s, run)
    ensures Valid(Widen(s, ps, cs), run) && Exec(Widen(s, ps, cs), run) == Widen(Exec(s, run), ps, cs)
    decreases |run|
  {
    if run != [] {
      var a := run[0];
      if a.Allocate? || a.LockPut? || a.Link? || a.StoreLast? || a.UnlockPut? || a.Signal? {
        WidenProducerStep(s, a, ps, cs);
      } else {
        WidenConsumerStep(s, a, ps, cs);
      }
      WidenRun(Next(s, a), run[1..], ps, cs);
    }
  }

  lemma WidenInit(p: nat, c: nat, p': nat, c': nat)
    requires p <= p' && c <= c'
    ensures Init(p', c') == Widen(Init(p, c), seq(p' - p, _ => PIdle), seq(c' - c, _ => CIdle))
  {
  }

  /** No fault, a FIFO history, and the answers are its takes in order, none of them NULL. */
  ghost predicate Fifo(s: State) {
    !s.fault && Replay(s.history) != None && s.answers <= Taken(s.history) && None !in s.answers
  }

  ghost predicate AlwaysFifo(producers: nat, consumers: nat) {
    forall run :: Valid(Init(producers, consumers), run) ==> Fifo(Exec(Init(producers, consumers), run))
  }

  lemma OneConsumerIsFifo(producers: nat)
    ensures AlwaysFifo(producers, 1)
  {
    forall run | Valid(Init(producers, 1), run) ensures Fifo(Exec(Init(producers, 1), run)) {
      Linearizable(producers, run);
    }
  }

  lemma NoConsumerIsFifo(producers: nat)
    ensures AlwaysFifo(producers, 0)
  {
    OneConsumerIsFifo(producers);
    var ps, cs := seq(producers - producers, _ => PIdle), seq(1, _ => CIdle);
    WidenInit(producers, 0, producers, 1);
    forall run | Valid(Init(producers, 0), run) ensures Fifo(Exec(Init(producers, 0), run)) {
      WidenRun(Init(producers, 0), run, ps, cs);
      assert Fifo(Exec(Init(producers, 1), run));
    }
  }

  lemma RunThatTakesTwice() returns (run: seq<Step>)
    ensures Valid(Init(1, 2), run) && Replay(Exec(Init(1, 2), run).history) == None
  {
    TakenTwice();
    var s :| Reached(s) && s.history == [Put(1), Put(2), Take(1), Take(1)] && Replay(s.history) == None;
    run :| Valid(Init(1, 2), run) && Exec(Init(1, 2), run) == s;
  }

  lemma TwoConsumersAreNot(producers: nat, consumers: nat)
    requires producers >= 1 && consumers >= 2
    ensures !AlwaysFifo(producers, consumers)
  {
    var run := RunThatTakesTwice();
    WidenInit(1, 2, producers, consumers);
    WidenRun(Init(1, 2), run, seq(producers - 1, _ => PIdle), seq(consumers - 2, _ => CIdle));
    assert !Fifo(Exec(Init(producers, consumers), run));
  }

  /** The queue is linearizable in every interleaving if and only if at most one thread takes. */
  lemma FifoIff(producers: nat, consumers: nat)
    requires producers >= 1
    ensures AlwaysFifo(producers, consumers) <==> consumers <= 1
  {
    if consumers == 0 {
      NoConsumerIsFifo(producers);
    } else if consumers == 1 {
      OneConsumerIsFifo(producers);
    } else {
      TwoConsumersAreNot(producers, consumers);
    }
  }
}
