/** What the pool guarantees to its clients over any run of takes and returns. */
module PoolLending {
  import opened Prelude
  import opened Pool
  import Protocol

  type Client = Protocol.Process

  /** The pool, who holds what, and the largest number of elements ever held at once. */
  datatype Ledger = Ledger(pool: PoolState, held: map<Item, Client>, peak: nat)

  datatype Op = Take(c: Client) | Give(c: Client, x: Item)

  function Open(initialSize: nat): Ledger {
    Ledger(New(initialSize), map[], 0)
  }

  function Max(a: int, b: int): int {
    if a < b then b else a
  }

  /** Clients return only what they hold. */
  predicate Allowed(l: Ledger, op: Op) {
    l.pool.pointer >= 1 &&
    match op
    case Take(_) => true
    case Give(c, x) => x in l.held && l.held[x] == c && l.pool.pointer <= |l.pool.elements| + 1
  }

  function Apply(l: Ledger, op: Op): Ledger
    requires Allowed(l, op)
  {
    match op
    case Take(c) =>
      var (pool, answer) := Taken(l.pool);
      if answer.Lent? && answer.slot.Some? then
        var held := l.held[answer.slot.value := c];
        Ledger(pool, held, Max(l.peak, |held|))
      else l.(pool := pool)
    case Give(_, x) => l.(pool := GivenBack(l.pool, x), held := l.held - {x})
  }

  predicate Run(l: Ledger, ops: seq<Op>)
    decreases |ops|
  {
    ops == [] || (Allowed(l, ops[0]) && Run(Apply(l, ops[0]), ops[1..]))
  }

  function After(l: Ledger, ops: seq<Op>): Ledger
    requires Run(l, ops)
    decreases |ops|
  {
    if ops == [] then l else After(Apply(l, ops[0]), ops[1..])
  }

  /** Slots before the cursor are nil, the others are not. */
  ghost predicate CursorSplits(p: PoolState) {
    && 1 <= p.pointer <= |p.elements| + 1
    && forall k :: 0 <= k < |p.elements| ==> (p.elements[k] == None <==> k < p.pointer - 1)
  }

  /** Every element ever provided is in exactly one place: a slot of the pool or one client. */
  ghost predicate Conserved(l: Ledger) {
    && (forall x :: x in l.held ==> x < l.pool.provided && Some(x) !in l.pool.elements)
    && (forall k :: 0 <= k < |l.pool.elements| && l.pool.elements[k].Some? ==> l.pool.elements[k].value < l.pool.provided)
    && (forall j, k :: 0 <= j < k < |l.pool.elements| && l.pool.elements[j].Some? ==> l.pool.elements[j] != l.pool.elements[k])
    && (forall x :: 0 <= x < l.pool.provided ==> x in l.held || Some(x) in l.pool.elements)
  }

  ghost predicate SizeBounded(l: Ledger) {
    && |l.held| == l.pool.pointer - 1 && |l.held| <= l.peak
    && l.pool.initialSize <= |l.pool.elements| == l.pool.provided
    && |l.pool.elements| <= Max(l.pool.initialSize, l.peak + GrowRate(l.pool) - 1)
  }

  ghost predicate Sound(l: Ledger) {
    l.pool.initialSize >= 2 && CursorSplits(l.pool) && Conserved(l) && SizeBounded(l)
  }

  lemma OpenSound(initialSize: nat)
    requires initialSize >= 2
    ensures Sound(Open(initialSize))
  {
    var p := New(initialSize);
    forall x | 0 <= x < p.provided ensures Some(x) in p.elements {
      assert p.elements[x] == Some(x);
    }
  }

  /** Growing keeps everything except that the cursor may now be in bounds. */
  lemma GrowConserves(l: Ledger, n: nat)
    requires Conserved(l) && CursorSplits(l.pool)
    ensures Conserved(l.(pool := GrownBy(l.pool, n))) && CursorSplits(GrownBy(l.pool, n))
  {
    var p, g := l.pool, GrownBy(l.pool, n);
    forall x | 0 <= x < g.provided ensures x in l.held || Some(x) in g.elements {
      if x < p.provided {
        assert x in l.held || Some(x) in p.elements;
      } else {
        assert g.elements[|p.elements| + (x - p.provided)] == Some(x);
      }
    }
  }

  /** A take lends an element that nobody holds, and nobody else can get it. */
  lemma TakeFromCursor(l: Ledger, c: Client)
    requires Conserved(l) && CursorSplits(l.pool) && l.pool.pointer <= |l.pool.elements|
    ensures var (pool, answer) := Taken(l.pool);
      && answer.Lent? && answer.slot.Some? && answer.slot.value !in l.held
      && CursorSplits(pool) && Conserved(Ledger(pool, l.held[answer.slot.value := c], l.peak))
  {
    var (pool, answer) := Taken(l.pool);
    var i := l.pool.pointer - 1;
    assert l.pool.elements[i] in l.pool.elements;
    var x := l.pool.elements[i].value;
    forall y | 0 <= y < pool.provided && y != x && y !in l.held ensures Some(y) in pool.elements {
      var k :| 0 <= k < |l.pool.elements| && l.pool.elements[k] == Some(y);
      assert pool.elements[k] == Some(y);
    }
  }

  lemma TakeSound(l: Ledger, c: Client)
    requires Sound(l)
    ensures Sound(Apply(l, Take(c)))
    ensures Taken(l.pool).1.Lent? && Taken(l.pool).1.slot.Some? && Taken(l.pool).1.slot.value !in l.held
  {
    if Overflown(l.pool) {
      var g := GrownBy(l.pool, GrowRate(l.pool));
      GrowConserves(l, GrowRate(l.pool));
      assert Taken(g) == Taken(l.pool);
      TakeFromCursor(l.(pool := g), c);
    } else {
      TakeFromCursor(l, c);
    }
  }

  lemma GiveSound(l: Ledger, c: Client, x: Item)
    requires Sound(l) && Allowed(l, Give(c, x))
    ensures Sound(Apply(l, Give(c, x)))
  {
    var t := Apply(l, Give(c, x));
    assert l.held.Keys == t.held.Keys + {x};
    assert |l.held.Keys| == |t.held.Keys| + 1;
    var i := l.pool.pointer - 2;
    assert t.pool.elements[i] == Some(x);
    forall y | 0 <= y < t.pool.provided && y !in t.held ensures Some(y) in t.pool.elements {
      if y != x {
        var k :| 0 <= k < |l.pool.elements| && l.pool.elements[k] == Some(y);
        assert t.pool.elements[k] == Some(y);
      }
    }
  }

  lemma {:induction false} RunSound(l: Ledger, ops: seq<Op>)
    requires Sound(l) && Run(l, ops)
    ensures Sound(After(l, ops)) && After(l, ops).pool.initialSize == l.pool.initialSize
    ensures |After(l, ops).pool.elements| >= |l.pool.elements|
    decreases |ops|
  {
    if ops != [] {
      match ops[0] {
        case Take(c) => TakeSound(l, c);
        case Give(c, x) => GiveSound(l, c, x);
      }
      RunSound(Apply(l, ops[0]), ops[1..]);
    }
  }

  /** Conservation: the cursor splits the array, every provided element is in exactly one place, and
      the next take lends one that nobody holds. */
  lemma NothingIsLentTwice(initialSize: nat, ops: seq<Op>)
    requires initialSize >= 2 && Run(Open(initialSize), ops)
    ensures var l := After(Open(initialSize), ops);
      && CursorSplits(l.pool) && Conserved(l)
      && Taken(l.pool).1.Lent? && Taken(l.pool).1.slot.Some? && Taken(l.pool).1.slot.value !in l.held
  {
    OpenSound(initialSize);
    RunSound(Open(initialSize), ops);
    TakeSound(After(Open(initialSize), ops), Protocol.Green(0));
  }

  /** The array never shrinks, and grows no further than the demand asks for. */
  lemma SizeFollowsDemand(initialSize: nat, ops: seq<Op>)
    requires initialSize >= 2 && Run(Open(initialSize), ops)
    ensures var l := After(Open(initialSize), ops);
      initialSize <= |l.pool.elements| <= Max(initialSize, l.peak + initialSize / 2 - 1)
  {
    OpenSound(initialSize);
    RunSound(Open(initialSize), ops);
    SizeOf(After(Open(initialSize), ops));
  }

  lemma SizeOf(l: Ledger)
    requires Sound(l)
    ensures l.pool.initialSize <= |l.pool.elements| <= Max(l.pool.initialSize, l.peak + l.pool.initialSize / 2 - 1)
  {
  }

  // ---- the exact size ----

  /** A take that finds the cursor beyond the end makes the array larger by half the initial size, rounded
      down; nothing else changes its length. */
  lemma GrowsByHalf(l: Ledger, op: Op)
    requires Allowed(l, op)
    ensures |Apply(l, op).pool.elements| == |l.pool.elements|
      + if op.Take? && l.pool.pointer > |l.pool.elements| then l.pool.initialSize / 2 else 0
    ensures Apply(l, op).pool.initialSize == l.pool.initialSize
  {
  }

  /** How many takes of the run find the cursor beyond the end. */
  function Overflows(l: Ledger, ops: seq<Op>): nat
    requires Run(l, ops)
    decreases |ops|
  {
    if ops == [] then 0
    else (if ops[0].Take? && l.pool.pointer > |l.pool.elements| then 1 else 0) + Overflows(Apply(l, ops[0]), ops[1..])
  }

  lemma {:induction false} SizeOfRun(l: Ledger, ops: seq<Op>, half: nat)
    requires Run(l, ops) && half == l.pool.initialSize / 2
    ensures |After(l, ops).pool.elements| == |l.pool.elements| + Overflows(l, ops) * half
    decreases |ops|
  {
    if ops != [] {
      GrowsByHalf(l, ops[0]);
      SizeOfRun(Apply(l, ops[0]), ops[1..], half);
      OneMore(Overflows(Apply(l, ops[0]), ops[1..]), half);
    }
  }

  lemma OneMore(n: nat, half: nat)
    ensures (1 + n) * half == half + n * half
  {
  }

  /** The most that was ever lent at once fits. */
  lemma {:induction false} PeakFits(l: Ledger, ops: seq<Op>)
    requires Sound(l) && l.peak <= |l.pool.elements| && Run(l, ops)
    ensures After(l, ops).peak <= |After(l, ops).pool.elements|
    decreases |ops|
  {
    if ops != [] {
      match ops[0] {
        case Take(c) => TakeSound(l, c); TakenFits(l, c);
        case Give(c, x) => GiveSound(l, c, x);
      }
      PeakFits(Apply(l, ops[0]), ops[1..]);
    }
  }

  lemma TakenFits(l: Ledger, c: Client)
    requires Sound(l) && l.peak <= |l.pool.elements| && Sound(Apply(l, Take(c)))
    ensures Apply(l, Take(c)).peak <= |Apply(l, Take(c)).pool.elements|
  {
    var t := Apply(l, Take(c));
    assert |t.held| == t.pool.pointer - 1;
  }

  /** Over every run the length is the initial size plus half of it for each take that found the pool
      overflown; and of those lengths it is the first that holds the peak demand. */
  lemma SizeIs(initialSize: nat, ops: seq<Op>)
    requires initialSize >= 2 && Run(Open(initialSize), ops)
    ensures
      var l, half := After(Open(initialSize), ops), initialSize / 2;
      && |l.pool.elements| == initialSize + Overflows(Open(initialSize), ops) * half
      && l.peak <= |l.pool.elements|
      && (|l.pool.elements| > initialSize ==> |l.pool.elements| - half < l.peak)
  {
    OpenSound(initialSize);
    SizeOfRun(Open(initialSize), ops, initialSize / 2);
    PeakFits(Open(initialSize), ops);
    SizeFollowsDemand(initialSize, ops);
  }

  /** What is given back is what the next take lends. */
  lemma LastBackFirstOut(l: Ledger, c: Client, x: Item)
    requires Sound(l) && Allowed(l, Give(c, x))
    ensures Taken(Apply(l, Give(c, x)).pool).1 == Lent(Some(x))
    ensures Taken(Apply(l, Give(c, x)).pool).0 == l.pool
  {
    var t := Apply(l, Give(c, x));
    HolderMeansLent(l, x);
    assert l.pool.elements[l.pool.pointer - 2] == None;
    assert Taken(t.pool).0.elements == l.pool.elements;
  }

  lemma HolderMeansLent(l: Ledger, x: Item)
    requires Sound(l) && x in l.held
    ensures l.pool.pointer > 1
  {
    assert x in l.held.Keys && |l.held| == |l.held.Keys|;
  }

  // ---- the smallest pool that works ----

  function Takes(n: nat): (ops: seq<Op>)
    ensures |ops| == n
  {
    seq(n, _ => Take(Protocol.Green(0)))
  }

  /** No take of any run goes out of bounds. */
  ghost predicate AlwaysInBounds(initialSize: nat) {
    forall ops :: Run(Open(initialSize), ops) ==> TakeInBounds(initialSize, ops)
  }

  ghost predicate TakeInBounds(initialSize: nat, ops: seq<Op>)
    requires Run(Open(initialSize), ops)
  {
    var p := After(Open(initialSize), ops).pool;
    p.pointer >= 1 ==> Taken(p).1 != OutOfBounds
  }

  /** Takes stay in bounds in every run exactly when the initial size is at least 2: below that the
      growth rate is 0. */
  lemma InBoundsIff(initialSize: nat)
    ensures AlwaysInBounds(initialSize) <==> initialSize >= 2
  {
    if initialSize >= 2 {
      forall ops | Run(Open(initialSize), ops) ensures TakeInBounds(initialSize, ops) {
        NothingIsLentTwice(initialSize, ops);
      }
    } else {
      var ops := Takes(initialSize);
      if initialSize == 0 {
        assert Run(Open(0), ops) && After(Open(0), ops) == Open(0);
      } else {
        var l := Apply(Open(1), ops[0]);
        assert ops[1..] == [];
        assert Run(l, ops[1..]) && After(l, ops[1..]) == l;
        assert Run(Open(1), ops) && After(Open(1), ops) == l;
      }
      assert !TakeInBounds(initialSize, ops);
    }
  }
}
