/** TFPool: a growing array of reusable elements with a cursor.

    Slots before the cursor are lent, slots from it on hold the elements that can be lent. The
    elements are numbered in the order the provider makes them. */
module Pool {
  import opened Prelude

  type Item = nat

  /** `pointer` is 1-based, as in the image. */
  datatype PoolState = PoolState(elements: seq<Option<Item>>, pointer: nat, initialSize: nat, provided: nat)

  /** What `takeOne` answers: the contents of the slot, or the error of an index out of bounds. */
  datatype Answer = Lent(slot: Option<Item>) | OutOfBounds

  /** `n` new elements of a provider that has made `provided` so far. */
  function Populated(n: nat, provided: nat): (q: seq<Option<Item>>)
    ensures |q| == n && forall k :: 0 <= k < n ==> q[k] == Some(provided + k)
  {
    seq(n, k => Some(provided + k))
  }

  function New(initialSize: nat): PoolState {
    PoolState(Populated(initialSize, 0), 1, initialSize, initialSize)
  }

  function GrowRate(p: PoolState): nat {
    p.initialSize / 2
  }

  function GrownBy(p: PoolState, n: nat): PoolState {
    p.(elements := p.elements + Populated(n, p.provided), provided := p.provided + n)
  }

  predicate Overflown(p: PoolState) {
    p.pointer > |p.elements|
  }

  function Taken(p: PoolState): (PoolState, Answer)
    requires p.pointer >= 1
  {
    var g := if Overflown(p) then GrownBy(p, GrowRate(p)) else p;
    var moved := g.(pointer := g.pointer + 1);
    if p.pointer <= |g.elements| then
      (moved.(elements := g.elements[p.pointer - 1 := None]), Lent(g.elements[p.pointer - 1]))
    else (moved, OutOfBounds)
  }

  /** With nothing lent the element is released instead of kept. */
  function GivenBack(p: PoolState, x: Item): PoolState
    requires 1 <= p.pointer <= |p.elements| + 1
  {
    if p.pointer > 1 then p.(elements := p.elements[p.pointer - 2 := Some(x)], pointer := p.pointer - 1) else p
  }

  // ---- the object ----

  class Provider {
    var made: nat

    constructor ()
      ensures made == 0
    {
      made := 0;
    }

    method Value() returns (x: Item)
      modifies this
      ensures x == old(made) && made == old(made) + 1
    {
      x := made;
      made := made + 1;
    }
  }

  class TFPool {
    var elements: array<Option<Item>>
    const provider: Provider
    const initialSize: nat
    var pointer: nat

    ghost function State(): PoolState
      reads this, elements, provider
    {
      PoolState(elements[..], pointer, initialSize, provider.made)
    }

    constructor (provider: Provider, size: nat)
      requires provider.made == 0
      modifies provider
      ensures State() == New(size) && fresh(elements) && this.provider == provider
    {
      this.provider, initialSize, pointer := provider, size, 1;
      elements := new Option<Item>[size](_ => None);
      new;
      Populate(provider, elements);
      assert elements[..] == Populated(size, 0);
    }

    static method Populate(provider: Provider, a: array<Option<Item>>)
      modifies provider, a
      ensures a[..] == Populated(a.Length, old(provider.made)) && provider.made == old(provider.made) + a.Length
    {
      for index := 0 to a.Length
        invariant provider.made == old(provider.made) + index
        invariant forall k :: 0 <= k < index ==> a[k] == Some(old(provider.made) + k)
      {
        var x := provider.Value();
        a[index] := Some(x);
      }
    }

    /** Array concatenation answers a new array. */
    static method Concatenated(a: array<Option<Item>>, b: array<Option<Item>>) returns (c: array<Option<Item>>)
      ensures fresh(c) && c[..] == a[..] + b[..]
    {
      c := new Option<Item>[a.Length + b.Length](_ => None);
      for k := 0 to a.Length
        invariant c[..k] == a[..k]
      {
        c[k] := a[k];
      }
      for k := 0 to b.Length
        invariant c[..a.Length + k] == a[..] + b[..k]
      {
        c[a.Length + k] := b[k];
      }
    }

    method GrowBy(n: nat)
      modifies `elements, provider
      ensures State() == GrownBy(old(State()), n) && fresh(elements)
    {
      var more := new Option<Item>[n](_ => None);
      Populate(provider, more);
      elements := Concatenated(elements, more);
    }

    method TakeOne() returns (answer: Answer)
      requires pointer >= 1
      modifies this, elements, provider
      ensures (State(), answer) == Taken(old(State())) && (fresh(elements) || elements == old(elements))
      ensures elements.Length == old(elements.Length) + if old(pointer) > old(elements.Length) then initialSize / 2 else 0
      ensures pointer == old(pointer) + 1 && (answer.Lent? <==> old(pointer) <= elements.Length)
    {
      if pointer > elements.Length {
        GrowBy(initialSize / 2);
      }
      var index := pointer;
      pointer := pointer + 1;
      if index > elements.Length { return OutOfBounds; }
      answer := Lent(elements[index - 1]);
      elements[index - 1] := None;
    }

    /** Answers the element to release when the pool has nothing out. */
    method ReturnOne(x: Item) returns (released: Option<Item>)
      requires 1 <= pointer <= elements.Length + 1
      modifies this, elements
      ensures State() == GivenBack(old(State()), x)
      ensures released == if old(pointer) == 1 then Some(x) else None
      ensures elements == old(elements)
      ensures if old(pointer) == 1 then pointer == 1 && elements[..] == old(elements[..])
              else pointer == old(pointer) - 1 && elements[..] == old(elements[..])[pointer - 1 := Some(x)]
    {
      var index := pointer - 1;
      if index <= 0 { return Some(x); }
      elements[index - 1] := Some(x);
      pointer := index;
      released := None;
    }
  }
}
