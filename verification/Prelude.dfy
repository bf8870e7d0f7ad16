/** Small helpers shared by the other modules. */
module Prelude {

  datatype Option<+T> = None | Some(value: T)

  function Last<T>(q: seq<T>): T
    requires q != []
  {
    q[|q| - 1]
  }

  function Front<T>(q: seq<T>): seq<T>
    requires q != []
  {
    q[..|q| - 1]
  }

  /** The elements of `q` that satisfy `p`, in order. */
  function Select<T>(p: T -> bool, q: seq<T>): (r: seq<T>)
    ensures forall x | x in r :: x in q && p(x)
    ensures forall x | x in q && p(x) :: x in r
  {
    if q == [] then [] else (if p(q[0]) then [q[0]] else []) + Select(p, q[1..])
  }

  lemma Associative<T>(a: seq<T>, b: seq<T>, c: seq<T>)
    ensures a + (b + c) == (a + b) + c
  {
  }

  lemma Rejoin<T>(a: seq<T>, b: seq<T>)
    requires a != []
    ensures [a[0]] + (a[1..] + b) == a + b
  {
  }

  lemma {:induction false} SelectConcat<T>(p: T -> bool, a: seq<T>, b: seq<T>)
    ensures Select(p, a + b) == Select(p, a) + Select(p, b)
  {
    if a == [] {
      assert a + b == b;
    } else {
      var rest := a[1..] + b;
      assert (a + b)[0] == a[0] && (a + b)[1..] == rest;
      SelectConcat(p, a[1..], b);
      var head := if p(a[0]) then [a[0]] else [];
      Associative(head, Select(p, a[1..]), Select(p, b));
    }
  }

  lemma SelectSnoc<T>(p: T -> bool, a: seq<T>, x: T)
    ensures Select(p, a + [x]) == Select(p, a) + (if p(x) then [x] else [])
  {
    SelectConcat(p, a, [x]);
    assert [x][1..] == [];
  }

  lemma SelectFront<T>(p: T -> bool, a: seq<T>)
    requires a != []
    ensures Select(p, a) == Select(p, Front(a)) + (if p(Last(a)) then [Last(a)] else [])
  {
    assert a == Front(a) + [Last(a)];
    SelectSnoc(p, Front(a), Last(a));
  }

  function Reverse<T>(q: seq<T>): (r: seq<T>)
    ensures |r| == |q|
    ensures forall k :: 0 <= k < |q| ==> r[k] == q[|q| - 1 - k]
  {
    if q == [] then [] else [Last(q)] + Reverse(Front(q))
  }

  function Without<T>(q: seq<T>, k: nat): seq<T>
    requires k < |q|
  {
    q[..k] + q[k + 1..]
  }

  lemma WithoutCounts<T>(q: seq<T>, k: nat)
    requires k < |q|
    ensures multiset(q) == multiset(Without(q, k)) + multiset{q[k]}
  {
    assert q == q[..k] + ([q[k]] + q[k + 1..]);
  }

  ghost predicate NoDup<T>(q: seq<T>) {
    forall i, j :: 0 <= i < j < |q| ==> q[i] != q[j]
  }

  lemma {:induction false} CountAtMostOne<T>(q: seq<T>, x: T)
    requires NoDup(q)
    ensures multiset(q)[x] <= 1
  {
    if q != [] {
      CountAtMostOne(Front(q), x);
      assert q == Front(q) + [Last(q)];
      assert x == Last(q) ==> x !in Front(q);
    }
  }

  lemma CountTwice<T>(q: seq<T>, i: nat, j: nat)
    requires i < j < |q|
    ensures q[i] == q[j] ==> multiset(q)[q[j]] >= 2
  {
    assert q == q[..j] + q[j..];
    assert q[..j][i] == q[i] && q[j..][0] == q[j];
    assert q[i] in q[..j] && q[j] in q[j..];
  }

  /** A rearrangement of distinct elements has distinct elements. */
  lemma Rearranged<T>(p: seq<T>, q: seq<T>)
    requires NoDup(p) && multiset(p) == multiset(q)
    ensures NoDup(q)
  {
    forall i, j | 0 <= i < j < |q| ensures q[i] != q[j] {
      CountAtMostOne(p, q[j]);
      CountTwice(q, i, j);
    }
  }
}
