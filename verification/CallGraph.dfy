/** Which runners may call into which others.

    A function on a worker may call a callback of another runner, and then waits for it and serves no
    task; the block of a callback may call out on any runner, and then its process waits. Which of these
    calls a program makes is a relation on runners. */
module CallGraph {
  import opened Prelude
  import opened Protocol

  /** `(q, r) in cross`: functions on worker `q` may call callbacks of runner `r`.
      `(q, r) in calls`: blocks of callbacks of runner `q` may call out on runner `r`. */
  datatype Permits = Permits(cross: set<(nat, nat)>, calls: set<(nat, nat)>)

  predicate WithinStep(a: Step, e: Permits) {
    match a
    case CrossCallback(q, r) => (q, r) in e.cross
    case Dispatch(r, OfCallback(i)) => (i.runner, r) in e.calls
    case _ => true
  }

  predicate Within(run: seq<Step>, e: Permits) {
    forall k :: 0 <= k < |run| ==> WithinStep(run[k], e)
  }

  // ---- the relation as a graph of `n` runners ----

  predicate Crosses(n: nat, e: Permits, q: nat, r: nat) {
    q < n && r < n && q != r && (q, r) in e.cross
  }

  predicate Edge(n: nat, e: Permits, q: nat, r: nat) {
    Crosses(n, e, q, r) || (q < n && r < n && (q, r) in e.calls)
  }

  predicate Path(n: nat, e: Permits, path: seq<nat>, q: nat, r: nat) {
    && q < n && path != [] && path[0] == q && Last(path) == r
    && forall k :: 0 <= k < |path| - 1 ==> Edge(n, e, path[k], path[k + 1])
  }

  ghost predicate Connected(n: nat, e: Permits, q: nat, r: nat) {
    exists path :: Path(n, e, path, q, r)
  }

  /** No cycle goes through a callback of another runner. */
  ghost predicate NoCrossCycle(n: nat, e: Permits) {
    forall q: nat, r: nat :: Crosses(n, e, q, r) ==> !Connected(n, e, r, q)
  }

  /** The runners that can be reached from `q`, itself included. */
  ghost function Reach(n: nat, e: Permits, q: nat): set<nat> {
    set r: nat | r < n && Connected(n, e, q, r)
  }

  lemma ReachesItself(n: nat, e: Permits, q: nat)
    requires q < n
    ensures q in Reach(n, e, q)
  {
    assert Path(n, e, [q], q, q);
  }

  lemma ReachShrinks(n: nat, e: Permits, q: nat, r: nat)
    requires Edge(n, e, q, r)
    ensures Reach(n, e, r) <= Reach(n, e, q) && |Reach(n, e, r)| <= |Reach(n, e, q)|
  {
    forall u | u in Reach(n, e, r) ensures u in Reach(n, e, q) {
      var path :| Path(n, e, path, r, u);
      var longer := [q] + path;
      forall k | 0 <= k < |longer| - 1 ensures Edge(n, e, longer[k], longer[k + 1]) {
        if k > 0 { assert Edge(n, e, path[k - 1], path[k - 1 + 1]); }
      }
      assert Path(n, e, longer, q, u);
    }
    Smaller(Reach(n, e, r), Reach(n, e, q));
  }

  lemma Smaller<T>(a: set<T>, b: set<T>)
    requires a <= b
    ensures |a| <= |b| && (a != b ==> |a| < |b|)
  {
    assert b == a + (b - a);
  }

  /** Behind a callback of another runner strictly less can be reached. */
  lemma CrossReach(n: nat, e: Permits, q: nat, r: nat)
    requires NoCrossCycle(n, e) && Crosses(n, e, q, r)
    ensures |Reach(n, e, r)| < |Reach(n, e, q)|
  {
    ReachShrinks(n, e, q, r);
    ReachesItself(n, e, q);
    assert q !in Reach(n, e, r);
    Smaller(Reach(n, e, r), Reach(n, e, q));
  }

  /** A path without repetitions. */
  lemma {:induction false} SimplePath(n: nat, e: Permits, path: seq<nat>, q: nat, r: nat) returns (simple: seq<nat>)
    requires Path(n, e, path, q, r)
    ensures Path(n, e, simple, q, r) && NoDup(simple)
    decreases |path|
  {
    if NoDup(path) {
      simple := path;
    } else {
      var i, j :| 0 <= i < j < |path| && path[i] == path[j];
      var shorter := path[..i] + path[j..];
      forall k | 0 <= k < |shorter| - 1 ensures Edge(n, e, shorter[k], shorter[k + 1]) {
        if k + 1 < i {
          assert Edge(n, e, path[k], path[k + 1]);
        } else if k + 1 == i {
          assert Edge(n, e, path[k], path[k + 1]) && path[k + 1] == path[j] == shorter[i];
        } else {
          var m := k - i + j;
          assert Edge(n, e, path[m], path[m + 1]) && shorter[k] == path[m] && shorter[k + 1] == path[m + 1];
        }
      }
      simple := SimplePath(n, e, shorter, q, r);
    }
  }
}
