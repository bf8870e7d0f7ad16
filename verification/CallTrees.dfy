/** What the synchronous machine stands for: the traversal of a tree of calls.

    A process calls functions one after the other, a function calls blocks back one after the other, each
    runs from its beginning to its end with everything it calls in between, and each caller reads what
    the called has produced. The runs of the machine that come back to the empty stack are exactly
    the traversals of such trees, and its other runs are traversals that have not come to an end. */
module CallTrees {
  import opened Prelude
  import opened Protocol
  import opened NestedCalls

  /** Completed calls, oldest first, each with the callbacks it made and its value. */
  datatype Trees = NoCall | Then(before: Trees, call: Call, backs: Backs, v: Value)

  /** Completed callbacks, each with the calls that its block made and its value. */
  datatype Backs = NoBack | AndThen(before: Backs, inv: Invocation, calls: Trees, v: Value)

  /** All were called by process `p`, and the calls inside their callbacks by the blocks they are in. */
  predicate By(t: Trees, p: Process) {
    t.Then? ==> t.call.caller == p && By(t.before, p) && Proper(t.backs)
  }

  predicate Proper(b: Backs) {
    b.AndThen? ==> Proper(b.before) && By(b.calls, OfCallback(b.inv))
  }

  function Traversed(t: Trees): seq<Event>
    decreases t, 0
  {
    match t
    case NoCall => []
    case Then(before, c, backs, v) => Traversed(before) + WholeCall(c, backs, v)
  }

  function BacksTraversed(b: Backs): seq<Event>
    decreases b, 0
  {
    match b
    case NoBack => []
    case AndThen(before, i, calls, v) => BacksTraversed(before) + WholeBack(i, calls, v)
  }

  function WholeCall(c: Call, backs: Backs, v: Value): seq<Event>
    decreases backs, 1
  {
    [Invokes(c)] + BacksTraversed(backs) + [FunctionReturns(c, v)] + [Event.CallerResumes(c, Some(v))]
  }

  function WholeBack(i: Invocation, calls: Trees, v: Value): seq<Event>
    decreases calls, 1
  {
    [CallsBack(i)] + Traversed(calls) + [BlockReturns(i, v)] + [FunctionResumes(i, Some(v))]
  }

  // ---- runs ----

  lemma GoesOne(stack: Stack, e: Event, root: Process)
    requires SyncEnabled(stack, e, root)
    ensures Goes(stack, [e], SyncNext(stack, e, root), root)
  {
    assert [e][1..] == [];
  }

  lemma {:induction false} GoesOn(stack: Stack, a: seq<Event>, mid: Stack, b: seq<Event>, end: Stack, root: Process)
    requires Goes(stack, a, mid, root) && Goes(mid, b, end, root)
    ensures Goes(stack, a + b, end, root)
    decreases |a|
  {
    if a == [] {
      assert a + b == b;
    } else {
      GoesOn(SyncNext(stack, a[0], root), a[1..], mid, b, end, root);
      assert (a + b)[0] == a[0] && (a + b)[1..] == a[1..] + b;
    }
  }

  lemma {:induction false} GoesBack(stack: Stack, events: seq<Event>, e: Event, root: Process)
    requires Sync(stack, events + [e], root)
    ensures Sync(stack, events, root) && SyncEnabled(SyncEnd(stack, events, root), e, root)
    ensures SyncEnd(stack, events + [e], root) == SyncNext(SyncEnd(stack, events, root), e, root)
    decreases |events|
  {
    var all := events + [e];
    if events == [] {
      assert all[0] == e && all[1..] == [];
    } else {
      assert all[0] == events[0] && all[1..] == events[1..] + [e];
      GoesBack(SyncNext(stack, events[0], root), events[1..], e, root);
    }
  }

  // ---- every tree is a run ----

  /** Process `p` is running on top of the stack. */
  predicate Running(stack: Stack, p: Process, root: Process) {
    if stack == [] then p == root else Last(stack).Called? && Last(stack).value == None && p == OfCallback(Last(stack).inv)
  }

  lemma Bracket(stack: Stack, first: Event, inner: seq<Event>, produced: Event, read: Event,
                a: Activation, b: Activation, root: Process)
    requires SyncEnabled(stack, first, root) && SyncNext(stack, first, root) == stack + [a]
    requires Goes(stack + [a], inner, stack + [a], root)
    requires SyncEnabled(stack + [a], produced, root) && SyncNext(stack + [a], produced, root) == stack + [b]
    requires SyncEnabled(stack + [b], read, root) && SyncNext(stack + [b], read, root) == stack
    ensures Goes(stack, [first] + inner + [produced] + [read], stack, root)
  {
    GoesOne(stack, first, root);
    GoesOn(stack, [first], stack + [a], inner, stack + [a], root);
    GoesOne(stack + [a], produced, root);
    GoesOn(stack, [first] + inner, stack + [a], [produced], stack + [b], root);
    GoesOne(stack + [b], read, root);
    GoesOn(stack, [first] + inner + [produced], stack + [b], [read], stack, root);
  }

  /** A tree of calls is traversed from and to any stack on top of which its process runs. */
  lemma {:induction false} TreesRun(t: Trees, stack: Stack, p: Process, root: Process)
    requires By(t, p) && Running(stack, p, root)
    ensures Goes(stack, Traversed(t), stack, root)
    decreases t
  {
    if t.Then? {
      var calling, done := Calling(t.call, None), Calling(t.call, Some(t.v));
      TreesRun(t.before, stack, p, root);
      BacksRun(t.backs, stack + [calling], t.call, root);
      assert Front(stack + [calling]) == stack && Front(stack + [done]) == stack;
      Bracket(stack, Invokes(t.call), BacksTraversed(t.backs), FunctionReturns(t.call, t.v),
        Event.CallerResumes(t.call, Some(t.v)), calling, done, root);
      GoesOn(stack, Traversed(t.before), stack, WholeCall(t.call, t.backs, t.v), stack, root);
    }
  }

  lemma {:induction false} BacksRun(b: Backs, stack: Stack, c: Call, root: Process)
    requires Proper(b) && stack != [] && Last(stack) == Calling(c, None)
    ensures Goes(stack, BacksTraversed(b), stack, root)
    decreases b
  {
    if b.AndThen? {
      var called, done := Called(b.inv, None), Called(b.inv, Some(b.v));
      BacksRun(b.before, stack, c, root);
      TreesRun(b.calls, stack + [called], OfCallback(b.inv), root);
      assert Front(stack + [called]) == stack && Front(stack + [done]) == stack;
      Bracket(stack, CallsBack(b.inv), Traversed(b.calls), BlockReturns(b.inv, b.v), FunctionResumes(b.inv, Some(b.v)),
        called, done, root);
      GoesOn(stack, BacksTraversed(b.before), stack, WholeBack(b.inv, b.calls, b.v), stack, root);
    }
  }

  // ---- every run is a tree ----

  /** A call or a callback under way, with what it has completed so far and the value it has produced. */
  datatype Level =
    | InCall(call: Call, backs: Backs, result: Option<Value>)
    | InBack(inv: Invocation, calls: Trees, value: Option<Value>)

  function ActivationOf(l: Level): Activation {
    match l
    case InCall(c, _, result) => Calling(c, result)
    case InBack(i, _, value) => Called(i, value)
  }

  /** The stack of the levels under way. */
  function StackOf(levels: seq<Level>): (stack: Stack)
    ensures |stack| == |levels| && forall k :: 0 <= k < |levels| ==> stack[k] == ActivationOf(levels[k])
  {
    seq(|levels|, k requires 0 <= k < |levels| => ActivationOf(levels[k]))
  }

  function LevelTraversed(l: Level): seq<Event> {
    match l
    case InCall(c, backs, result) =>
      [Invokes(c)] + BacksTraversed(backs) + if result.Some? then [FunctionReturns(c, result.value)] else []
    case InBack(i, calls, value) =>
      [CallsBack(i)] + Traversed(calls) + if value.Some? then [BlockReturns(i, value.value)] else []
  }

  /** A traversal under way: calls completed, then the levels, each begun inside the one before. */
  function PartlyTraversed(done: Trees, levels: seq<Level>): seq<Event> {
    if levels == [] then Traversed(done) else PartlyTraversed(done, Front(levels)) + LevelTraversed(Last(levels))
  }

  /** Who may begin level `k`. */
  predicate Fits(levels: seq<Level>, k: nat, root: Process)
    requires k < |levels|
  {
    match levels[k]
    case InCall(c, backs, _) =>
      Proper(backs) && if k == 0 then c.caller == root else levels[k - 1].InBack? && c.caller == OfCallback(levels[k - 1].inv)
    case InBack(i, calls, _) => k > 0 && levels[k - 1].InCall? && By(calls, OfCallback(i))
  }

  /** Only the innermost level may have produced its value. */
  predicate Unfinished(l: Level) {
    match l
    case InCall(_, _, result) => result == None
    case InBack(_, _, value) => value == None
  }

  ghost predicate UnderWay(done: Trees, levels: seq<Level>, root: Process) {
    && By(done, root) && (forall k :: 0 <= k < |levels| ==> Fits(levels, k, root))
    && (forall k :: 0 <= k < |levels| - 1 ==> Unfinished(levels[k]))
  }

  /** `events` has come to `stack` by the traversal of some tree. */
  ghost predicate Partial(events: seq<Event>, stack: Stack, root: Process) {
    exists done, levels :: Shows(done, levels, events, stack, root)
  }

  ghost predicate Shows(done: Trees, levels: seq<Level>, events: seq<Event>, stack: Stack, root: Process) {
    UnderWay(done, levels, root) && StackOf(levels) == stack && events == PartlyTraversed(done, levels)
  }

  lemma Opens(done: Trees, levels: seq<Level>, l: Level, root: Process)
    requires UnderWay(done, levels, root) && Fits(levels + [l], |levels|, root)
    requires levels != [] ==> Unfinished(Last(levels))
    ensures Shows(done, levels + [l], PartlyTraversed(done, levels) + LevelTraversed(l),
                  StackOf(levels) + [ActivationOf(l)], root)
  {
    WayLonger(done, levels, l, root);
    assert Front(levels + [l]) == levels;
    StackLonger(levels, l);
  }

  lemma WayLonger(done: Trees, levels: seq<Level>, l: Level, root: Process)
    requires UnderWay(done, levels, root) && Fits(levels + [l], |levels|, root)
    requires levels != [] ==> Unfinished(Last(levels))
    ensures UnderWay(done, levels + [l], root)
  {
    var longer := levels + [l];
    forall k | 0 <= k < |longer| ensures Fits(longer, k, root) {
      if k < |levels| { FitsLonger(levels, l, k, root); }
    }
    forall k | 0 <= k < |levels| ensures Unfinished(longer[k]) {
      assert longer[k] == levels[k];
    }
  }

  lemma FitsLonger(levels: seq<Level>, l: Level, k: nat, root: Process)
    requires k < |levels| && Fits(levels, k, root)
    ensures Fits(levels + [l], k, root)
  {
  }

  lemma StackLonger(levels: seq<Level>, l: Level)
    ensures StackOf(levels + [l]) == StackOf(levels) + [ActivationOf(l)]
  {
  }

  lemma Below(done: Trees, levels: seq<Level>, root: Process)
    requires UnderWay(done, levels, root) && levels != []
    ensures UnderWay(done, Front(levels), root) && StackOf(Front(levels)) == Front(StackOf(levels))
    ensures Fits(levels, |levels| - 1, root) && levels == Front(levels) + [Last(levels)]
    ensures PartlyTraversed(done, levels) == PartlyTraversed(done, Front(levels)) + LevelTraversed(Last(levels))
    ensures |levels| > 1 ==> Unfinished(Last(Front(levels)))
  {
    forall k | 0 <= k < |levels| - 1 ensures Fits(Front(levels), k, root) {
      assert Fits(levels, k, root);
    }
  }

  /** The innermost level goes on: it has shown one event more. */
  lemma Changes(done: Trees, levels: seq<Level>, l: Level, more: seq<Event>, root: Process)
    requires UnderWay(done, levels, root) && levels != [] && Fits(Front(levels) + [l], |levels| - 1, root)
    requires LevelTraversed(l) == LevelTraversed(Last(levels)) + more
    ensures Shows(done, Front(levels) + [l], PartlyTraversed(done, levels) + more,
                  Front(StackOf(levels)) + [ActivationOf(l)], root)
  {
    Below(done, levels, root);
    Opens(done, Front(levels), l, root);
    Associative(PartlyTraversed(done, Front(levels)), LevelTraversed(Last(levels)), more);
  }

  /** A call begins. */
  lemma Begins(done: Trees, levels: seq<Level>, e: Event, root: Process)
    requires UnderWay(done, levels, root) && SyncEnabled(StackOf(levels), e, root) && (e.Invokes? || e.CallsBack?)
    ensures Partial(PartlyTraversed(done, levels) + [e], SyncNext(StackOf(levels), e, root), root)
  {
    var l := if e.Invokes? then InCall(e.call, NoBack, None) else InBack(e.inv, NoCall, None);
    assert LevelTraversed(l) == [e];
    assert levels != [] ==> Last(StackOf(levels)) == ActivationOf(Last(levels));
    Opens(done, levels, l, root);
  }

  /** A call produces its value. */
  lemma Produces(done: Trees, levels: seq<Level>, e: Event, root: Process)
    requires UnderWay(done, levels, root) && SyncEnabled(StackOf(levels), e, root) && (e.FunctionReturns? || e.BlockReturns?)
    ensures Partial(PartlyTraversed(done, levels) + [e], SyncNext(StackOf(levels), e, root), root)
  {
    var top := Last(levels);
    assert Last(StackOf(levels)) == ActivationOf(top) && Fits(levels, |levels| - 1, root);
    var l := if e.FunctionReturns? then top.(result := Some(e.v)) else top.(value := Some(e.v));
    var begun := if e.FunctionReturns? then [Invokes(top.call)] + BacksTraversed(top.backs)
                 else [CallsBack(top.inv)] + Traversed(top.calls);
    assert LevelTraversed(top) == begun && LevelTraversed(l) == begun + [e];
    Changes(done, levels, l, [e], root);
  }

  /** The innermost level has ended, and is now part of the one below it. */
  lemma Closes(done: Trees, levels: seq<Level>, l: Level, whole: seq<Event>, e: Event, root: Process)
    requires UnderWay(done, levels, root) && |levels| > 1 && LevelTraversed(Last(levels)) + [e] == whole
    requires var below := Front(levels);
      LevelTraversed(l) == LevelTraversed(Last(below)) + whole && ActivationOf(l) == ActivationOf(Last(below))
      && Fits(Front(below) + [l], |below| - 1, root)
    ensures Partial(PartlyTraversed(done, levels) + [e], Front(StackOf(levels)), root)
  {
    var below := Front(levels);
    Below(done, levels, root);
    Changes(done, below, l, whole, root);
    Associative(PartlyTraversed(done, below), LevelTraversed(Last(levels)), [e]);
    SameStack(below, l);
  }

  lemma SameStack(levels: seq<Level>, l: Level)
    requires levels != [] && ActivationOf(l) == ActivationOf(Last(levels))
    ensures Front(StackOf(levels)) + [ActivationOf(l)] == StackOf(levels)
  {
  }

  /** One more call of a block. */
  lemma CallAdded(i: Invocation, calls: Trees, c: Call, backs: Backs, v: Value)
    ensures LevelTraversed(InBack(i, Then(calls, c, backs, v), None))
      == LevelTraversed(InBack(i, calls, None)) + WholeCall(c, backs, v)
    ensures LevelTraversed(InCall(c, backs, Some(v))) + [Event.CallerResumes(c, Some(v))] == WholeCall(c, backs, v)
  {
  }

  /** One more callback of a function. */
  lemma BackAdded(c: Call, backs: Backs, i: Invocation, calls: Trees, v: Value)
    ensures LevelTraversed(InCall(c, AndThen(backs, i, calls, v), None))
      == LevelTraversed(InCall(c, backs, None)) + WholeBack(i, calls, v)
    ensures LevelTraversed(InBack(i, calls, Some(v))) + [FunctionResumes(i, Some(v))] == WholeBack(i, calls, v)
  {
  }

  lemma FitsStill(levels: seq<Level>, l: Level, root: Process)
    requires levels != [] && Fits(levels, |levels| - 1, root)
    requires match l
      case InCall(c, backs, _) => Last(levels).InCall? && Last(levels).call == c && Proper(backs)
      case InBack(i, calls, _) => Last(levels).InBack? && Last(levels).inv == i && By(calls, OfCallback(i))
    ensures Fits(Front(levels) + [l], |levels| - 1, root)
  {
  }

  lemma FirstCallEnds(done: Trees, top: Level, v: Value, root: Process)
    requires UnderWay(done, [top], root) && top.InCall? && top.result == Some(v)
    ensures Partial(PartlyTraversed(done, [top]) + [Event.CallerResumes(top.call, Some(v))], [], root)
  {
    assert Fits([top], 0, root);
    assert Front([top]) == [];
    Associative(Traversed(done), LevelTraversed(top), [Event.CallerResumes(top.call, Some(v))]);
    CallAdded(Invocation(0, 0, false), NoCall, top.call, top.backs, v);
    assert Shows(Then(done, top.call, top.backs, v), [],
      PartlyTraversed(done, [top]) + [Event.CallerResumes(top.call, Some(v))], [], root);
  }

  /** A process has read the result of its function, which is now one of its completed calls. */
  lemma CallerReads(done: Trees, levels: seq<Level>, top: Level, v: Value, root: Process)
    requires UnderWay(done, levels, root) && levels != [] && Last(levels) == top && top.InCall? && top.result == Some(v)
    ensures Partial(PartlyTraversed(done, levels) + [Event.CallerResumes(top.call, Some(v))], Front(StackOf(levels)), root)
  {
    Below(done, levels, root);
    if |levels| == 1 {
      assert levels == [top];
      FirstCallEnds(done, top, v, root);
    } else {
      var under := Last(Front(levels));
      assert Fits(levels, |levels| - 2, root);
      CallAdded(under.inv, under.calls, top.call, top.backs, v);
      var l := InBack(under.inv, Then(under.calls, top.call, top.backs, v), None);
      FitsStill(Front(levels), l, root);
      Closes(done, levels, l, WholeCall(top.call, top.backs, v), Event.CallerResumes(top.call, Some(v)), root);
    }
  }

  /** A function has read the value of the block, which is now one of its completed callbacks. */
  lemma FunctionReads(done: Trees, levels: seq<Level>, top: Level, v: Value, root: Process)
    requires UnderWay(done, levels, root) && levels != [] && Last(levels) == top && top.InBack? && top.value == Some(v)
    ensures Partial(PartlyTraversed(done, levels) + [FunctionResumes(top.inv, Some(v))], Front(StackOf(levels)), root)
  {
    Below(done, levels, root);
    var under := Last(Front(levels));
    assert Fits(levels, |levels| - 2, root);
    BackAdded(under.call, under.backs, top.inv, top.calls, v);
    var l := InCall(under.call, AndThen(under.backs, top.inv, top.calls, v), None);
    FitsStill(Front(levels), l, root);
    Closes(done, levels, l, WholeBack(top.inv, top.calls, v), FunctionResumes(top.inv, Some(v)), root);
  }

  lemma PartialStep(done: Trees, levels: seq<Level>, e: Event, root: Process)
    requires UnderWay(done, levels, root) && SyncEnabled(StackOf(levels), e, root)
    ensures Partial(PartlyTraversed(done, levels) + [e], SyncNext(StackOf(levels), e, root), root)
  {
    assert levels != [] ==> Last(StackOf(levels)) == ActivationOf(Last(levels));
    match e
    case CallerResumes(_, got) => CallerReads(done, levels, Last(levels), got.value, root);
    case FunctionResumes(_, got) => FunctionReads(done, levels, Last(levels), got.value, root);
    case FunctionReturns(_, _) => Produces(done, levels, e, root);
    case BlockReturns(_, _) => Produces(done, levels, e, root);
    case _ => Begins(done, levels, e, root);
  }

  lemma {:induction false} RunsAreTrees(events: seq<Event>, root: Process)
    requires Sync([], events, root)
    ensures Partial(events, SyncEnd([], events, root), root)
    decreases |events|
  {
    if events == [] {
      assert Shows(NoCall, [], [], [], root);
    } else {
      var before, e := Front(events), Last(events);
      assert events == before + [e];
      GoesBack([], before, e, root);
      RunsAreTrees(before, root);
      var done, levels :| Shows(done, levels, before, SyncEnd([], before, root), root);
      PartialStep(done, levels, e, root);
    }
  }

  // ---- both together ----

  /** A level is entered from the one below it. */
  lemma LevelRuns(stack: Stack, l: Level, root: Process)
    requires match l
      case InCall(c, backs, _) => Running(stack, c.caller, root) && Proper(backs)
      case InBack(i, calls, _) => stack != [] && Last(stack).Calling? && Last(stack).result == None && By(calls, OfCallback(i))
    ensures Goes(stack, LevelTraversed(l), stack + [ActivationOf(l)], root)
  {
    var first, inner, a := CallsBack(Invocation(0, 0, false)), [], ActivationOf(l);
    match l {
      case InCall(c, backs, result) =>
        first, inner, a := Invokes(c), BacksTraversed(backs), Calling(c, None);
        BacksRun(backs, stack + [a], c, root);
      case InBack(i, calls, value) =>
        first, inner, a := CallsBack(i), Traversed(calls), Called(i, None);
        TreesRun(calls, stack + [a], OfCallback(i), root);
    }
    GoesOne(stack, first, root);
    GoesOn(stack, [first], stack + [a], inner, stack + [a], root);
    if !Unfinished(l) {
      var produced := if l.InCall? then FunctionReturns(l.call, l.result.value) else BlockReturns(l.inv, l.value.value);
      GoesOne(stack + [a], produced, root);
      assert Front(stack + [a]) == stack;
      GoesOn(stack, [first] + inner, stack + [a], [produced], stack + [ActivationOf(l)], root);
    } else {
      assert [first] + inner + [] == [first] + inner;
    }
  }

  lemma {:induction false} TreesAreRuns(done: Trees, levels: seq<Level>, root: Process)
    requires UnderWay(done, levels, root)
    ensures Goes([], PartlyTraversed(done, levels), StackOf(levels), root)
    decreases |levels|
  {
    if levels == [] {
      TreesRun(done, [], root, root);
    } else {
      var below := Front(levels);
      Below(done, levels, root);
      TreesAreRuns(done, below, root);
      Entered(below, Last(levels), root);
      LevelRuns(StackOf(below), Last(levels), root);
      GoesOn([], PartlyTraversed(done, below), StackOf(below), LevelTraversed(Last(levels)), StackOf(levels), root);
    }
  }

  lemma Entered(below: seq<Level>, l: Level, root: Process)
    requires Fits(below + [l], |below|, root) && (below != [] ==> Unfinished(Last(below)))
    ensures match l
      case InCall(c, backs, _) => Running(StackOf(below), c.caller, root) && Proper(backs)
      case InBack(i, calls, _) =>
        below != [] && Last(StackOf(below)).Calling? && Last(StackOf(below)).result == None && By(calls, OfCallback(i))
  {
    if below != [] {
      assert Last(StackOf(below)) == ActivationOf(Last(below)) && (below + [l])[|below| - 1] == Last(below);
    }
  }

  /** The runs of the synchronous machine are the traversals of trees of calls, ended or not. */
  lemma SyncIffTraversal(events: seq<Event>, stack: Stack, root: Process)
    ensures Goes([], events, stack, root) <==> Partial(events, stack, root)
  {
    if Goes([], events, stack, root) {
      RunsAreTrees(events, root);
    }
    if Partial(events, stack, root) {
      var done, levels :| Shows(done, levels, events, stack, root);
      TreesAreRuns(done, levels, root);
    }
  }

  /** `events` are these calls, all of them by the process `root`. */
  ghost predicate Complete(events: seq<Event>, t: Trees, root: Process) {
    By(t, root) && events == Traversed(t)
  }

  lemma NoLevels(events: seq<Event>, root: Process)
    ensures Partial(events, [], root) <==> exists t :: Complete(events, t, root)
  {
    if Partial(events, [], root) {
      var done, levels :| Shows(done, levels, events, [], root);
      assert |StackOf(levels)| == 0;
      assert Complete(events, done, root);
    }
    if t :| Complete(events, t, root) {
      assert StackOf([]) == [];
      assert Shows(t, [], events, [], root);
    }
  }

  /** A run that comes back to the empty stack is a sequence of complete calls, properly nested; and every
      such sequence is a run. */
  lemma CompleteIffTrees(events: seq<Event>, root: Process)
    ensures Goes([], events, [], root) <==> exists t :: Complete(events, t, root)
  {
    SyncIffTraversal(events, [], root);
    NoLevels(events, root);
  }
}
