/** What a run of the compiled code shows to the outside: the trace comes first and only when asked for,
    the arguments are evaluated once each in order, then the function is invoked once with all of them,
    then exactly the string arguments are freed; and the hooks of all arguments run once each, in order,
    before and after the call. */
module CalloutEvents {
  import opened Prelude
  import opened CalloutIR
  import opened CalloutCompiler
  import opened CalloutCorrectness

  predicate Notable(e: Event) {
    match e
    case ArgumentPushed(_) => true
    case ArgumentReturned(_) => false
    case Sent(s, _, _) => s == Trace || s == InvokeFunctionWithArguments || s == FreeValueIfNeeded
  }

  const NOTABLE: Event -> bool := e => Notable(e)

  /** The 0-based positions of string arguments, in order. */
  function StringPositions(types: seq<CType>): (r: seq<nat>)
    ensures forall k :: k in r ==> k < |types| && types[k].StringClass?
    ensures forall k :: 0 <= k < |types| && types[k].StringClass? ==> k in r
    ensures forall i, j :: 0 <= i < j < |r| ==> r[i] < r[j]
  {
    if types == [] then []
    else
      var before := StringPositions(Front(types));
      assert forall i :: 0 <= i < |before| ==> before[i] in before;
      if Last(types).StringClass? then before + [|types| - 1] else before
  }

  function Pushed(n: nat): seq<Event> {
    seq(n, k requires 0 <= k < n => ArgumentPushed(k))
  }

  /** One event per string argument, in order, about the value at its position. */
  function Freed(types: seq<CType>, values: seq<Value>): seq<Event>
    requires |types| == |values|
  {
    var ks := StringPositions(types);
    assert forall i :: 0 <= i < |ks| ==> ks[i] in ks;
    seq(|ks|, i requires 0 <= i < |ks| => Sent(FreeValueIfNeeded, Known(StringType), [values[ks[i]]]))
  }

  lemma FreedFront(types: seq<CType>, values: seq<Value>)
    requires |types| == |values| > 0
    ensures Freed(types, values) == Freed(Front(types), Front(values))
      + (if Last(types).StringClass? then [Sent(FreeValueIfNeeded, Known(StringType), [Last(values)])] else [])
  {
    var ks, q := StringPositions(Front(types)), Freed(types, values);
    var before := Freed(Front(types), Front(values));
    assert |q| == |before| + if Last(types).StringClass? then 1 else 0;
    forall i | 0 <= i < |ks| ensures q[i] == before[i] {
      assert ks[i] in ks && StringPositions(types)[i] == ks[i];
    }
    assert q[..|ks|] == before;
  }

  lemma ToPrimitiveShowsNothing(t: CType, v: Value, log: seq<Event>, w: World)
    ensures Select(NOTABLE, ToPrimitive(t, v, log, w).log) == Select(NOTABLE, log)
  {
    var after := ToPrimitive(t, v, log, w).log;
    if after != log {
      assert after == log + [Last(after)];
      SelectSnoc(NOTABLE, log, Last(after));
    }
  }

  lemma FromPrimitiveShowsNothing(t: CType, v: Value, log: seq<Event>, w: World)
    ensures Select(NOTABLE, FromPrimitive(t, v, log, w).log) == Select(NOTABLE, log)
  {
    var after := FromPrimitive(t, v, log, w).log;
    if after != log {
      assert after == log + [Last(after)];
      SelectSnoc(NOTABLE, log, Last(after));
    }
  }

  lemma {:induction false} MarshalledShows(types: seq<CType>, log: seq<Event>, w: World)
    ensures Select(NOTABLE, Marshalled(types, log, w).log) == Select(NOTABLE, log) + Pushed(|types|)
  {
    if types == [] {
      assert Select(NOTABLE, log) + [] == Select(NOTABLE, log);
    } else {
      var k := |types| - 1;
      MarshalledShows(Front(types), log, w);
      OneMarshalled(Last(types), k, Marshalled(Front(types), log, w).log, w);
      assert Pushed(|types|) == Pushed(k) + [ArgumentPushed(k)];
      Associative(Select(NOTABLE, log), Pushed(k), [ArgumentPushed(k)]);
    }
  }

  lemma OneMarshalled(t: CType, k: nat, log: seq<Event>, w: World)
    ensures Select(NOTABLE, ToPrimitive(t, w.argument(k, log), log + [ArgumentPushed(k)], w).log)
      == Select(NOTABLE, log) + [ArgumentPushed(k)]
  {
    SelectSnoc(NOTABLE, log, ArgumentPushed(k));
    ToPrimitiveShowsNothing(t, w.argument(k, log), log + [ArgumentPushed(k)], w);
  }

  /** Each argument is marshalled by its own type, from the value pushed for its own position. */
  lemma {:induction false} MarshalledAt(types: seq<CType>, log: seq<Event>, w: World, k: nat)
    requires k < |types|
    ensures
      var before := Marshalled(types[..k], log, w).log;
      Marshalled(types, log, w).values[k]
      == ToPrimitive(types[k], w.argument(k, before), before + [ArgumentPushed(k)], w).value
  {
    if k == |types| - 1 {
      assert types[..k] == Front(types);
    } else {
      MarshalledAt(Front(types), log, w, k);
      assert Front(types)[..k] == types[..k];
    }
  }

  /** The hook of argument `k` runs, then what it passed is freed if it was a string, before anything of the
      later arguments. */
  lemma {:induction false} ReleasedAt(types: seq<CType>, values: seq<Value>, log: seq<Event>, w: World, k: nat)
    requires |types| == |values| && k < |types|
    ensures
      Released(types[..k], values[..k], log, w) + [ArgumentReturned(k)]
      + (if types[k].StringClass? then [Sent(FreeValueIfNeeded, Known(StringType), [values[k]])] else [])
      <= Released(types, values, log, w)
  {
    if k == |types| - 1 {
      assert types[..k] == Front(types) && values[..k] == Front(values);
    } else {
      ReleasedAt(Front(types), Front(values), log, w, k);
      assert Front(types)[..k] == types[..k] && Front(values)[..k] == values[..k];
    }
  }

  lemma {:induction false} ReleasedShows(types: seq<CType>, values: seq<Value>, log: seq<Event>, w: World)
    requires |types| == |values|
    ensures Select(NOTABLE, Released(types, values, log, w)) == Select(NOTABLE, log) + Freed(types, values)
  {
    if types != [] {
      var k := |types| - 1;
      var before := Released(Front(types), Front(values), log, w);
      var free := Sent(FreeValueIfNeeded, Known(StringType), [Last(values)]);
      ReleasedShows(Front(types), Front(values), log, w);
      ReleaseShows(before, k, Last(types).StringClass?, free);
      FreedFront(types, values);
      Associative(Select(NOTABLE, log), Freed(Front(types), Front(values)), if Last(types).StringClass? then [free] else []);
    }
  }

  /** The hook of one argument shows nothing, the free of a string itself. */
  lemma ReleaseShows(log: seq<Event>, k: nat, isString: bool, free: Event)
    requires Notable(free)
    ensures
      var after := log + [ArgumentReturned(k)];
      Select(NOTABLE, if isString then after + [free] else after) == Select(NOTABLE, log) + if isString then [free] else []
  {
    SelectSnoc(NOTABLE, log, ArgumentReturned(k));
    SelectSnoc(NOTABLE, log + [ArgumentReturned(k)], free);
  }

  function TraceEvents(tracing: bool): seq<Event> {
    if tracing then [Sent(Trace, Known(CalloutAPI), [Known(Sender)])] else []
  }

  lemma TracedShows(tracing: bool, log: seq<Event>, w: World)
    ensures Select(NOTABLE, Traced(tracing, log, w).1) == Select(NOTABLE, log) + TraceEvents(tracing)
  {
    if tracing {
      SelectSnoc(NOTABLE, log, Sent(Trace, Known(CalloutAPI), [Known(Sender)]));
    }
  }

  lemma CallShowsItself(args: Arguments, w: World)
    ensures
      var call := Sent(InvokeFunctionWithArguments, Known(RunnerInstance), [Known(ExternalFunction), Array(args.values)]);
      Select(NOTABLE, args.log + [call]) == Select(NOTABLE, args.log) + [call]
  {
    SelectSnoc(NOTABLE, args.log,
      Sent(InvokeFunctionWithArguments, Known(RunnerInstance), [Known(ExternalFunction), Array(args.values)]));
  }

  lemma MeaningShows(sig: Signature, log: seq<Event>, w: World)
    ensures
      var values := Marshalled(sig.arguments, Traced(sig.tracing, log, w).1, w).values;
      Select(NOTABLE, Meaning(sig, log, w).log) == Select(NOTABLE, log) + TraceEvents(sig.tracing) + Pushed(|sig.arguments|)
        + [Sent(InvokeFunctionWithArguments, Known(RunnerInstance), [Known(ExternalFunction), Array(values)])]
        + Freed(sig.arguments, values)
  {
    var types := sig.arguments;
    var start := Traced(sig.tracing, log, w).1;
    TracedShows(sig.tracing, log, w);
    var args := Marshalled(types, start, w);
    MarshalledShows(types, start, w);
    CallShowsItself(args, w);
    var call := Asked(w, InvokeFunctionWithArguments, Known(RunnerInstance), [Known(ExternalFunction), Array(args.values)], args.log);
    ReleasedShows(types, args.values, call.log, w);
    FromPrimitiveShowsNothing(sig.returnType, call.value, Released(types, args.values, call.log, w), w);
  }

  /** Over any run of any compiled method: the call is traced when it should be, the marshalled arguments reach
      the function once and in order, and the freed values are those passed at the string positions. */
  lemma CompiledShows(sig: Signature, m: Machine, w: World)
    ensures
      var start := Traced(sig.tracing, m.log, w).1;
      var values := Marshalled(sig.arguments, start, w).values;
      var r := Run(Compile(sig), Position(0, m), w);
      && r.Some?
      && Select(NOTABLE, r.value.log) == Select(NOTABLE, m.log) + TraceEvents(sig.tracing) + Pushed(|sig.arguments|)
         + [Sent(InvokeFunctionWithArguments, Known(RunnerInstance), [Known(ExternalFunction), Array(values)])]
         + Freed(sig.arguments, values)
  {
    CompiledMeansCall(sig, m, w);
    MeaningShows(sig, m.log, w);
  }

  // ---- the hooks of the arguments ----

  /** The hooks, the call between them, and the frees. */
  predicate Hook(e: Event) {
    match e
    case ArgumentPushed(_) => true
    case ArgumentReturned(_) => true
    case Sent(s, _, _) => s == InvokeFunctionWithArguments
  }

  const HOOKS: Event -> bool := e => Hook(e)

  function Returned(n: nat): seq<Event> {
    seq(n, k requires 0 <= k < n => ArgumentReturned(k))
  }

  /** A marshalling send is no hook. */
  lemma NoHooks(log: seq<Event>, after: seq<Event>)
    requires after == log ||
      (after != [] && Front(after) == log && Last(after).Sent? && Last(after).s != InvokeFunctionWithArguments)
    ensures Select(HOOKS, after) == Select(HOOKS, log)
  {
    if after != log {
      assert after == log + [Last(after)];
      SelectSnoc(HOOKS, log, Last(after));
    }
  }

  lemma ToPrimitiveHooks(t: CType, v: Value, log: seq<Event>, w: World)
    ensures Select(HOOKS, ToPrimitive(t, v, log, w).log) == Select(HOOKS, log)
  {
    NoHooks(log, ToPrimitive(t, v, log, w).log);
  }

  lemma FromPrimitiveHooks(t: CType, v: Value, log: seq<Event>, w: World)
    ensures Select(HOOKS, FromPrimitive(t, v, log, w).log) == Select(HOOKS, log)
  {
    NoHooks(log, FromPrimitive(t, v, log, w).log);
  }

  lemma OneHook(t: CType, k: nat, log: seq<Event>, w: World)
    ensures Select(HOOKS, ToPrimitive(t, w.argument(k, log), log + [ArgumentPushed(k)], w).log)
      == Select(HOOKS, log) + [ArgumentPushed(k)]
  {
    SelectSnoc(HOOKS, log, ArgumentPushed(k));
    ToPrimitiveHooks(t, w.argument(k, log), log + [ArgumentPushed(k)], w);
  }

  lemma {:induction false} MarshalledHooks(types: seq<CType>, log: seq<Event>, w: World)
    ensures Select(HOOKS, Marshalled(types, log, w).log) == Select(HOOKS, log) + Pushed(|types|)
  {
    if types == [] {
      assert Select(HOOKS, log) + [] == Select(HOOKS, log);
    } else {
      var k := |types| - 1;
      MarshalledHooks(Front(types), log, w);
      OneHook(Last(types), k, Marshalled(Front(types), log, w).log, w);
      assert Pushed(|types|) == Pushed(k) + [ArgumentPushed(k)];
      Associative(Select(HOOKS, log), Pushed(k), [ArgumentPushed(k)]);
    }
  }

  lemma {:induction false} ReleasedHooks(types: seq<CType>, values: seq<Value>, log: seq<Event>, w: World)
    requires |types| == |values|
    ensures Select(HOOKS, Released(types, values, log, w)) == Select(HOOKS, log) + Returned(|types|)
  {
    if types != [] {
      var k := |types| - 1;
      var before := Released(Front(types), Front(values), log, w);
      ReleasedHooks(Front(types), Front(values), log, w);
      SelectSnoc(HOOKS, before, ArgumentReturned(k));
      NoHooks(before + [ArgumentReturned(k)], Released(types, values, log, w));
      assert Returned(|types|) == Returned(k) + [ArgumentReturned(k)];
      Associative(Select(HOOKS, log), Returned(k), [ArgumentReturned(k)]);
    } else {
      assert Select(HOOKS, log) + Returned(0) == Select(HOOKS, log);
    }
  }

  lemma CallHook(log: seq<Event>, values: seq<Value>)
    ensures
      var call := Sent(InvokeFunctionWithArguments, Known(RunnerInstance), [Known(ExternalFunction), Array(values)]);
      Select(HOOKS, log + [call]) == Select(HOOKS, log) + [call]
  {
    SelectSnoc(HOOKS, log, Sent(InvokeFunctionWithArguments, Known(RunnerInstance), [Known(ExternalFunction), Array(values)]));
  }

  lemma TraceHooks(tracing: bool, log: seq<Event>, w: World)
    ensures Select(HOOKS, Traced(tracing, log, w).1) == Select(HOOKS, log)
  {
    NoHooks(log, Traced(tracing, log, w).1);
  }

  lemma MeaningHooks(sig: Signature, log: seq<Event>, w: World)
    ensures
      var n, values := |sig.arguments|, Marshalled(sig.arguments, Traced(sig.tracing, log, w).1, w).values;
      Select(HOOKS, Meaning(sig, log, w).log) == Select(HOOKS, log) + Pushed(n)
        + [Sent(InvokeFunctionWithArguments, Known(RunnerInstance), [Known(ExternalFunction), Array(values)])] + Returned(n)
  {
    var start := Traced(sig.tracing, log, w).1;
    var args := Marshalled(sig.arguments, start, w);
    var call := Asked(w, InvokeFunctionWithArguments, Known(RunnerInstance), [Known(ExternalFunction), Array(args.values)], args.log);
    TraceHooks(sig.tracing, log, w);
    MarshalledHooks(sig.arguments, start, w);
    CallHook(args.log, args.values);
    ReleasedHooks(sig.arguments, args.values, call.log, w);
    FromPrimitiveHooks(sig.returnType, call.value, Released(sig.arguments, args.values, call.log, w), w);
  }

  /** Over any run of any compiled method, the hooks of the n arguments run once each and in order, n before
      the one call and n after it. */
  lemma CompiledHooks(sig: Signature, m: Machine, w: World)
    ensures
      var n, values := |sig.arguments|, Marshalled(sig.arguments, Traced(sig.tracing, m.log, w).1, w).values;
      var r := Run(Compile(sig), Position(0, m), w);
      && r.Some?
      && Select(HOOKS, r.value.log) == Select(HOOKS, m.log) + Pushed(n)
         + [Sent(InvokeFunctionWithArguments, Known(RunnerInstance), [Known(ExternalFunction), Array(values)])] + Returned(n)
  {
    CompiledMeansCall(sig, m, w);
    MeaningHooks(sig, m.log, w);
  }
}
