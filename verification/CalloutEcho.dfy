/** A value that goes through a compiled callout and back.

    Calling a function that answers one of its arguments gives this argument back: an object as itself where
    the conversions of the image are inverse to each other at it, and what stands for a number or an address
    as that number or address. This holds for every type, at every position, among arguments of any types. */
module CalloutEcho {
  import opened Prelude
  import opened CalloutIR
  import opened CalloutCompiler
  import opened CalloutCorrectness
  import opened CalloutEvents

  /** The send answers `v` whenever it happens. */
  ghost predicate Always(w: World, s: Selector, receiver: Value, args: seq<Value>, v: Value) {
    forall log :: w.answer(s, receiver, args, log) == v
  }

  /** Passed as a value of the type, `v` comes back as `back`. */
  ghost predicate ComesBackAs(t: CType, v: Value, back: Value, w: World) {
    match t
    case VoidOrRaw => back == v
    case IntType => Always(w, AsInteger, v, [], back)
    case FloatType => Always(w, AsFloat, v, [], back)
    case PointerType => Always(w, TfPointerAddress, v, [], back)
    case BooleanType => v.Bool? && back == v
    case CharType => back == v && exists c :: Always(w, AsInteger, v, [], c) && Always(w, AsCharacter, c, [], v)
    case StringClass =>
      back == v && exists c :: Always(w, PrepareStringForMarshalling, Known(StringType), [v], c) && Always(w, ReadStringUTF8, c, [], v)
    case OOPType =>
      back == v && exists o :: Always(w, OopForObject, Known(PointerUtils), [v], o) && Always(w, ObjectForOop, Known(PointerUtils), [o], v)
    case StructType(n) =>
      back == v && exists h :: Always(w, GetHandle, v, [], h) && Always(w, FromHandle, Known(StructClass(n)), [h], v)
    case PointerToStructType(n) =>
      back == v && exists a :: Always(w, TfPointerAddress, v, [], a) && Always(w, FromHandle, Known(StructClass(n)), [a], v)
  }

  lemma ThereAndBack(t: CType, v: Value, back: Value, log: seq<Event>, later: seq<Event>, w: World)
    requires ComesBackAs(t, v, back, w)
    ensures FromPrimitive(t, ToPrimitive(t, v, log, w).value, later, w).value == back
  {
  }

  /** The function answers its argument `k`. */
  ghost predicate AnswersArgument(w: World, n: nat, k: nat) {
    k < n && forall values, log :: |values| == n ==>
      w.answer(InvokeFunctionWithArguments, Known(RunnerInstance), [Known(ExternalFunction), Array(values)], log) == values[k]
  }

  lemma MeaningGivesBack(sig: Signature, k: nat, v: Value, back: Value, log: seq<Event>, w: World)
    requires AnswersArgument(w, |sig.arguments|, k) && sig.returnType == sig.arguments[k]
    requires ComesBackAs(sig.returnType, v, back, w) && forall past :: w.argument(k, past) == v
    ensures Meaning(sig, log, w).value == back
  {
    var start := Traced(sig.tracing, log, w).1;
    var args := Marshalled(sig.arguments, start, w);
    var before := Marshalled(sig.arguments[..k], start, w).log;
    MarshalledAt(sig.arguments, start, w, k);
    var call := Asked(w, InvokeFunctionWithArguments, Known(RunnerInstance), [Known(ExternalFunction), Array(args.values)], args.log);
    assert call.value == args.values[k];
    ThereAndBack(sig.returnType, v, back, before + [ArgumentPushed(k)], Released(sig.arguments, args.values, call.log, w), w);
  }

  /** The compiled code leaves on the stack what went in at position `k`. */
  lemma EchoGivesBack(sig: Signature, k: nat, v: Value, back: Value, m: Machine, w: World)
    requires AnswersArgument(w, |sig.arguments|, k) && sig.returnType == sig.arguments[k]
    requires ComesBackAs(sig.returnType, v, back, w) && forall past :: w.argument(k, past) == v
    ensures
      var r := Run(Compile(sig), Position(0, m), w);
      r.Some? && r.value.stack != [] && Last(r.value.stack) == back
  {
    CompiledMeansCall(sig, m, w);
    MeaningGivesBack(sig, k, v, back, m.log, w);
  }
}
