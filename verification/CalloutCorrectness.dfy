/** Running the compiled code is the direct meaning of the signature. */
module CalloutCorrectness {
  import opened Prelude
  import opened CalloutIR
  import opened CalloutCompiler

  // ---- every block is closed ----

  lemma ToIsClosed(t: CType)
    ensures Closed(EmitMarshallTo(t))
  {
    var code := EmitMarshallTo(t);
    if t.BooleanType? { BooleanTargets(); }
  }

  lemma {:induction false} ArgumentsAreClosed(types: seq<CType>)
    ensures Closed(EmitArguments(types))
  {
    if types != [] {
      var before, k := EmitArguments(Front(types)), |types| - 1;
      ArgumentsAreClosed(Front(types));
      ClosedConcat(before, [Argument(k)]);
      ToIsClosed(Last(types));
      ClosedConcat(before + [Argument(k)], EmitMarshallTo(Last(types)));
    }
  }

  lemma {:induction false} ReturnsAreClosed(types: seq<CType>)
    ensures Closed(EmitReturns(types))
  {
    if types != [] {
      var before, k := EmitReturns(Front(types)), |types| - 1;
      ReturnsAreClosed(Front(types));
      ClosedConcat(before, [ReturnArgument(k)]);
      ClosedConcat(before + [ReturnArgument(k)], EmitFree(Last(types), |types|));
    }
  }

  // ---- the effect of each block ----

  /** Run from its start, the code ends with this stack and log. */
  ghost predicate Leaves(code: seq<Instr>, m: Machine, stack: seq<Value>, log: seq<Event>, w: World) {
    var r := Run(code, Position(0, m), w);
    r.Some? && r.value.stack == stack && r.value.log == log
  }

  lemma RunEmpty(m: Machine, w: World)
    ensures Run([], Position(0, m), w) == Some(m)
  {
  }

  lemma RunTo(t: CType, m: Machine, base: seq<Value>, v: Value, w: World)
    requires m.stack == base + [v]
    ensures var e := ToPrimitive(t, v, m.log, w);
      Leaves(EmitMarshallTo(t), m, base + [e.value], e.log, w)
  {
    match t {
      case VoidOrRaw => RunEmpty(m, w);
      case IntType => RunUnarySend(AsInteger, m, base, v, w);
      case CharType => RunUnarySend(AsInteger, m, base, v, w);
      case FloatType => RunUnarySend(AsFloat, m, base, v, w);
      case PointerType => RunUnarySend(TfPointerAddress, m, base, v, w);
      case PointerToStructType(_) => RunUnarySend(TfPointerAddress, m, base, v, w);
      case StructType(_) => RunUnarySend(GetHandle, m, base, v, w);
      case BooleanType => RunBoolean(m, base, v, w);
      case StringClass => RunThroughTemp(MarshallTemp, Known(StringType), PrepareStringForMarshalling, m, base, v, w);
      case OOPType => RunThroughTemp(MarshallTemp, Known(PointerUtils), OopForObject, m, base, v, w);
    }
  }

  lemma RunDifferentFromZero(m: Machine, base: seq<Value>, v: Value, w: World)
    requires m.stack == base + [v]
    ensures var e := FromPrimitive(BooleanType, v, m.log, w);
      Leaves(EmitMarshallFrom(BooleanType), m, base + [e.value], e.log, w)
  {
    var code := EmitMarshallFrom(BooleanType);
    var e := FromPrimitive(BooleanType, v, m.log, w);
    var p1 := Position(1, m.(stack := base + [v] + [Int(0)]));
    Advance(code, Position(0, m), p1, w);
    assert p1.m.stack[|base| + 1..] == [Int(0)] && p1.m.stack[..|base|] == base;
    Advance(code, p1, Position(2, Machine(base + [e.value], m.temps, e.log)), w);
  }

  lemma RunFrom(t: CType, m: Machine, base: seq<Value>, v: Value, w: World)
    requires m.stack == base + [v]
    ensures var e := FromPrimitive(t, v, m.log, w);
      Leaves(EmitMarshallFrom(t), m, base + [e.value], e.log, w)
  {
    match t {
      case CharType => RunUnarySend(AsCharacter, m, base, v, w);
      case BooleanType => RunDifferentFromZero(m, base, v, w);
      case StringClass => RunUnarySend(ReadStringUTF8, m, base, v, w);
      case OOPType => RunThroughTemp(MarshallTemp, Known(PointerUtils), ObjectForOop, m, base, v, w);
      case StructType(n) => RunThroughTemp(StructHandler, Known(StructClass(n)), FromHandle, m, base, v, w);
      case PointerToStructType(n) => RunThroughTemp(StructHandler, Known(StructClass(n)), FromHandle, m, base, v, w);
      case _ => RunEmpty(m, w);
    }
  }

  /** The arguments pile up on whatever is below; no marshalling block disturbs what an earlier one left. */
  lemma {:induction false} RunArguments(types: seq<CType>, m: Machine, w: World)
    ensures var args := Marshalled(types, m.log, w);
      Leaves(EmitArguments(types), m, m.stack + args.values, args.log, w)
  {
    var args := Marshalled(types, m.log, w);
    if types == [] {
      RunEmpty(m, w);
      assert m.stack + args.values == m.stack;
    } else {
      var code, k, to := EmitArguments(Front(types)), |types| - 1, EmitMarshallTo(Last(types));
      var before := Marshalled(Front(types), m.log, w);
      RunArguments(Front(types), m, w);
      ArgumentsAreClosed(Front(types));
      RunConcat(code, [Argument(k)] + to, Position(0, m), w);
      var m1 := Run(code, Position(0, m), w).value;
      var v := w.argument(k, before.log);
      var m2 := Machine(m1.stack + [v], m1.temps, m1.log + [ArgumentPushed(k)]);
      RunConcat([Argument(k)], to, Position(0, m1), w);
      Advance([Argument(k)], Position(0, m1), Position(1, m2), w);
      RunTo(Last(types), m2, m1.stack, v, w);
      assert code + ([Argument(k)] + to) == EmitArguments(types);
      assert m1.stack + [args.values[k]] == m.stack + args.values;
    }
  }

  lemma RunCall(m: Machine, base: seq<Value>, receiver: Value, target: Value, values: seq<Value>, w: World)
    requires m.stack == base + [receiver, target] + values
    ensures var e := Asked(w, InvokeFunctionWithArguments, receiver, [target, Array(values)], m.log);
      Run(CallCode(|values|), Position(0, m), w)
      == Some(Machine(base + [e.value], m.temps[ArgumentsArray := Array(values)], e.log))
  {
    var code := CallCode(|values|);
    var e := Asked(w, InvokeFunctionWithArguments, receiver, [target, Array(values)], m.log);
    var s := base + [receiver, target] + [Array(values)];
    var temps := m.temps[ArgumentsArray := Array(values)];
    var declared := if ArgumentsArray in m.temps then m.temps else m.temps[ArgumentsArray := Nil];
    assert m.stack[|base| + 2..] == values && m.stack[..|base| + 2] == base + [receiver, target];
    Advance(code, Position(0, m), Position(1, Machine(s, m.temps, m.log)), w);
    Advance(code, Position(1, Machine(s, m.temps, m.log)), Position(2, Machine(s, declared, m.log)), w);
    assert declared[ArgumentsArray := Array(values)] == temps;
    Advance(code, Position(2, Machine(s, declared, m.log)), Position(3, Machine(s, temps, m.log)), w);
    assert s[|base| + 1..] == [target, Array(values)] && s[..|base|] == base;
    Advance(code, Position(3, Machine(s, temps, m.log)), Position(4, Machine(base + [e.value], temps, e.log)), w);
  }

  /** The code that frees a string argument touches that argument only and leaves stack and temps alone. */
  lemma RunFree(index: nat, values: seq<Value>, m: Machine, w: World)
    requires 1 <= index <= |values|
    requires ArgumentsArray in m.temps && m.temps[ArgumentsArray] == Array(values)
    ensures Run(EmitFree(StringClass, index), Position(0, m), w)
      == Some(m.(log := m.log + [Sent(FreeValueIfNeeded, Known(StringType), [values[index - 1]])]))
  {
    var code := EmitFree(StringClass, index);
    var s := m.stack;
    var stringType, v := Known(StringType), values[index - 1];
    var e := Asked(w, FreeValueIfNeeded, stringType, [v], m.log);
    var p1 := Position(1, m.(stack := s + [stringType]));
    var p2 := Position(2, m.(stack := s + [stringType] + [Array(values)]));
    var p3 := Position(3, m.(stack := s + [stringType] + [Array(values)] + [Int(index)]));
    var p4 := Position(4, m.(stack := s + [stringType] + [v]));
    var p5 := Position(5, m.(stack := s + [e.value], log := e.log));
    Advance(code, Position(0, m), p1, w);
    Advance(code, p1, p2, w);
    Advance(code, p2, p3, w);
    assert p3.m.stack[|s| + 2..] == [Int(index)] && p3.m.stack[..|s| + 1] == s + [stringType];
    Advance(code, p3, p4, w);
    assert p4.m.stack[|s| + 1..] == [v] && p4.m.stack[..|s|] == s;
    Advance(code, p4, p5, w);
    assert p5.m.stack[..|s|] == s;
    Advance(code, p5, Position(6, m.(log := e.log)), w);
  }

  lemma {:induction false} RunReturns(types: seq<CType>, values: seq<Value>, m: Machine, w: World)
    requires |types| <= |values|
    requires ArgumentsArray in m.temps && m.temps[ArgumentsArray] == Array(values)
    ensures Run(EmitReturns(types), Position(0, m), w)
      == Some(m.(log := Released(types, values[..|types|], m.log, w)))
  {
    if types != [] {
      var code, k, free := EmitReturns(Front(types)), |types| - 1, EmitFree(Last(types), |types|);
      RunReturns(Front(types), values, m, w);
      ReturnsAreClosed(Front(types));
      RunConcat(code, [ReturnArgument(k)] + free, Position(0, m), w);
      assert Front(values[..|types|]) == values[..k];
      var m1 := m.(log := Released(Front(types), values[..k], m.log, w));
      var m2 := m1.(log := m1.log + [ArgumentReturned(k)]);
      RunConcat([ReturnArgument(k)], free, Position(0, m1), w);
      Advance([ReturnArgument(k)], Position(0, m1), Position(1, m2), w);
      assert code + ([ReturnArgument(k)] + free) == EmitReturns(types);
      if Last(types).StringClass? {
        RunFree(|types|, values, m2, w);
      } else {
        RunEmpty(m2, w);
      }
    }
  }

  lemma RunTrace(tracing: bool, m: Machine, w: World)
    ensures var t := Traced(tracing, m.log, w);
      Run(TraceCode(tracing), Position(0, m), w) == Some(Machine(m.stack + t.0, m.temps, t.1))
  {
    var t := Traced(tracing, m.log, w);
    var code := TraceCode(tracing);
    if tracing {
      var p1 := Position(1, m.(stack := m.stack + [Known(CalloutAPI)]));
      var p2 := Position(2, m.(stack := m.stack + [Known(CalloutAPI)] + [Known(Sender)]));
      Advance(code, Position(0, m), p1, w);
      Advance(code, p1, p2, w);
      assert p2.m.stack[|m.stack| + 1..] == [Known(Sender)] && p2.m.stack[..|m.stack|] == m.stack;
      Advance(code, p2, Position(3, Machine(m.stack + t.0, m.temps, t.1)), w);
    } else {
      assert m.stack + [] == m.stack;
      RunEmpty(m, w);
    }
  }

  lemma RunReceiver(m: Machine, w: World)
    ensures Run(RECEIVER_CODE, Position(0, m), w)
      == Some(m.(stack := m.stack + [Known(RunnerInstance), Known(ExternalFunction)]))
  {
    var p1 := Position(1, m.(stack := m.stack + [Known(RunnerInstance)]));
    var s := m.stack + [Known(RunnerInstance), Known(ExternalFunction)];
    Advance(RECEIVER_CODE, Position(0, m), p1, w);
    assert p1.m.stack + [Known(ExternalFunction)] == s;
    Advance(RECEIVER_CODE, p1, Position(2, m.(stack := s)), w);
  }

  // ---- the whole method ----

  lemma Then(a: seq<Instr>, b: seq<Instr>, m: Machine, next: Machine, w: World)
    requires Closed(a) && Run(a, Position(0, m), w) == Some(next)
    ensures Run(a + b, Position(0, m), w) == Run(b, Position(0, next), w)
  {
    RunConcat(a, b, Position(0, m), w);
  }

  /** From the call on, with the marshalled arguments on the stack. */
  lemma RunFromCall(types: seq<CType>, returnType: CType, m: Machine, base: seq<Value>, values: seq<Value>, w: World)
    requires |values| == |types|
    requires m.stack == base + [Known(RunnerInstance), Known(ExternalFunction)] + values
    ensures
      var call := Asked(w, InvokeFunctionWithArguments, Known(RunnerInstance), [Known(ExternalFunction), Array(values)], m.log);
      var e := FromPrimitive(returnType, call.value, Released(types, values, call.log, w), w);
      Leaves(CallCode(|types|) + (EmitReturns(types) + EmitMarshallFrom(returnType)), m, base + [e.value], e.log, w)
  {
    var call := Asked(w, InvokeFunctionWithArguments, Known(RunnerInstance), [Known(ExternalFunction), Array(values)], m.log);
    var called := Machine(base + [call.value], m.temps[ArgumentsArray := Array(values)], call.log);
    RunCall(m, base, Known(RunnerInstance), Known(ExternalFunction), values, w);
    Then(CallCode(|types|), EmitReturns(types) + EmitMarshallFrom(returnType), m, called, w);
    assert values[..|types|] == values;
    RunReturns(types, values, called, w);
    ReturnsAreClosed(types);
    var released := called.(log := Released(types, values, call.log, w));
    Then(EmitReturns(types), EmitMarshallFrom(returnType), called, released, w);
    RunFrom(returnType, released, base, call.value, w);
  }

  /** For every signature, whatever the sends answer and whatever stack and temps it starts with, the
      compiled code runs to its end and does what `Meaning` says: its result is one above the entry
      depth, or one above the answer of the trace send. */
  lemma CompiledMeansCall(sig: Signature, m: Machine, w: World)
    ensures var e := Meaning(sig, m.log, w);
      Leaves(Compile(sig), m, m.stack + Traced(sig.tracing, m.log, w).0 + [e.value], e.log, w)
  {
    var types := sig.arguments;
    var trace, arguments := TraceCode(sig.tracing), EmitArguments(types);
    var fromCall := CallCode(|types|) + (EmitReturns(types) + EmitMarshallFrom(sig.returnType));
    var t := Traced(sig.tracing, m.log, w);
    var base := m.stack + t.0;
    var traced := Machine(base, m.temps, t.1);
    var ready := traced.(stack := base + [Known(RunnerInstance), Known(ExternalFunction)]);
    RunTrace(sig.tracing, m, w);
    Then(trace, RECEIVER_CODE + (arguments + fromCall), m, traced, w);
    RunReceiver(traced, w);
    Then(RECEIVER_CODE, arguments + fromCall, traced, ready, w);
    RunArguments(types, ready, w);
    ArgumentsAreClosed(types);
    var marshalled := Run(arguments, Position(0, ready), w).value;
    Then(arguments, fromCall, ready, marshalled, w);
    RunFromCall(types, sig.returnType, marshalled, base, Marshalled(types, t.1, w).values, w);
    CompileFromLeft(sig);
  }

  lemma CompileFromLeft(sig: Signature)
    ensures Compile(sig) == TraceCode(sig.tracing) + (RECEIVER_CODE + (EmitArguments(sig.arguments)
      + (CallCode(|sig.arguments|) + (EmitReturns(sig.arguments) + EmitMarshallFrom(sig.returnType)))))
  {
    FromLeft(TraceCode(sig.tracing), RECEIVER_CODE, EmitArguments(sig.arguments), CallCode(|sig.arguments|),
      EmitReturns(sig.arguments), EmitMarshallFrom(sig.returnType));
  }

  lemma FromLeft<T>(a: seq<T>, b: seq<T>, c: seq<T>, d: seq<T>, e: seq<T>, f: seq<T>)
    ensures a + b + c + d + e + f == a + (b + (c + (d + (e + f))))
  {
  }
}
