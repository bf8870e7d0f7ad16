/** The callout compiler: the code it emits for a signature and the call that the code stands for.

    `Compile` follows the builder; `Meaning` says directly which sends happen, with which arguments
    and in which order, and what the result is. They are proved equal for every signature. */
module CalloutCompiler {
  import opened Prelude
  import opened CalloutIR

  /** The marshalling classes. `VoidOrRaw` marshalls nothing; booleans of 8 and 32 bits are alike. */
  datatype CType =
    | VoidOrRaw | IntType | CharType | FloatType | PointerType | BooleanType | StringClass | OOPType
    | StructType(n: nat) | PointerToStructType(n: nat)

  datatype Signature = Signature(arguments: seq<CType>, returnType: CType, tracing: bool)

  // ---- emitted code ----

  function EmitMarshallTo(t: CType): seq<Instr> {
    match t
    case VoidOrRaw => []
    case IntType => [Send(AsInteger)]
    case CharType => [Send(AsInteger)]
    case FloatType => [Send(AsFloat)]
    case PointerType => [Send(TfPointerAddress)]
    case PointerToStructType(_) => [Send(TfPointerAddress)]
    case StructType(_) => [Send(GetHandle)]
    case BooleanType =>
      [PushLiteral(Bool(true)), Send(Identical), JumpAheadIf(FalseLabel, false), PushLiteral(Int(1)),
       JumpAhead(EndLabel), JumpAheadTarget(FalseLabel), PushLiteral(Int(0)), JumpAheadTarget(EndLabel)]
    case StringClass =>
      [AddTemp(MarshallTemp), StoreTemp(MarshallTemp), PopTop, PushLiteral(Known(StringType)), PushTemp(MarshallTemp),
       Send(PrepareStringForMarshalling)]
    case OOPType =>
      [AddTemp(MarshallTemp), StoreTemp(MarshallTemp), PopTop, PushLiteral(Known(PointerUtils)), PushTemp(MarshallTemp),
       Send(OopForObject)]
  }

  function FromHandleCode(n: nat): seq<Instr> {
    [AddTemp(StructHandler), StoreTemp(StructHandler), PopTop, PushLiteral(Known(StructClass(n))), PushTemp(StructHandler),
     Send(FromHandle)]
  }

  function EmitMarshallFrom(t: CType): seq<Instr> {
    match t
    case CharType => [Send(AsCharacter)]
    case BooleanType => [PushLiteral(Int(0)), Send(Different)]
    case StringClass => [Send(ReadStringUTF8)]
    case OOPType =>
      [AddTemp(MarshallTemp), StoreTemp(MarshallTemp), PopTop, PushLiteral(Known(PointerUtils)), PushTemp(MarshallTemp),
       Send(ObjectForOop)]
    case StructType(n) => FromHandleCode(n)
    case PointerToStructType(n) => FromHandleCode(n)
    case _ => []
  }

  /** Argument positions are 1-based, as in the image. */
  function EmitFree(t: CType, index: nat): seq<Instr> {
    if t.StringClass? then
      [PushLiteral(Known(StringType)), PushTemp(ArgumentsArray), PushLiteral(Int(index)), Send(At), Send(FreeValueIfNeeded), PopTop]
    else []
  }

  function EmitArguments(types: seq<CType>): seq<Instr> {
    if types == [] then []
    else EmitArguments(Front(types)) + [Argument(|types| - 1)] + EmitMarshallTo(Last(types))
  }

  function EmitReturns(types: seq<CType>): seq<Instr> {
    if types == [] then []
    else EmitReturns(Front(types)) + [ReturnArgument(|types| - 1)] + EmitFree(Last(types), |types|)
  }

  function TraceCode(tracing: bool): seq<Instr> {
    if tracing then [PushLiteral(Known(CalloutAPI)), PushLiteral(Known(Sender)), Send(Trace)] else []
  }

  function CallCode(n: nat): seq<Instr> {
    [PushConsArray(n), AddTemp(ArgumentsArray), StoreTemp(ArgumentsArray), Send(InvokeFunctionWithArguments)]
  }

  const RECEIVER_CODE: seq<Instr> := [PushLiteral(Known(RunnerInstance)), PushLiteral(Known(ExternalFunction))]

  function Compile(sig: Signature): seq<Instr> {
    TraceCode(sig.tracing) + RECEIVER_CODE + EmitArguments(sig.arguments) + CallCode(|sig.arguments|)
    + EmitReturns(sig.arguments) + EmitMarshallFrom(sig.returnType)
  }

  // ---- the direct meaning ----

  function ToPrimitive(t: CType, v: Value, log: seq<Event>, w: World): Effect {
    match t
    case VoidOrRaw => Effect(v, log)
    case IntType => Asked(w, AsInteger, v, [], log)
    case CharType => Asked(w, AsInteger, v, [], log)
    case FloatType => Asked(w, AsFloat, v, [], log)
    case PointerType => Asked(w, TfPointerAddress, v, [], log)
    case PointerToStructType(_) => Asked(w, TfPointerAddress, v, [], log)
    case StructType(_) => Asked(w, GetHandle, v, [], log)
    case BooleanType => Effect(if v == Bool(true) then Int(1) else Int(0), log)
    case StringClass => Asked(w, PrepareStringForMarshalling, Known(StringType), [v], log)
    case OOPType => Asked(w, OopForObject, Known(PointerUtils), [v], log)
  }

  function FromPrimitive(t: CType, v: Value, log: seq<Event>, w: World): Effect {
    match t
    case CharType => Asked(w, AsCharacter, v, [], log)
    case BooleanType => if v.Int? then Effect(Bool(v.n != 0), log) else Asked(w, Different, v, [Int(0)], log)
    case StringClass => Asked(w, ReadStringUTF8, v, [], log)
    case OOPType => Asked(w, ObjectForOop, Known(PointerUtils), [v], log)
    case StructType(n) => Asked(w, FromHandle, Known(StructClass(n)), [v], log)
    case PointerToStructType(n) => Asked(w, FromHandle, Known(StructClass(n)), [v], log)
    case _ => Effect(v, log)
  }

  /** The arguments evaluated and marshalled, first to last. */
  datatype Arguments = Arguments(values: seq<Value>, log: seq<Event>)

  function Marshalled(types: seq<CType>, log: seq<Event>, w: World): (r: Arguments)
    ensures |r.values| == |types|
  {
    if types == [] then Arguments([], log)
    else
      var before := Marshalled(Front(types), log, w);
      var k := |types| - 1;
      var e := ToPrimitive(Last(types), w.argument(k, before.log), before.log + [ArgumentPushed(k)], w);
      Arguments(before.values + [e.value], e.log)
  }

  /** After the call: the hooks of all arguments, and for each string argument one send that gets the
      value that was passed. */
  function Released(types: seq<CType>, values: seq<Value>, log: seq<Event>, w: World): seq<Event>
    requires |types| == |values|
  {
    if types == [] then log
    else
      var before := Released(Front(types), Front(values), log, w) + [ArgumentReturned(|types| - 1)];
      if Last(types).StringClass? then before + [Sent(FreeValueIfNeeded, Known(StringType), [Last(values)])] else before
  }

  /** The answer of the trace send stays under everything else. */
  function Traced(tracing: bool, log: seq<Event>, w: World): (seq<Value>, seq<Event>) {
    if tracing then
      var e := Asked(w, Trace, Known(CalloutAPI), [Known(Sender)], log);
      ([e.value], e.log)
    else ([], log)
  }

  function Meaning(sig: Signature, log: seq<Event>, w: World): Effect {
    var start := Traced(sig.tracing, log, w).1;
    var args := Marshalled(sig.arguments, start, w);
    var call := Asked(w, InvokeFunctionWithArguments, Known(RunnerInstance), [Known(ExternalFunction), Array(args.values)], args.log);
    FromPrimitive(sig.returnType, call.value, Released(sig.arguments, args.values, call.log, w), w)
  }

  // ---- running blocks ----

  /** One instruction. */
  lemma Advance(code: seq<Instr>, p: Position, q: Position, w: World)
    requires p.pc < |code| && Step(code, p, w) == Some(q)
    ensures Run(code, p, w) == Run(code, q, w)
  {
  }

  /** A block of one send without arguments. */
  lemma RunUnarySend(s: Selector, m: Machine, base: seq<Value>, v: Value, w: World)
    requires Arity(s) == 0 && m.stack == base + [v]
    ensures var e := Evaluated(w, s, v, [], m.log);
      Run([Send(s)], Position(0, m), w) == Some(Machine(base + [e.value], m.temps, e.log))
  {
    var code := [Send(s)];
    var e := Evaluated(w, s, v, [], m.log);
    var q := Position(1, Machine(base + [e.value], m.temps, e.log));
    assert m.stack[|base|..][1..] == [] && m.stack[|base| + 1..] == [] && m.stack[..|base|] == base;
    Advance(code, Position(0, m), q, w);
  }

  /** The top goes into the temp `t`. */
  lemma RunStore(code: seq<Instr>, t: Temp, m: Machine, base: seq<Value>, v: Value, w: World)
    requires |code| >= 3 && code[..3] == [AddTemp(t), StoreTemp(t), PopTop] && m.stack == base + [v]
    ensures Run(code, Position(0, m), w) == Run(code, Position(3, Machine(base, m.temps[t := v], m.log)), w)
  {
    assert code[0] == AddTemp(t) && code[1] == StoreTemp(t) && code[2] == PopTop;
    var declared := if t in m.temps then m else m.(temps := m.temps[t := Nil]);
    assert declared.temps[t := v] == m.temps[t := v];
    var p1 := Position(1, declared);
    var p2 := Position(2, m.(temps := m.temps[t := v]));
    Advance(code, Position(0, m), p1, w);
    Advance(code, p1, p2, w);
    assert m.stack[..|m.stack| - 1] == base;
    Advance(code, p2, Position(3, Machine(base, m.temps[t := v], m.log)), w);
  }

  /** Through the temp `t`: the top becomes the argument of a send to the literal `receiver`. */
  lemma RunThroughTemp(t: Temp, receiver: Value, s: Selector, m: Machine, base: seq<Value>, v: Value, w: World)
    requires Arity(s) == 1 && m.stack == base + [v] && s != Identical && s != Different && s != At
    ensures
      var code := [AddTemp(t), StoreTemp(t), PopTop, PushLiteral(receiver), PushTemp(t), Send(s)];
      var e := Asked(w, s, receiver, [v], m.log);
      Run(code, Position(0, m), w) == Some(Machine(base + [e.value], m.temps[t := v], e.log))
  {
    var code := [AddTemp(t), StoreTemp(t), PopTop, PushLiteral(receiver), PushTemp(t), Send(s)];
    var e := Asked(w, s, receiver, [v], m.log);
    var temps := m.temps[t := v];
    RunStore(code, t, m, base, v, w);
    var p3 := Position(3, Machine(base, temps, m.log));
    var p4 := Position(4, Machine(base + [receiver], temps, m.log));
    var p5 := Position(5, Machine(base + [receiver] + [v], temps, m.log));
    Advance(code, p3, p4, w);
    Advance(code, p4, p5, w);
    assert p5.m.stack[|base| + 1..] == [v] && p5.m.stack[..|base|] == base;
    Advance(code, p5, Position(6, Machine(base + [e.value], temps, e.log)), w);
  }

  lemma BooleanTargets()
    ensures FindTarget(EmitMarshallTo(BooleanType), 3, FalseLabel) == Some(5)
    ensures FindTarget(EmitMarshallTo(BooleanType), 5, EndLabel) == Some(7)
  {
    var code := EmitMarshallTo(BooleanType);
    assert FindTarget(code, 5, FalseLabel) == Some(5);
    assert FindTarget(code, 4, FalseLabel) == Some(5);
    assert FindTarget(code, 7, EndLabel) == Some(7);
    assert FindTarget(code, 6, EndLabel) == Some(7);
  }

  /** The test of the boolean code. */
  lemma RunIdentical(m: Machine, base: seq<Value>, v: Value, w: World)
    requires m.stack == base + [v]
    ensures Run(EmitMarshallTo(BooleanType), Position(0, m), w)
      == Run(EmitMarshallTo(BooleanType), Position(2, m.(stack := base + [Bool(v == Bool(true))])), w)
  {
    var code := EmitMarshallTo(BooleanType);
    var p1 := Position(1, m.(stack := base + [v] + [Bool(true)]));
    Advance(code, Position(0, m), p1, w);
    assert p1.m.stack[|base| + 1..] == [Bool(true)] && p1.m.stack[..|base|] == base;
    Advance(code, p1, Position(2, m.(stack := base + [Bool(v == Bool(true))])), w);
  }

  /** The branching code of booleans: both paths meet with one value on the stack. */
  lemma RunBoolean(m: Machine, base: seq<Value>, v: Value, w: World)
    requires m.stack == base + [v]
    ensures Run(EmitMarshallTo(BooleanType), Position(0, m), w)
      == Some(Machine(base + [if v == Bool(true) then Int(1) else Int(0)], m.temps, m.log))
  {
    var code := EmitMarshallTo(BooleanType);
    var below := m.(stack := base);
    var p2 := Position(2, m.(stack := base + [Bool(v == Bool(true))]));
    RunIdentical(m, base, v, w);
    assert p2.m.stack[..|base|] == base;
    BooleanTargets();
    if v == Bool(true) {
      Advance(code, p2, Position(3, below), w);
      Advance(code, Position(3, below), Position(4, Push(below, Int(1))), w);
      Advance(code, Position(4, Push(below, Int(1))), Position(7, Push(below, Int(1))), w);
      Advance(code, Position(7, Push(below, Int(1))), Position(8, Push(below, Int(1))), w);
    } else {
      Advance(code, p2, Position(5, below), w);
      Advance(code, Position(5, below), Position(6, below), w);
      Advance(code, Position(6, below), Position(7, Push(below, Int(0))), w);
      Advance(code, Position(7, Push(below, Int(0))), Position(8, Push(below, Int(0))), w);
    }
  }
}
