/** The builder itself: it appends instructions while walking the signature, as the image does.
    Its code is what `Compile` says, so all that is proved of `Compile` holds of what it builds. */
module CalloutBuilder {
  import opened Prelude
  import opened CalloutIR
  import opened CalloutCompiler

  class IRBuilder {
    var code: seq<Instr>

    constructor ()
      ensures code == []
    {
      code := [];
    }

    method Emit(i: Instr)
      modifies this
      ensures code == old(code) + [i]
    {
      code := code + [i];
    }

    /** The boolean type uses the same two labels for every argument. */
    method EmitBooleanToPrimitive()
      modifies this
      ensures code == old(code) + EmitMarshallTo(BooleanType)
    {
      Emit(PushLiteral(Bool(true)));
      Emit(Send(Identical));
      Emit(JumpAheadIf(FalseLabel, false));
      Emit(PushLiteral(Int(1)));
      Emit(JumpAhead(EndLabel));
      Emit(JumpAheadTarget(FalseLabel));
      Emit(PushLiteral(Int(0)));
      Emit(JumpAheadTarget(EndLabel));
    }

    /** Move the top into `t`, then send it as the argument to a literal. */
    method EmitThroughTemp(t: Temp, receiver: Constant, s: Selector)
      modifies this
      ensures code == old(code)
        + [AddTemp(t), StoreTemp(t), PopTop, PushLiteral(Known(receiver)), PushTemp(t), Send(s)]
    {
      Emit(AddTemp(t));
      Emit(StoreTemp(t));
      Emit(PopTop);
      Emit(PushLiteral(Known(receiver)));
      Emit(PushTemp(t));
      Emit(Send(s));
    }

    method MarshallToPrimitive(t: CType)
      modifies this
      ensures code == old(code) + EmitMarshallTo(t)
    {
      match t {
        case VoidOrRaw =>
        case IntType => Emit(Send(AsInteger));
        case CharType => Emit(Send(AsInteger));
        case FloatType => Emit(Send(AsFloat));
        case PointerType => Emit(Send(TfPointerAddress));
        case PointerToStructType(_) => Emit(Send(TfPointerAddress));
        case StructType(_) => Emit(Send(GetHandle));
        case BooleanType => EmitBooleanToPrimitive();
        case StringClass => EmitThroughTemp(MarshallTemp, StringType, PrepareStringForMarshalling);
        case OOPType => EmitThroughTemp(MarshallTemp, PointerUtils, OopForObject);
      }
    }

    method MarshallFromPrimitive(t: CType)
      modifies this
      ensures code == old(code) + EmitMarshallFrom(t)
    {
      match t {
        case CharType => Emit(Send(AsCharacter));
        case BooleanType => Emit(PushLiteral(Int(0))); Emit(Send(Different));
        case StringClass => Emit(Send(ReadStringUTF8));
        case OOPType => EmitThroughTemp(MarshallTemp, PointerUtils, ObjectForOop);
        case StructType(n) => EmitThroughTemp(StructHandler, StructClass(n), FromHandle);
        case PointerToStructType(n) => EmitThroughTemp(StructHandler, StructClass(n), FromHandle);
        case _ =>
      }
    }

    method FreeIfNeeded(t: CType, index: nat)
      modifies this
      ensures code == old(code) + EmitFree(t, index)
    {
      if t.StringClass? {
        Emit(PushLiteral(Known(StringType)));
        Emit(PushTemp(ArgumentsArray));
        Emit(PushLiteral(Int(index)));
        Emit(Send(At));
        Emit(Send(FreeValueIfNeeded));
        Emit(PopTop);
      }
    }
  }

  /** Appending the parts one after the other appends the whole. */
  lemma PartsOfCompile(sig: Signature, c0: seq<Instr>, c1: seq<Instr>, c2: seq<Instr>, c3: seq<Instr>, c4: seq<Instr>, c5: seq<Instr>)
    requires c1 == c0 + (TraceCode(sig.tracing) + RECEIVER_CODE)
    requires c2 == c1 + EmitArguments(sig.arguments) && c3 == c2 + CallCode(|sig.arguments|)
    requires c4 == c3 + EmitReturns(sig.arguments) && c5 == c4 + EmitMarshallFrom(sig.returnType)
    ensures c5 == c0 + Compile(sig)
  {
    var head := TraceCode(sig.tracing) + RECEIVER_CODE;
    Associative(c0, head, EmitArguments(sig.arguments));
    Associative(c0, head + EmitArguments(sig.arguments), CallCode(|sig.arguments|));
    Associative(c0, head + EmitArguments(sig.arguments) + CallCode(|sig.arguments|), EmitReturns(sig.arguments));
    Associative(c0, head + EmitArguments(sig.arguments) + CallCode(|sig.arguments|) + EmitReturns(sig.arguments),
      EmitMarshallFrom(sig.returnType));
  }

  method GenerateFFICallout(builder: IRBuilder, sig: Signature)
    modifies builder
    ensures builder.code == old(builder.code) + Compile(sig)
  {
    ghost var c0 := builder.code;
    GenerateReceiver(builder, sig.tracing);
    ghost var c1 := builder.code;
    GenerateArguments(builder, sig.arguments);
    ghost var c2 := builder.code;
    GenerateCall(builder, |sig.arguments|);
    ghost var c3 := builder.code;
    GenerateReturns(builder, sig.arguments);
    ghost var c4 := builder.code;
    builder.MarshallFromPrimitive(sig.returnType);
    PartsOfCompile(sig, c0, c1, c2, c3, c4, builder.code);
  }

  method GenerateReceiver(builder: IRBuilder, tracing: bool)
    modifies builder
    ensures builder.code == old(builder.code) + (TraceCode(tracing) + RECEIVER_CODE)
  {
    if tracing {
      builder.Emit(PushLiteral(Known(CalloutAPI)));
      builder.Emit(PushLiteral(Known(Sender)));
      builder.Emit(Send(Trace));
    }
    builder.Emit(PushLiteral(Known(RunnerInstance)));
    builder.Emit(PushLiteral(Known(ExternalFunction)));
  }

  method GenerateCall(builder: IRBuilder, n: nat)
    modifies builder
    ensures builder.code == old(builder.code) + CallCode(n)
  {
    builder.Emit(PushConsArray(n));
    builder.Emit(AddTemp(ArgumentsArray));
    builder.Emit(StoreTemp(ArgumentsArray));
    builder.Emit(Send(InvokeFunctionWithArguments));
  }

  method GenerateArguments(builder: IRBuilder, types: seq<CType>)
    modifies builder
    ensures builder.code == old(builder.code) + EmitArguments(types)
  {
    for k := 0 to |types|
      invariant builder.code == old(builder.code) + EmitArguments(types[..k])
    {
      ghost var done, block := EmitArguments(types[..k]), EmitMarshallTo(types[k]);
      builder.Emit(Argument(k));
      builder.MarshallToPrimitive(types[k]);
      assert Front(types[..k + 1]) == types[..k];
      Associative(old(builder.code), done, [Argument(k)]);
      Associative(old(builder.code), done + [Argument(k)], block);
    }
    assert types[..|types|] == types;
  }

  method GenerateReturns(builder: IRBuilder, types: seq<CType>)
    modifies builder
    ensures builder.code == old(builder.code) + EmitReturns(types)
  {
    for k := 0 to |types|
      invariant builder.code == old(builder.code) + EmitReturns(types[..k])
    {
      builder.Emit(ReturnArgument(k));
      builder.FreeIfNeeded(types[k], k + 1);
      assert Front(types[..k + 1]) == types[..k];
    }
    assert types[..|types|] == types;
  }
}
