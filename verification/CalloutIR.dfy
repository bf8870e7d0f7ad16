/** The intermediate code that the callout compiler emits, and what running it does.

    Every message send is answered by a `World` that may depend on all that was sent before; only
    `==`, `~=` between integers and `at:` on an array have a fixed meaning. A forward jump binds to
    the next target of its label. */
module CalloutIR {
  import opened Prelude

  datatype Selector =
    | Trace | InvokeFunctionWithArguments | Identical | Different | At
    | AsInteger | AsFloat | AsCharacter | TfPointerAddress | GetHandle | FromHandle
    | OopForObject | ObjectForOop | ReadStringUTF8 | PrepareStringForMarshalling | FreeValueIfNeeded

  function Arity(s: Selector): nat {
    match s
    case Trace => 1
    case InvokeFunctionWithArguments => 2
    case Identical => 1
    case Different => 1
    case At => 1
    case FromHandle => 1
    case OopForObject => 1
    case ObjectForOop => 1
    case PrepareStringForMarshalling => 1
    case FreeValueIfNeeded => 1
    case _ => 0
  }

  datatype Constant = CalloutAPI | Sender | RunnerInstance | ExternalFunction | PointerUtils | StringType | StructClass(n: nat)

  datatype Value = Nil | Bool(b: bool) | Int(n: int) | Known(c: Constant) | Object(id: nat) | Array(elements: seq<Value>)

  datatype Label = FalseLabel | EndLabel

  datatype Temp = ArgumentsArray | MarshallTemp | StructHandler

  /** `Argument(k)` and `ReturnArgument(k)` stand for the code of the UFFI hooks of argument `k`:
      the first pushes one value, the second leaves the stack as it is. */
  datatype Instr =
    | PushLiteral(v: Value) | PushTemp(t: Temp) | StoreTemp(t: Temp) | AddTemp(t: Temp) | PopTop
    | Send(s: Selector) | PushConsArray(n: nat)
    | JumpAheadIf(l: Label, on: bool) | JumpAhead(l: Label) | JumpAheadTarget(l: Label)
    | Argument(k: nat) | ReturnArgument(k: nat)

  datatype Event =
    | Sent(s: Selector, receiver: Value, args: seq<Value>)
    | ArgumentPushed(k: nat)
    | ArgumentReturned(k: nat)

  /** The answers of sends and the values of the arguments, given all that happened before. */
  datatype World = World(
    answer: (Selector, Value, seq<Value>, seq<Event>) -> Value,
    argument: (nat, seq<Event>) -> Value
  )

  datatype Machine = Machine(stack: seq<Value>, temps: map<Temp, Value>, log: seq<Event>)

  // ---- sends ----

  /** The answer of a send and the log after it. */
  datatype Effect = Effect(value: Value, log: seq<Event>)

  function Asked(w: World, s: Selector, receiver: Value, args: seq<Value>, log: seq<Event>): Effect {
    Effect(w.answer(s, receiver, args, log), log + [Sent(s, receiver, args)])
  }

  function Evaluated(w: World, s: Selector, receiver: Value, args: seq<Value>, log: seq<Event>): Effect
    requires |args| == Arity(s)
  {
    match s
    case Identical => Effect(Bool(receiver == args[0]), log)
    case Different =>
      if receiver.Int? && args[0].Int? then Effect(Bool(receiver.n != args[0].n), log)
      else Asked(w, s, receiver, args, log)
    case At =>
      if receiver.Array? && args[0].Int? && 1 <= args[0].n <= |receiver.elements| then
        Effect(receiver.elements[args[0].n - 1], log)
      else Asked(w, s, receiver, args, log)
    case _ => Asked(w, s, receiver, args, log)
  }

  // ---- one step ----

  /** The first target of `l` at or after `from`. */
  function FindTarget(code: seq<Instr>, from: nat, l: Label): (r: Option<nat>)
    ensures r.Some? ==> from <= r.value < |code| && code[r.value] == JumpAheadTarget(l)
    decreases |code| - from
  {
    if from >= |code| then None
    else if code[from] == JumpAheadTarget(l) then Some(from)
    else FindTarget(code, from + 1, l)
  }

  datatype Position = Position(pc: nat, m: Machine)

  function Push(m: Machine, v: Value): Machine {
    m.(stack := m.stack + [v])
  }

  /** The position after the instruction at `pc`, or None when it cannot be executed. */
  function Step(code: seq<Instr>, p: Position, w: World): (r: Option<Position>)
    requires p.pc < |code|
    ensures r.Some? ==> p.pc < r.value.pc <= |code|
  {
    var m := p.m;
    var n := |m.stack|;
    match code[p.pc]
    case PushLiteral(v) => Some(Position(p.pc + 1, Push(m, v)))
    case PushTemp(t) => if t in m.temps then Some(Position(p.pc + 1, Push(m, m.temps[t]))) else None
    case StoreTemp(t) =>
      if n > 0 && t in m.temps then Some(Position(p.pc + 1, m.(temps := m.temps[t := m.stack[n - 1]]))) else None
    case AddTemp(t) => Some(Position(p.pc + 1, if t in m.temps then m else m.(temps := m.temps[t := Nil])))
    case PopTop => if n > 0 then Some(Position(p.pc + 1, m.(stack := m.stack[..n - 1]))) else None
    case Send(s) =>
      if n < Arity(s) + 1 then None else
      var base := n - Arity(s) - 1;
      var e := Evaluated(w, s, m.stack[base], m.stack[base + 1..], m.log);
      Some(Position(p.pc + 1, Machine(m.stack[..base] + [e.value], m.temps, e.log)))
    case PushConsArray(k) =>
      if n < k then None
      else Some(Position(p.pc + 1, m.(stack := m.stack[..n - k] + [Array(m.stack[n - k..])])))
    case JumpAheadIf(l, on) =>
      if n == 0 || !m.stack[n - 1].Bool? then None else
      var popped := m.(stack := m.stack[..n - 1]);
      if m.stack[n - 1].b != on then Some(Position(p.pc + 1, popped)) else
      var t := FindTarget(code, p.pc + 1, l);
      if t.Some? then Some(Position(t.value, popped)) else None
    case JumpAhead(l) =>
      var t := FindTarget(code, p.pc + 1, l);
      if t.Some? then Some(Position(t.value, m)) else None
    case JumpAheadTarget(_) => Some(p.(pc := p.pc + 1))
    case Argument(k) =>
      Some(Position(p.pc + 1, m.(stack := m.stack + [w.argument(k, m.log)], log := m.log + [ArgumentPushed(k)])))
    case ReturnArgument(k) => Some(Position(p.pc + 1, m.(log := m.log + [ArgumentReturned(k)])))
  }

  /** The machine at the end of the code, or None when some instruction cannot be executed. */
  function Run(code: seq<Instr>, p: Position, w: World): Option<Machine>
    requires p.pc <= |code|
    decreases |code| - p.pc
  {
    if p.pc == |code| then Some(p.m)
    else
      var next := Step(code, p, w);
      if next.Some? then Run(code, next.value, w) else None
  }

  // ---- composing code ----

  /** Every jump of the code finds its target inside the code. */
  ghost predicate Closed(code: seq<Instr>) {
    forall pc :: 0 <= pc < |code| ==>
      match code[pc]
      case JumpAheadIf(l, _) => FindTarget(code, pc + 1, l).Some?
      case JumpAhead(l) => FindTarget(code, pc + 1, l).Some?
      case _ => true
  }

  lemma {:induction false} FindInSuffix(a: seq<Instr>, b: seq<Instr>, from: nat, l: Label)
    ensures FindTarget(a + b, |a| + from, l) ==
      if FindTarget(b, from, l).Some? then Some(|a| + FindTarget(b, from, l).value) else None
    decreases |b| - from
  {
    if from < |b| {
      assert (a + b)[|a| + from] == b[from];
      FindInSuffix(a, b, from + 1, l);
    }
  }

  lemma {:induction false} FindInPrefix(a: seq<Instr>, b: seq<Instr>, from: nat, l: Label)
    requires FindTarget(a, from, l).Some?
    ensures FindTarget(a + b, from, l) == FindTarget(a, from, l)
    decreases |a| - from
  {
    assert (a + b)[from] == a[from];
    if a[from] != JumpAheadTarget(l) {
      FindInPrefix(a, b, from + 1, l);
    }
  }

  /** No interference between blocks: wherever a closed block is placed, and whatever labels the code
      around it uses, its jumps bind to its own targets. */
  lemma JumpsStayInBlock(a: seq<Instr>, b: seq<Instr>, c: seq<Instr>, pc: nat, l: Label)
    requires FindTarget(b, pc + 1, l).Some?
    ensures FindTarget(a + b + c, |a| + pc + 1, l) == Some(|a| + FindTarget(b, pc + 1, l).value)
  {
    FindInPrefix(b, c, pc + 1, l);
    FindInSuffix(a, b + c, pc + 1, l);
    assert a + (b + c) == a + b + c;
  }

  lemma ClosedConcat(a: seq<Instr>, b: seq<Instr>)
    requires Closed(a) && Closed(b)
    ensures Closed(a + b)
  {
    var ab := a + b;
    forall pc, l | 0 <= pc < |ab| && (ab[pc] == JumpAhead(l) || ab[pc] == JumpAheadIf(l, false) || ab[pc] == JumpAheadIf(l, true))
      ensures FindTarget(ab, pc + 1, l).Some?
    {
      if pc < |a| {
        FindInPrefix(a, b, pc + 1, l);
      } else {
        assert ab[pc] == b[pc - |a|];
        FindInSuffix(a, b, pc - |a| + 1, l);
      }
    }
  }

  lemma StepInPrefix(a: seq<Instr>, b: seq<Instr>, p: Position, w: World)
    requires Closed(a) && p.pc < |a|
    ensures Step(a + b, p, w) == Step(a, p, w)
  {
    assert (a + b)[p.pc] == a[p.pc];
    match a[p.pc]
    case JumpAheadIf(l, _) => FindInPrefix(a, b, p.pc + 1, l);
    case JumpAhead(l) => FindInPrefix(a, b, p.pc + 1, l);
    case _ =>
  }

  function Shifted(p: Option<Position>, n: nat): Option<Position> {
    if p.Some? then Some(p.value.(pc := p.value.pc + n)) else None
  }

  lemma StepInSuffix(a: seq<Instr>, b: seq<Instr>, p: Position, w: World)
    requires p.pc < |b|
    ensures Step(a + b, p.(pc := |a| + p.pc), w) == Shifted(Step(b, p, w), |a|)
  {
    assert (a + b)[|a| + p.pc] == b[p.pc];
    match b[p.pc]
    case JumpAheadIf(l, _) => FindInSuffix(a, b, p.pc + 1, l);
    case JumpAhead(l) => FindInSuffix(a, b, p.pc + 1, l);
    case _ =>
  }

  lemma {:induction false} RunSuffix(a: seq<Instr>, b: seq<Instr>, p: Position, w: World)
    requires p.pc <= |b|
    ensures Run(a + b, p.(pc := |a| + p.pc), w) == Run(b, p, w)
    decreases |b| - p.pc
  {
    if p.pc < |b| {
      StepInSuffix(a, b, p, w);
      var next := Step(b, p, w);
      if next.Some? { RunSuffix(a, b, next.value, w); }
    }
  }

  /** Running a closed block and then the rest. */
  lemma {:induction false} RunConcat(a: seq<Instr>, b: seq<Instr>, p: Position, w: World)
    requires Closed(a) && p.pc <= |a|
    ensures Run(a + b, p, w) ==
      var mid := Run(a, p, w);
      if mid.Some? then Run(b, Position(0, mid.value), w) else None
    decreases |a| - p.pc
  {
    if p.pc == |a| {
      RunSuffix(a, b, Position(0, p.m), w);
    } else {
      StepInPrefix(a, b, p, w);
      var next := Step(a, p, w);
      if next.Some? { RunConcat(a, b, next.value, w); }
    }
  }
}
