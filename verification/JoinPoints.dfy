/** Stack heights of compiled code: all control paths reach an instruction at the same height. */
module JoinPoints {
  import opened Prelude
  import opened CalloutIR
  import opened CalloutCompiler
  import opened CalloutCorrectness

  /** How an instruction changes the height of the stack. */
  function Delta(i: Instr): int {
    match i
    case PushLiteral(_) => 1
    case PushTemp(_) => 1
    case StoreTemp(_) => 0
    case AddTemp(_) => 0
    case PopTop => -1
    case Send(s) => 0 - Arity(s)
    case PushConsArray(n) => 1 - n
    case JumpAheadIf(_, _) => -1
    case JumpAhead(_) => 0
    case JumpAheadTarget(_) => 0
    case Argument(_) => 1
    case ReturnArgument(_) => 0
  }

  /** How many values an instruction takes from the stack. */
  function Needs(i: Instr): nat {
    match i
    case StoreTemp(_) => 1
    case PopTop => 1
    case Send(s) => Arity(s) + 1
    case PushConsArray(n) => n
    case JumpAheadIf(_, _) => 1
    case _ => 0
  }

  /** Control may go from `pc` to `next`; both ways of a conditional jump count. */
  ghost predicate Flows(code: seq<Instr>, pc: nat, next: nat)
    requires pc < |code|
  {
    match code[pc]
    case JumpAheadIf(l, _) => next == pc + 1 || FindTarget(code, pc + 1, l) == Some(next)
    case JumpAhead(l) => FindTarget(code, pc + 1, l) == Some(next)
    case _ => next == pc + 1
  }

  /** A control path from the start of the code. */
  ghost predicate Path(code: seq<Instr>, path: seq<nat>) {
    && path != []
    && path[0] == 0
    && (forall k :: 0 <= k < |path| ==> path[k] <= |code|)
    && (forall k :: 0 <= k < |path| - 1 ==> path[k] < |code| && Flows(code, path[k], path[k + 1]))
  }

  /** The height at the end of a path that starts at height `entry`. */
  function Height(code: seq<Instr>, path: seq<nat>, entry: int): int
    requires forall k :: 0 <= k < |path| - 1 ==> path[k] < |code|
  {
    if |path| <= 1 then entry else Height(code, Front(path), entry) + Delta(code[path[|path| - 2]])
  }

  /** One height per position, the end included, that every flow of control respects. */
  ghost predicate Respected(code: seq<Instr>, d: seq<int>) {
    && |d| == |code| + 1
    && (forall pc :: 0 <= pc < |code| ==> Needs(code[pc]) <= d[pc])
    && (forall pc, next: nat :: 0 <= pc < |code| && Flows(code, pc, next) ==>
          next <= |code| && d[next] == d[pc] + Delta(code[pc]))
  }

  /** The machine follows the control flow and the heights. */
  lemma StepFollowsFlow(code: seq<Instr>, p: Position, w: World)
    requires p.pc < |code| && Step(code, p, w).Some?
    ensures var q := Step(code, p, w).value;
      && Flows(code, p.pc, q.pc)
      && |q.m.stack| == |p.m.stack| + Delta(code[p.pc])
      && Needs(code[p.pc]) <= |p.m.stack|
  {
  }

  lemma {:induction false} PathsAgree(code: seq<Instr>, d: seq<int>, path: seq<nat>)
    requires Respected(code, d) && Path(code, path)
    ensures Height(code, path, d[0]) == d[Last(path)]
  {
    if |path| > 1 {
      var n := |path| - 1;
      assert Path(code, Front(path)) by {
        forall k | 0 <= k < n - 1 ensures Flows(code, Front(path)[k], Front(path)[k + 1]) {
          assert Flows(code, path[k], path[k + 1]);
        }
      }
      PathsAgree(code, d, Front(path));
      assert Flows(code, path[n - 1], path[n - 1 + 1]);
    }
  }

  /** Blocks compose when the first ends at the height at which the second starts. */
  lemma Compose(a: seq<Instr>, da: seq<int>, b: seq<Instr>, db: seq<int>)
    requires Respected(a, da) && Closed(a) && Respected(b, db) && da[|a|] == db[0]
    ensures Respected(a + b, da[..|a|] + db)
  {
    var ab, d := a + b, da[..|a|] + db;
    forall pc | 0 <= pc < |ab| ensures Needs(ab[pc]) <= d[pc] {
      if pc < |a| { assert ab[pc] == a[pc]; } else { assert ab[pc] == b[pc - |a|]; }
    }
    forall pc: nat, next: nat | pc < |ab| && Flows(ab, pc, next)
      ensures next <= |ab| && d[next] == d[pc] + Delta(ab[pc])
    {
      if pc < |a| {
        assert ab[pc] == a[pc];
        FlowInPrefix(a, b, pc, next);
        assert d[next] == da[next];
      } else {
        assert ab[pc] == b[pc - |a|];
        FlowInSuffix(a, b, pc, next);
        assert d[next] == db[next - |a|];
      }
    }
  }

  lemma FlowInPrefix(a: seq<Instr>, b: seq<Instr>, pc: nat, next: nat)
    requires Closed(a) && pc < |a| && Flows(a + b, pc, next)
    ensures Flows(a, pc, next)
  {
    assert (a + b)[pc] == a[pc];
    match a[pc] {
      case JumpAheadIf(l, _) => FindInPrefix(a, b, pc + 1, l);
      case JumpAhead(l) => FindInPrefix(a, b, pc + 1, l);
      case _ =>
    }
  }

  lemma FlowInSuffix(a: seq<Instr>, b: seq<Instr>, pc: nat, next: nat)
    requires |a| <= pc < |a + b| && Flows(a + b, pc, next)
    ensures |a| <= next && Flows(b, pc - |a|, next - |a|)
  {
    assert (a + b)[pc] == b[pc - |a|];
    match b[pc - |a|] {
      case JumpAheadIf(l, _) => FindInSuffix(a, b, pc - |a| + 1, l);
      case JumpAhead(l) => FindInSuffix(a, b, pc - |a| + 1, l);
      case _ =>
    }
  }

  // ---- the heights of each block ----

  /** The code can run from height `entry` to height `exit`, with one height for each position. */
  ghost predicate Balanced(code: seq<Instr>, entry: nat, exit: nat) {
    Closed(code) && exists d :: Respected(code, d) && d[0] == entry && d[|code|] == exit
  }

  lemma Chain(a: seq<Instr>, b: seq<Instr>, x: nat, y: nat, z: nat)
    requires Balanced(a, x, y) && Balanced(b, y, z)
    ensures Balanced(a + b, x, z)
  {
    var da :| Respected(a, da) && da[0] == x && da[|a|] == y;
    var db :| Respected(b, db) && db[0] == y && db[|b|] == z;
    Compose(a, da, b, db);
    ClosedConcat(a, b);
    var d := da[..|a|] + db;
    assert d[0] == x && d[|a + b|] == z;
  }

  /** One instruction that is not a jump. */
  lemma Single(i: Instr, x: nat)
    requires !i.JumpAhead? && !i.JumpAheadIf? && Needs(i) <= x
    ensures x + Delta(i) >= 0 && Balanced([i], x, x + Delta(i))
  {
    var d := [x, x + Delta(i)];
    assert Respected([i], d) && d[0] == x && d[|[i]|] == x + Delta(i);
  }

  ghost predicate NoJumps(code: seq<Instr>) {
    forall k :: 0 <= k < |code| ==> !code[k].JumpAhead? && !code[k].JumpAheadIf?
  }

  /** Code without jumps, with the height at each position. */
  lemma Straight(code: seq<Instr>, d: seq<int>)
    requires NoJumps(code) && |d| == |code| + 1 && d[0] >= 0 && d[|code|] >= 0
    requires forall k :: 0 <= k < |code| ==> Needs(code[k]) <= d[k] && d[k + 1] == d[k] + Delta(code[k])
    ensures Balanced(code, d[0], d[|code|])
  {
    assert Respected(code, d);
  }

  /** The two paths of the boolean code meet at one height. */
  lemma BooleanIsBalanced(x: nat)
    ensures Balanced(EmitMarshallTo(BooleanType), x + 1, x + 1)
  {
    var code := EmitMarshallTo(BooleanType);
    var d := [x + 1, x + 2, x + 1, x, x + 1, x, x, x + 1, x + 1];
    ToIsClosed(BooleanType);
    BooleanTargets();
    assert Respected(code, d);
    assert d[0] == x + 1 && d[|code|] == x + 1;
  }

  lemma ThroughTempIsBalanced(t: Temp, receiver: Value, s: Selector, x: nat)
    requires Arity(s) == 1
    ensures Balanced([AddTemp(t), StoreTemp(t), PopTop, PushLiteral(receiver), PushTemp(t), Send(s)], x + 1, x + 1)
  {
    Straight([AddTemp(t), StoreTemp(t), PopTop, PushLiteral(receiver), PushTemp(t), Send(s)],
      [x + 1, x + 1, x + 1, x, x + 1, x + 2, x + 1]);
  }

  lemma ToIsBalanced(t: CType, x: nat)
    ensures Balanced(EmitMarshallTo(t), x + 1, x + 1)
  {
    match t {
      case VoidOrRaw => Straight([], [x + 1]);
      case BooleanType => BooleanIsBalanced(x);
      case StringClass => ThroughTempIsBalanced(MarshallTemp, Known(StringType), PrepareStringForMarshalling, x);
      case OOPType => ThroughTempIsBalanced(MarshallTemp, Known(PointerUtils), OopForObject, x);
      case _ => Straight(EmitMarshallTo(t), [x + 1, x + 1]);
    }
  }

  lemma FromIsBalanced(t: CType, x: nat)
    ensures Balanced(EmitMarshallFrom(t), x + 1, x + 1)
  {
    match t {
      case CharType => Straight(EmitMarshallFrom(t), [x + 1, x + 1]);
      case StringClass => Straight(EmitMarshallFrom(t), [x + 1, x + 1]);
      case BooleanType => Straight(EmitMarshallFrom(t), [x + 1, x + 2, x + 1]);
      case OOPType => ThroughTempIsBalanced(MarshallTemp, Known(PointerUtils), ObjectForOop, x);
      case StructType(n) => ThroughTempIsBalanced(StructHandler, Known(StructClass(n)), FromHandle, x);
      case PointerToStructType(n) => ThroughTempIsBalanced(StructHandler, Known(StructClass(n)), FromHandle, x);
      case _ => Straight([], [x + 1]);
    }
  }

  lemma FreeIsBalanced(t: CType, index: nat, x: nat)
    ensures Balanced(EmitFree(t, index), x, x)
  {
    if t.StringClass? {
      Straight(EmitFree(t, index), [x, x + 1, x + 2, x + 3, x + 2, x + 1, x]);
    } else {
      Straight([], [x]);
    }
  }

  lemma {:induction false} ArgumentsAreBalanced(types: seq<CType>, x: nat)
    ensures Balanced(EmitArguments(types), x, x + |types|)
  {
    if types == [] {
      assert Respected([], [x]);
    } else {
      var code, k, to := EmitArguments(Front(types)), |types| - 1, EmitMarshallTo(Last(types));
      ArgumentsAreBalanced(Front(types), x);
      Single(Argument(k), x + k);
      Chain(code, [Argument(k)], x, x + k, x + k + 1);
      ToIsBalanced(Last(types), x + k);
      Chain(code + [Argument(k)], to, x, x + k + 1, x + k + 1);
    }
  }

  lemma {:induction false} ReturnsAreBalanced(types: seq<CType>, x: nat)
    ensures Balanced(EmitReturns(types), x, x)
  {
    if types == [] {
      assert Respected([], [x]);
    } else {
      var code, k, free := EmitReturns(Front(types)), |types| - 1, EmitFree(Last(types), |types|);
      ReturnsAreBalanced(Front(types), x);
      Single(ReturnArgument(k), x);
      Chain(code, [ReturnArgument(k)], x, x, x);
      FreeIsBalanced(Last(types), |types|, x);
      Chain(code + [ReturnArgument(k)], free, x, x, x);
    }
  }

  lemma TraceIsBalanced(tracing: bool, x: nat)
    ensures Balanced(TraceCode(tracing), x, if tracing then x + 1 else x)
  {
    if tracing {
      Straight(TraceCode(tracing), [x, x + 1, x + 2, x + 1]);
    } else {
      Straight([], [x]);
    }
  }

  lemma ReceiverIsBalanced(x: nat)
    ensures Balanced(RECEIVER_CODE, x, x + 2)
  {
    Straight(RECEIVER_CODE, [x, x + 1, x + 2]);
  }

  lemma CallIsBalanced(n: nat, x: nat)
    ensures Balanced(CallCode(n), x + 2 + n, x + 1)
  {
    Straight(CallCode(n), [x + 2 + n, x + 3, x + 3, x + 3, x + 1]);
  }

  lemma ChainAll(a: seq<Instr>, b: seq<Instr>, c: seq<Instr>, d: seq<Instr>, e: seq<Instr>, f: seq<Instr>,
                 x: nat, y: nat, n: nat)
    requires Balanced(a, x, y) && Balanced(b, y, y + 2) && Balanced(c, y + 2, y + 2 + n)
    requires Balanced(d, y + 2 + n, y + 1) && Balanced(e, y + 1, y + 1) && Balanced(f, y + 1, y + 1)
    ensures Balanced(a + b + c + d + e + f, x, y + 1)
  {
    Chain(a, b, x, y, y + 2);
    Chain(a + b, c, x, y + 2, y + 2 + n);
    Chain(a + b + c, d, x, y + 2 + n, y + 1);
    Chain(a + b + c + d, e, x, y + 1, y + 1);
    Chain(a + b + c + d + e, f, x, y + 1, y + 1);
  }

  /** For every signature the heights are consistent, and the code ends one above the height it started
      at, or two above when tracing. */
  lemma CompiledIsBalanced(sig: Signature, x: nat)
    ensures Balanced(Compile(sig), x, x + 1 + (if sig.tracing then 1 else 0))
  {
    var types, n := sig.arguments, |sig.arguments|;
    var y := if sig.tracing then x + 1 else x;
    TraceIsBalanced(sig.tracing, x);
    ReceiverIsBalanced(y);
    ArgumentsAreBalanced(types, y + 2);
    CallIsBalanced(n, y);
    ReturnsAreBalanced(types, y + 1);
    FromIsBalanced(sig.returnType, y);
    ChainAll(TraceCode(sig.tracing), RECEIVER_CODE, EmitArguments(types), CallCode(n), EmitReturns(types),
      EmitMarshallFrom(sig.returnType), x, y, n);
  }

  /** Join-point soundness: any two control paths through the code of any signature that reach the same
      instruction reach it at the same stack height. */
  lemma JoinPointsAgree(sig: Signature, entry: nat, p: seq<nat>, q: seq<nat>)
    requires Path(Compile(sig), p) && Path(Compile(sig), q) && Last(p) == Last(q)
    ensures Height(Compile(sig), p, entry) == Height(Compile(sig), q, entry)
    ensures Last(p) == |Compile(sig)| ==> Height(Compile(sig), p, entry) == entry + 1 + (if sig.tracing then 1 else 0)
    ensures Last(p) < |Compile(sig)| ==> Needs(Compile(sig)[Last(p)]) <= Height(Compile(sig), p, entry)
  {
    var code := Compile(sig);
    CompiledIsBalanced(sig, entry);
    var d :| Respected(code, d) && d[0] == entry && d[|code|] == entry + 1 + (if sig.tracing then 1 else 0);
    PathsAgree(code, d, p);
    PathsAgree(code, d, q);
  }

  // ---- runs of the machine ----

  /** The positions that a run of the machine goes through, from the start of the code on. */
  ghost predicate Trail(code: seq<Instr>, trail: seq<Position>, w: World) {
    && trail != [] && trail[0].pc == 0
    && (forall k :: 0 <= k < |trail| - 1 ==> trail[k].pc < |code| && Step(code, trail[k], w) == Some(trail[k + 1]))
  }

  function Counters(trail: seq<Position>): (path: seq<nat>)
    ensures |path| == |trail| && forall k :: 0 <= k < |trail| ==> path[k] == trail[k].pc
  {
    seq(|trail|, k requires 0 <= k < |trail| => trail[k].pc)
  }

  /** A run of the machine goes along a control path, and its stack has the height of that path. */
  lemma {:induction false} TrailsFollowPaths(code: seq<Instr>, trail: seq<Position>, w: World)
    requires Trail(code, trail, w)
    ensures Path(code, Counters(trail))
    ensures Height(code, Counters(trail), |trail[0].m.stack|) == |Last(trail).m.stack|
    decreases |trail|
  {
    if |trail| > 1 {
      var n := |trail| - 1;
      assert Trail(code, Front(trail), w);
      TrailsFollowPaths(code, Front(trail), w);
      assert Step(code, trail[n - 1], w) == Some(trail[n - 1 + 1]);
      StepFollowsFlow(code, trail[n - 1], w);
      PathOn(code, Counters(Front(trail)), trail[n].pc);
      assert Counters(trail) == Counters(Front(trail)) + [trail[n].pc];
      assert Front(Counters(trail)) == Counters(Front(trail));
    }
  }

  lemma PathOn(code: seq<Instr>, path: seq<nat>, next: nat)
    requires Path(code, path) && Last(path) < |code| && Flows(code, Last(path), next) && next <= |code|
    ensures Path(code, path + [next])
  {
    var on := path + [next];
    forall k | 0 <= k < |on| - 1 ensures on[k] < |code| && Flows(code, on[k], on[k + 1]) {
      if k < |path| - 1 { assert Flows(code, path[k], path[k + 1]); }
    }
  }

  /** Whenever a run of the compiled code is at an instruction, its stack has the one height that all
      control paths to that instruction have, in every world. */
  lemma RunsKeepTheHeight(sig: Signature, trail: seq<Position>, w: World, k: nat, path: seq<nat>)
    requires Trail(Compile(sig), trail, w) && k < |trail|
    requires Path(Compile(sig), path) && Last(path) == trail[k].pc
    ensures |trail[k].m.stack| == Height(Compile(sig), path, |trail[0].m.stack|)
  {
    assert Trail(Compile(sig), trail[..k + 1], w);
    TrailsFollowPaths(Compile(sig), trail[..k + 1], w);
    JoinPointsAgree(sig, |trail[0].m.stack|, Counters(trail[..k + 1]), path);
  }
}
