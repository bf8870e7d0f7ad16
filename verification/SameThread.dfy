/** The same-thread runner: callouts and callbacks share the C stack of the VM thread, and a callback
    is left by a jump into its frame.

    The image may try to return any invocation at any time, from any green process. The guard on the
    callback stack alone makes every jump land in the innermost live callback frame, so no frame of
    a function that is still running is thrown away. */
module SameThread {
  import opened Prelude
  import opened Protocol
  import opened Frames

  /** `frames` lies above the interpreter that started the VM. */
  datatype VM = VM(frames: seq<Frame>, native: seq<Invocation>, nextId: nat)

  datatype Move =
    | CallOut(call: Call)           // primitiveSameThreadCallout
    | FunctionReturns               // ffi_call returns into the interpreter under it
    | CallsBack                     // callbackFrontend and sameThreadCallbackEnter
    | Return(inv: Invocation)       // primitiveCallbackReturn, sent by some green process

  /** The interpreter runs: in the root, or entered from the newest callback frame. */
  predicate ImageRuns(m: VM) {
    m.frames == [] || Last(m.frames).BackFrame?
  }

  predicate Possible(m: VM, a: Move) {
    match a
    case CallOut(_) => ImageRuns(m)
    case FunctionReturns => !ImageRuns(m)
    case CallsBack => !ImageRuns(m)
    case Return(_) => ImageRuns(m)
  }

  /** The C stack after a jump out of the callback frame of `inv`: everything above goes with it. */
  function Unwind(frames: seq<Frame>, inv: Invocation): (r: seq<Frame>)
    ensures |r| <= |frames| && r == frames[..|r|]
    ensures BackFrame(inv) in frames ==> |r| < |frames| && frames[|r|] == BackFrame(inv)
  {
    if frames == [] then []
    else if Last(frames) == BackFrame(inv) then Front(frames)
    else Unwind(Front(frames), inv)
  }

  function After(m: VM, a: Move): VM
    requires Possible(m, a)
  {
    match a
    case CallOut(c) => m.(frames := m.frames + [CallFrame(c)])
    case FunctionReturns => m.(frames := Front(m.frames))
    case CallsBack =>
      var inv := Invocation(m.nextId, 0, false);
      m.(frames := m.frames + [BackFrame(inv)], native := m.native + [inv], nextId := m.nextId + 1)
    case Return(inv) =>
      if m.native == [] || Last(m.native) != inv then m
      else m.(frames := Unwind(m.frames, inv), native := Front(m.native))
  }

  /** Functions and callbacks alternate, a function first. */
  ghost predicate Layered(frames: seq<Frame>) {
    Alternating(frames) && forall k :: 0 <= k < |frames| ==> !frames[k].WaitFrame?
  }

  ghost predicate Numbered(native: seq<Invocation>, nextId: nat) {
    NoDup(native) && forall k :: 0 <= k < |native| ==> native[k].id < nextId
  }

  /** The callback frames are the callback stack, in order, and functions and callbacks alternate. Each
      callback is another one. */
  ghost predicate Stacked(m: VM) {
    && Numbered(m.native, m.nextId)
    && Layered(m.frames) && BackInvocations(m.frames) == m.native
  }

  predicate Playable(m: VM, moves: seq<Move>)
    decreases |moves|
  {
    moves == [] || (Possible(m, moves[0]) && Playable(After(m, moves[0]), moves[1..]))
  }

  function Played(m: VM, moves: seq<Move>): VM
    requires Playable(m, moves)
    decreases |moves|
  {
    if moves == [] then m else Played(After(m, moves[0]), moves[1..])
  }

  const START := VM([], [], 0)

  /** A jump leaves exactly the innermost frame, and the function that called back goes on. */
  lemma JumpsToTheInnermost(m: VM, inv: Invocation)
    requires Stacked(m) && ImageRuns(m) && m.native != [] && Last(m.native) == inv
    ensures m.frames != [] && Last(m.frames) == BackFrame(inv)
    ensures Unwind(m.frames, inv) == Front(m.frames)
    ensures Front(m.frames) != [] && Last(Front(m.frames)).CallFrame?
  {
  }

  lemma NumberedPush(native: seq<Invocation>, inv: Invocation)
    requires Numbered(native, inv.id)
    ensures Numbered(native + [inv], inv.id + 1)
  {
  }

  lemma NumberedPop(native: seq<Invocation>, nextId: nat)
    requires native != [] && Numbered(native, nextId)
    ensures Numbered(Front(native), nextId)
  {
  }

  lemma NumberedStep(m: VM, a: Move)
    requires Numbered(m.native, m.nextId) && Possible(m, a)
    ensures Numbered(After(m, a).native, After(m, a).nextId)
  {
    if a.CallsBack? {
      NumberedPush(m.native, Invocation(m.nextId, 0, false));
    } else if a.Return? && m.native != [] {
      NumberedPop(m.native, m.nextId);
    }
  }

  lemma LayeredPush(frames: seq<Frame>, f: Frame)
    requires Layered(frames) && !f.WaitFrame? && (f.CallFrame? <==> frames == [] || Last(frames).BackFrame?)
    ensures Layered(frames + [f])
  {
  }

  lemma LayeredPop(frames: seq<Frame>)
    requires Layered(frames) && frames != []
    ensures Layered(Front(frames))
    ensures BackInvocations(frames) == BackInvocations(Front(frames)) + if Last(frames).BackFrame? then [Last(frames).inv] else []
  {
  }

  lemma FramesPushed(m: VM, f: Frame)
    requires Stacked(m) && !f.WaitFrame? && (f.CallFrame? <==> ImageRuns(m))
    ensures Layered(m.frames + [f])
    ensures BackInvocations(m.frames + [f]) == if f.BackFrame? then m.native + [f.inv] else m.native
  {
    LayeredPush(m.frames, f);
    BackSnoc(m.frames, f);
    assert m.native + [] == m.native;
  }

  lemma FramesPopped(m: VM)
    requires Stacked(m) && m.frames != []
    ensures Layered(Front(m.frames))
    ensures Last(m.frames).BackFrame? ==> m.native == BackInvocations(Front(m.frames)) + [Last(m.frames).inv]
    ensures !Last(m.frames).BackFrame? ==> m.native == BackInvocations(Front(m.frames))
  {
    LayeredPop(m.frames);
    assert BackInvocations(Front(m.frames)) + [] == BackInvocations(Front(m.frames));
  }

  lemma StackedStep(m: VM, a: Move)
    requires Stacked(m) && Possible(m, a)
    ensures Stacked(After(m, a))
  {
    NumberedStep(m, a);
    match a
    case CallOut(c) => FramesPushed(m, CallFrame(c));
    case FunctionReturns => FramesPopped(m);
    case CallsBack => FramesPushed(m, BackFrame(Invocation(m.nextId, 0, false)));
    case Return(inv) => if m.native != [] && Last(m.native) == inv { ReturnKeeps(m, inv); }
  }

  lemma ReturnKeeps(m: VM, inv: Invocation)
    requires Stacked(m) && ImageRuns(m) && m.native != [] && Last(m.native) == inv
    ensures Layered(Unwind(m.frames, inv)) && BackInvocations(Unwind(m.frames, inv)) == Front(m.native)
  {
    JumpsToTheInnermost(m, inv);
    FramesPopped(m);
    assert Front(BackInvocations(Front(m.frames)) + [inv]) == BackInvocations(Front(m.frames));
  }

  /** Only the newest callback can return. However many processes try, in whatever order: the return of every
      older live callback, and of one that is not live, changes nothing. */
  lemma OnlyTheNewestReturns(moves: seq<Move>, inv: Invocation)
    requires Playable(START, moves) && Possible(Played(START, moves), Return(inv))
    ensures
      var m := Played(START, moves);
      && NoDup(m.native)
      && (forall k :: 0 <= k < |m.native| - 1 ==> After(m, Return(m.native[k])) == m)
      && (inv !in m.native ==> After(m, Return(inv)) == m)
      && (m.native != [] ==> After(m, Return(Last(m.native))).native == Front(m.native))
  {
    SameThreadRuns(START, moves);
    var m := Played(START, moves);
    forall k | 0 <= k < |m.native| - 1 ensures After(m, Return(m.native[k])) == m {
      assert m.native[k] != m.native[|m.native| - 1];
    }
  }

  /** A function that returns, and a callback that returns, leave the C stack and the callback stack as they
      were before the call; in between the call is on top of both. */
  lemma CallsAreUndone(m: VM, c: Call)
    ensures ImageRuns(m) ==>
      var t := After(m, CallOut(c));
      && t.frames == m.frames + [CallFrame(c)] && t.native == m.native
      && Possible(t, FunctionReturns) && After(t, FunctionReturns) == m
    ensures Stacked(m) && !ImageRuns(m) ==>
      var t := After(m, CallsBack);
      && t.native != [] && Last(t.native) !in m.native && t.frames == m.frames + [BackFrame(Last(t.native))]
      && Possible(t, Return(Last(t.native)))
      && After(t, Return(Last(t.native))) == m.(nextId := t.nextId)
  {
    if Stacked(m) && !ImageRuns(m) {
      var t := After(m, CallsBack);
      StackedStep(m, CallsBack);
      JumpsToTheInnermost(t, Last(t.native));
    }
  }

  /** In every run, and whenever the image runs, a callback frame (or nothing) is on top, the callback
      frames are the callback stack, and an accepted return loses no frame but its own. */
  lemma {:induction false} SameThreadRuns(m: VM, moves: seq<Move>)
    requires Stacked(m) && Playable(m, moves)
    ensures Stacked(Played(m, moves))
    decreases |moves|
  {
    if moves != [] {
      StackedStep(m, moves[0]);
      SameThreadRuns(After(m, moves[0]), moves[1..]);
    }
  }

  /** A return in any reachable state is refused and changes nothing, or ends the innermost frame,
      which is its own, and leaves the function that called back on top. */
  lemma ReturnsAreLocal(moves: seq<Move>, inv: Invocation)
    requires Playable(START, moves) && Possible(Played(START, moves), Return(inv))
    ensures
      var m := Played(START, moves);
      var t := After(m, Return(inv));
      if m.native != [] && Last(m.native) == inv then
        && m.frames == t.frames + [BackFrame(inv)] && m.native == t.native + [inv] && !ImageRuns(t)
      else t == m
  {
    SameThreadRuns(START, moves);
    var m := Played(START, moves);
    if m.native != [] && Last(m.native) == inv { JumpsToTheInnermost(m, inv); }
  }
}
