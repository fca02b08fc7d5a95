// How calls fail: where an error points to, conditionals that are never closed, and entry points that
// are none (script/engine.rs, script/mod.rs).

module Faults {
  import opened Wrappers
  import opened Numbers
  import opened Ops
  import opened Scripts
  import opened Engine
  import opened Structured
  import opened Expressions

  // ----- where an error points to -----

  /** The registers behind operations that all go on. */
  function Through(d: EngineData, ops: seq<OpFrame>, vm: Vm): Option<Vm>
    requires AllBasic(ops)
  {
    if ops == [] then Some(vm)
    else
      match StepOp(d, vm, ops[0])
      case Ok(Next(vm')) => Through(d, ops[1..], vm')
      case Ok(Halted(_)) => None
      case Err(_) => None
  }

  lemma OneTurn(d: EngineData, pos: nat, op: OpFrame, rest: seq<OpFrame>, m: Machine)
    requires IsBasic(op) && At(d.script, pos, [op] + rest)
    ensures pos <= |d.script| && At(d.script, pos + |EncodeOp(op)|, rest)
    ensures TurnBytes(d, pos, m)
         == match StepOp(d, m.vm, op)
            case Err(kind) => Fault(EvalErr(pos + |EncodeOp(op)|, kind))
            case Ok(Next(vm)) => Onward(pos + |EncodeOp(op)|, m.(vm := vm))
            case Ok(Halted(vm)) => Ended(pos + |EncodeOp(op)|, m.(vm := vm, marker := 0))
  {
    hide StepOp, EncodeOp, DecodeOp;
    assert ([op] + rest)[1..] == rest;
    AtStep(d.script, pos, [op] + rest);
    NextIsBehind(d.script, pos, op, rest);
  }

  lemma NextIsBehind(s: seq<byte>, pos: nat, op: OpFrame, rest: seq<OpFrame>)
    requires At(s, pos, [op] + rest)
    ensures pos <= |s| && DecodeOp(s, pos) == Decoded(op, pos + |EncodeOp(op)|)
  {
    hide EncodeOp, DecodeOp, OpFits;
    assert ([op] + rest)[1..] == rest && ([op] + rest)[0] == op && op in [op] + rest;
    DecodeOpOf(s, pos, op);
  }

  lemma {:induction false} RunsThrough(d: EngineData, pos: nat, done: seq<OpFrame>, rest: seq<OpFrame>, m: Machine)
    requires AllBasic(done) && At(d.script, pos, done + rest) && Through(d, done, m.vm).Some?
    ensures pos <= |d.script| && pos + |EncodeOps(done)| <= |d.script| && At(d.script, pos + |EncodeOps(done)|, rest)
    ensures RunBytes(d, pos, m) == RunBytes(d, pos + |EncodeOps(done)|, m.(vm := Through(d, done, m.vm).value))
    decreases |done|
  {
    hide StepOp, EncodeOp, DecodeOp, TurnBytes;
    if done == [] {
      assert done + rest == rest;
    } else {
      var op := done[0];
      assert done + rest == [op] + (done[1..] + rest);
      OneTurn(d, pos, op, done[1..] + rest, m);
      var vm := StepOp(d, m.vm, op).value.vm;
      RunsThrough(d, pos + |EncodeOp(op)|, done[1..], rest, m.(vm := vm));
    }
  }

  /** The position in an error is the one behind the operation that failed. */
  lemma ErrorIsBehind(d: EngineData, pos: nat, done: seq<OpFrame>, op: OpFrame, rest: seq<OpFrame>, m: Machine)
    requires AllBasic(done) && IsBasic(op) && At(d.script, pos, done + ([op] + rest))
    requires Through(d, done, m.vm).Some? && StepOp(d, Through(d, done, m.vm).value, op).Err?
    ensures pos <= |d.script|
    ensures RunBytes(d, pos, m)
         == Err(EvalErr(pos + |EncodeOps(done)| + |EncodeOp(op)|, StepOp(d, Through(d, done, m.vm).value, op).error))
  {
    hide StepOp, EncodeOp, EncodeOps, At, TurnBytes, Through;
    RunsThrough(d, pos, done, [op] + rest, m);
    OneTurn(d, pos + |EncodeOps(done)|, op, rest, m.(vm := Through(d, done, m.vm).value));
  }

  // ----- conditionals that are never closed -----

  lemma {:induction false} SkipRunsOut(ops: seq<OpFrame>, req: int, marker: int)
    requires AllBasic(ops)
    ensures SkipFrames(ops, req, marker) == Err(UnexpectedEOF)
  {
    if ops != [] {
      assert IsBasic(ops[0]);
      SkipRunsOut(ops[1..], req, marker);
    }
  }

  /** A conditional without its end never succeeds, whichever way it goes and whatever comes last. */
  lemma UnclosedFails(d: EngineData, t: Test, u: Test, st: seq<OpFrame>)
    requires Posed(t) && Posed(u) && |st| < 64 && AllBasic(TestCode(u))
    requires Holding(d, t, |st|).Ok? && Holding(d, u, |st|).Ok?
    ensures Verdicts(d, RunFrames(d, TestCode(t) + ([OpIf] + TestCode(u)), Entering(d, st))) == Err(UnexpectedEOF)
  {
    hide TestCode, Holding, RunFrames;
    var m := Entering(d, st);
    TestRuns(d, t, [OpIf] + TestCode(u), m);
    var b := Holding(d, t, |st|).value;
    IfOpens(d, b, TestCode(u), m);
    var m1 := m.(marker := 1, ignoreElse := true);
    if b {
      assert TestCode(u) + [] == TestCode(u);
      TestRuns(d, u, [], m1);
      NothingLeft(d, OnTop(m1, if Holding(d, u, |st|).value then OpTrue else OpFalse));
    } else {
      SkipRunsOut(TestCode(u), 1, 1);
    }
  }

  lemma NothingLeft(d: EngineData, m: Machine)
    ensures RunFrames(d, [], m) == Ok(m)
  {
  }

  lemma IfOpens(d: EngineData, b: bool, rest: seq<OpFrame>, m: Machine)
    ensures RunFrames(d, [OpIf] + rest, OnTop(m, if b then OpTrue else OpFalse))
         == if b then RunFrames(d, rest, m.(marker := m.marker + 1, ignoreElse := true))
            else AfterSkip(d, rest, m.(marker := m.marker + 1, ignoreElse := false))
  {
    assert ([OpIf] + rest)[1..] == rest;
    var st := m.vm.stack + [if b then OpTrue else OpFalse];
    assert st[..|st| - 1] == m.vm.stack;
    hide SkipFrames;
  }

  // ----- entry points -----

  /** An operation is there, and it is no definition. */
  predicate OtherOp(s: seq<byte>, ptr: nat) {
    ptr < |s| && DecodeOp(s, ptr).Decoded? && !DecodeOp(s, ptr).op.OpDefine?
  }

  /** A call enters at a definition and nowhere else; each other case has its own error. */
  lemma EntersDefinition(d: EngineData, id: byte)
    ensures FnPtr(d.script, id).HeaderErr? ==> CallFn(d, id) == Failure(EvalErr(0, HeaderReadErr))
    ensures FnPtr(d.script, id).NoSuchFn? ==> CallFn(d, id) == Failure(EvalErr(0, UnknownFn))
    ensures var f := FnPtr(d.script, id);
            f.FnAt? && f.ptr == |d.script| ==> CallFn(d, id) == Failure(EvalErr(f.ptr, InvalidEntryPoint))
    ensures var f := FnPtr(d.script, id);
            f.FnAt? && OtherOp(d.script, f.ptr) ==>
              CallFn(d, id) == Failure(EvalErr(DecodeOp(d.script, f.ptr).next, InvalidEntryPoint))
  {
    hide PushArgs, RunFrom, FnPtr;
  }
}
