// Exactly which programs the interpreter's one flag cannot hurt, and what it does to the others.

module Shapes {
  import opened Wrappers
  import opened Numbers
  import opened Ops
  import opened Builders
  import opened Engine
  import opened Structured

  // ----- one conditional -----

  /** Whatever its else branch is, the conditional means to the interpreter what it means to its
      author. */
  ghost predicate ElseIsSafe(d: EngineData, yes: Code, vm: Vm, flag: bool)
    requires WellFormed(yes)
  {
    forall no | WellFormed(no) ::
      Forget(ExecFlagStmt(d, Cond(yes, Some(no)), vm, flag)) == ExecStmt(d, Cond(yes, Some(no)), vm)
  }

  /** The first branch of a conditional whose condition is true is read right and, if it runs to its
      end, leaves the flag set. */
  predicate LeavesFlagSet(d: EngineData, yes: Code, vm: Vm)
    requires WellFormed(yes)
  {
    var f := ExecFlag(d, yes, vm, true);
    Forget(f) == Exec(d, yes, vm) && (f.FlagFell? ==> f.flag)
  }

  /** Exactly when no else branch behind a true condition can be run by mistake. */
  lemma ElseIsSafeIff(d: EngineData, yes: Code, st: seq<OpFrame>, vm: Vm, flag: bool)
    requires WellFormed(yes) && PopBool(vm.stack) == Ok((true, st))
    ensures ElseIsSafe(d, yes, vm, flag) <==> LeavesFlagSet(d, yes, vm.(stack := st))
  {
    hide StepOp, PopBool;
    var vm' := vm.(stack := st);
    var f := ExecFlag(d, yes, vm', true);
    forall no | WellFormed(no)
      ensures Forget(ExecFlagStmt(d, Cond(yes, Some(no)), vm, flag))
           == (if f.FlagFell? && !f.flag then Forget(ExecFlag(d, no, f.vm, false)) else Forget(f))
      ensures ExecStmt(d, Cond(yes, Some(no)), vm) == Exec(d, yes, vm')
    {
      ClearFlagRunsBoth(d, yes, no, st, vm, flag);
    }
    if f.FlagFell? && !f.flag {
      AbortBranch(d, f.vm, false);
      assert Forget(ExecFlagStmt(d, Cond(yes, Some(Done)), vm, flag)) == Fell(f.vm);
      assert Forget(ExecFlagStmt(d, Cond(yes, Some(ABORT)), vm, flag)) == Broke(Aborted);
    } else {
      assert Forget(ExecFlagStmt(d, Cond(yes, Some(Done)), vm, flag)) == Forget(f);
    }
  }

  const ABORT: Code := Then(Basic(OpAbort), Done)

  lemma AbortBranch(d: EngineData, vm: Vm, flag: bool)
    ensures WellFormed(ABORT) && ExecFlag(d, ABORT, vm, flag) == FlagBroke(Aborted)
  {
  }

  // ----- whole programs, by their shape -----

  /** The conditionals of a program, without the operations around them. */
  function Skeleton(c: Code): Code {
    match c
    case Done => Done
    case Then(Basic(_), tail) => Skeleton(tail)
    case Then(Cond(yes, None), tail) => Then(Cond(Skeleton(yes), None), Skeleton(tail))
    case Then(Cond(yes, Some(no)), tail) => Then(Cond(Skeleton(yes), Some(Skeleton(no))), Skeleton(tail))
  }

  /** The same conditionals, none of whose conditions is true. */
  function Idle(c: Code): Code {
    match c
    case Done => Done
    case Then(Basic(_), tail) => Idle(tail)
    case Then(Cond(yes, None), tail) => If(false, Cond(Idle(yes), None), Idle(tail))
    case Then(Cond(yes, Some(no)), tail) => If(false, Cond(Idle(yes), Some(Idle(no))), Idle(tail))
  }

  /** A conditional with its condition in front. */
  function If(condition: bool, s: Stmt, tail: Code): Code {
    Then(Basic(BoolFrame(condition)), Then(s, tail))
  }

  /** The same conditionals, the way to the first one that is not tame being taken, and an abort in
      the else branch that its author expects to be passed over. */
  function Misread(c: Code): Code {
    match c
    case Done => Done
    case Then(Basic(_), tail) => Misread(tail)
    case Then(Cond(yes, None), tail) =>
      if Tame(yes) then If(false, Cond(Idle(yes), None), Misread(tail))
      else If(true, Cond(Misread(yes), None), Idle(tail))
    case Then(Cond(yes, Some(no)), tail) =>
      if !Straight(yes) then If(true, Cond(Idle(yes), Some(Then(Basic(OpAbort), Idle(no)))), Idle(tail))
      else if !Tame(no) then If(false, Cond(Idle(yes), Some(Misread(no))), Idle(tail))
      else If(false, Cond(Idle(yes), Some(Idle(no))), Misread(tail))
  }

  lemma {:induction false} IdleKeeps(c: Code)
    ensures WellFormed(Idle(c)) && Skeleton(Idle(c)) == Skeleton(c)
  {
    if c.Then? {
      IdleKeeps(c.tail);
      if c.head.Cond? {
        IdleKeeps(c.head.yes);
        if c.head.no.Some? {
          IdleKeeps(c.head.no.value);
        }
      }
    }
  }

  lemma IfKeeps(condition: bool, yes: Code, no: Option<Code>, tail: Code)
    requires WellFormed(yes) && (no.Some? ==> WellFormed(no.value)) && WellFormed(tail)
    ensures var c := If(condition, Cond(yes, no), tail);
            WellFormed(c) && Skeleton(c) == Then(Cond(Skeleton(yes), SkeletonOf(no)), Skeleton(tail))
  {
    assert Skeleton(If(condition, Cond(yes, no), tail)) == Skeleton(Then(Cond(yes, no), tail));
  }

  function SkeletonOf(no: Option<Code>): Option<Code> {
    if no.Some? then Some(Skeleton(no.value)) else None
  }

  lemma AbortKeeps(c: Code)
    requires WellFormed(c)
    ensures WellFormed(Then(Basic(OpAbort), c)) && Skeleton(Then(Basic(OpAbort), c)) == Skeleton(c)
  {
  }

  lemma {:induction false} MisreadKeeps(c: Code)
    ensures WellFormed(Misread(c)) && Skeleton(Misread(c)) == Skeleton(c)
  {
    if c.Then? {
      MisreadKeeps(c.tail);
      IdleKeeps(c.tail);
      if c.head.Cond? {
        var yes, no := c.head.yes, c.head.no;
        MisreadKeeps(yes);
        IdleKeeps(yes);
        if no.None? {
          IfKeeps(false, Idle(yes), None, Misread(c.tail));
          IfKeeps(true, Misread(yes), None, Idle(c.tail));
        } else {
          MisreadKeeps(no.value);
          IdleKeeps(no.value);
          AbortKeeps(Idle(no.value));
          IfKeeps(true, Idle(yes), Some(Then(Basic(OpAbort), Idle(no.value))), Idle(c.tail));
          IfKeeps(false, Idle(yes), Some(Misread(no.value)), Idle(c.tail));
          IfKeeps(false, Idle(yes), Some(Idle(no.value)), Misread(c.tail));
        }
        hide If;
      }
    }
  }

  lemma {:induction false} SkeletonDecides(c: Code)
    ensures Straight(Skeleton(c)) <==> Straight(c)
    ensures Tame(Skeleton(c)) <==> Tame(c)
  {
    if c.Then? {
      SkeletonDecides(c.tail);
      if c.head.Cond? {
        SkeletonDecides(c.head.yes);
        if c.head.no.Some? {
          SkeletonDecides(c.head.no.value);
        }
      }
    }
  }

  lemma {:induction false} ExecThen(d: EngineData, s: Stmt, tail: Code, vm: Vm, flag: bool)
    requires WellFormedStmt(s) && WellFormed(tail)
    ensures WellFormed(Then(s, tail))
    ensures Exec(d, Then(s, tail), vm) == ContinueExec(d, tail, ExecStmt(d, s, vm))
    ensures ExecFlag(d, Then(s, tail), vm, flag) == ContinueFlag(d, tail, ExecFlagStmt(d, s, vm, flag))
  {
    hide ExecStmt, ExecFlagStmt;
  }

  /** Pushing a truth value. */
  lemma {:induction false} BoolRuns(d: EngineData, condition: bool, vm: Vm, flag: bool)
    requires |vm.stack| < MAX_FRAME_STACK
    ensures var pushed := vm.(stack := vm.stack + [BoolFrame(condition)]);
            && IsBasic(BoolFrame(condition)) && PopBool(pushed.stack) == Ok((condition, vm.stack))
            && ExecStmt(d, Basic(BoolFrame(condition)), vm) == Fell(pushed)
            && ExecFlagStmt(d, Basic(BoolFrame(condition)), vm, flag) == FlagFell(pushed, flag)
  {
    var pushed := vm.(stack := vm.stack + [BoolFrame(condition)]);
    assert StepOp(d, vm, BoolFrame(condition)) == Ok(Next(pushed));
    hide StepOp;
  }

  /** Entering a conditional. */
  lemma {:induction false} CondRuns(d: EngineData, condition: bool, yes: Code, no: Option<Code>, vm: Vm, pushed: Vm,
      flag: bool)
    requires WellFormed(yes) && (no.Some? ==> WellFormed(no.value))
    requires PopBool(pushed.stack) == Ok((condition, vm.stack)) && pushed.(stack := vm.stack) == vm
    ensures ExecStmt(d, Cond(yes, no), pushed) == ExecBranch(d, condition, yes, no, vm)
    ensures ExecFlagStmt(d, Cond(yes, no), pushed, flag) == FlagBranch(d, condition, yes, no, vm)
  {
    hide Exec, ExecFlag, PopBool, WellFormed;
  }

  /** Pushing a truth value and entering a conditional on it. */
  lemma {:induction false} IfRuns(d: EngineData, condition: bool, yes: Code, no: Option<Code>, tail: Code, vm: Vm,
      flag: bool)
    requires WellFormed(yes) && (no.Some? ==> WellFormed(no.value)) && WellFormed(tail)
    requires |vm.stack| < MAX_FRAME_STACK
    ensures var c := If(condition, Cond(yes, no), tail);
            && WellFormed(c)
            && Exec(d, c, vm) == ContinueExec(d, tail, ExecBranch(d, condition, yes, no, vm))
            && ExecFlag(d, c, vm, flag) == ContinueFlag(d, tail, FlagBranch(d, condition, yes, no, vm))
  {
    hide Exec, ExecFlag, ExecStmt, ExecFlagStmt, PopBool, ExecBranch, FlagBranch, WellFormed, IsBasic;
    var pushed, s := vm.(stack := vm.stack + [BoolFrame(condition)]), Cond(yes, no);
    BoolRuns(d, condition, vm, flag);
    CondRuns(d, condition, yes, no, vm, pushed, flag);
    ExecThen(d, s, tail, pushed, flag);
    ExecThen(d, Basic(BoolFrame(condition)), Then(s, tail), vm, flag);
  }

  function ContinueExec(d: EngineData, tail: Code, f: Flow): Flow
    requires WellFormed(tail)
  {
    if f.Fell? then Exec(d, tail, f.vm) else f
  }

  function ContinueFlag(d: EngineData, tail: Code, f: FlagFlow): FlagFlow
    requires WellFormed(tail)
  {
    if f.FlagFell? then ExecFlag(d, tail, f.vm, f.flag) else f
  }

  function ExecBranch(d: EngineData, condition: bool, yes: Code, no: Option<Code>, vm: Vm): Flow
    requires WellFormed(yes) && (no.Some? ==> WellFormed(no.value))
  {
    if condition then Exec(d, yes, vm) else if no.Some? then Exec(d, no.value, vm) else Fell(vm)
  }

  function FlagBranch(d: EngineData, condition: bool, yes: Code, no: Option<Code>, vm: Vm): FlagFlow
    requires WellFormed(yes) && (no.Some? ==> WellFormed(no.value))
  {
    if !condition then if no.Some? then ExecFlag(d, no.value, vm, false) else FlagFell(vm, false)
    else
      var f := ExecFlag(d, yes, vm, true);
      if f.FlagFell? && no.Some? && !f.flag then ExecFlag(d, no.value, f.vm, false) else f
  }

  lemma {:induction false} IdleRuns(d: EngineData, c: Code, vm: Vm, flag: bool)
    requires |vm.stack| < MAX_FRAME_STACK
    ensures WellFormed(Idle(c))
    ensures Exec(d, Idle(c), vm) == Fell(vm)
    ensures ExecFlag(d, Idle(c), vm, flag) == FlagFell(vm, flag && Straight(c))
  {
    IdleKeeps(c);
    if c.Then? {
      if c.head.Basic? {
        IdleRuns(d, c.tail, vm, flag);
      } else {
        var yes, no := c.head.yes, c.head.no;
        IdleKeeps(yes);
        IdleKeeps(c.tail);
        IdleRuns(d, c.tail, vm, false);
        var no' := if no.Some? then Some(Idle(no.value)) else None;
        if no.Some? {
          IdleKeeps(no.value);
          IdleRuns(d, no.value, vm, false);
        }
        IfRuns(d, false, Idle(yes), no', Idle(c.tail), vm, flag);
        hide Exec, ExecFlag, If;
      }
    }
  }

  lemma {:induction false} MisreadRuns(d: EngineData, c: Code, vm: Vm, flag: bool)
    requires |vm.stack| < MAX_FRAME_STACK && !Tame(c)
    ensures WellFormed(Misread(c))
    ensures Exec(d, Misread(c), vm) == Fell(vm)
    ensures ExecFlag(d, Misread(c), vm, flag) == FlagBroke(Aborted)
    decreases c, 1
  {
    MisreadKeeps(c);
    if c.head.Basic? {
      MisreadRuns(d, c.tail, vm, flag);
    } else if TameStmt(c.head) {
      MisreadLater(d, c, vm, flag);
    } else {
      MisreadHere(d, c, vm, flag);
    }
  }

  lemma {:induction false} MisreadLater(d: EngineData, c: Code, vm: Vm, flag: bool)
    requires |vm.stack| < MAX_FRAME_STACK && c.Then? && c.head.Cond? && TameStmt(c.head) && !Tame(c.tail)
    ensures WellFormed(Misread(c))
    ensures Exec(d, Misread(c), vm) == Fell(vm)
    ensures ExecFlag(d, Misread(c), vm, flag) == FlagBroke(Aborted)
    decreases c, 0
  {
    var yes, no := c.head.yes, c.head.no;
    MisreadKeeps(c);
    IdleKeeps(yes);
    MisreadKeeps(c.tail);
    MisreadRuns(d, c.tail, vm, false);
    var no' := if no.Some? then Some(Idle(no.value)) else None;
    if no.Some? {
      IdleKeeps(no.value);
      IdleRuns(d, no.value, vm, false);
    }
    IfRuns(d, false, Idle(yes), no', Misread(c.tail), vm, flag);
    hide Exec, ExecFlag, If;
  }

  lemma {:induction false} MisreadHere(d: EngineData, c: Code, vm: Vm, flag: bool)
    requires |vm.stack| < MAX_FRAME_STACK && c.Then? && c.head.Cond? && !TameStmt(c.head)
    ensures WellFormed(Misread(c))
    ensures Exec(d, Misread(c), vm) == Fell(vm)
    ensures ExecFlag(d, Misread(c), vm, flag) == FlagBroke(Aborted)
    decreases c, 0
  {
    var yes, no, tail := c.head.yes, c.head.no, c.tail;
    MisreadKeeps(c);
    IdleKeeps(yes);
    IdleKeeps(tail);
    IdleRuns(d, tail, vm, true);
    if no.None? {
      MisreadKeeps(yes);
      MisreadRuns(d, yes, vm, true);
      IdleRuns(d, tail, vm, false);
      IfRuns(d, true, Misread(yes), None, Idle(tail), vm, flag);
    } else if !Straight(yes) {
      var abort := Then(Basic(OpAbort), Idle(no.value));
      IdleKeeps(no.value);
      IdleRuns(d, yes, vm, true);
      assert ExecFlag(d, abort, vm, false) == FlagBroke(Aborted);
      IfRuns(d, true, Idle(yes), Some(abort), Idle(tail), vm, flag);
    } else {
      StraightIsTame(yes);
      MisreadKeeps(no.value);
      MisreadRuns(d, no.value, vm, false);
      IfRuns(d, false, Idle(yes), Some(Misread(no.value)), Idle(tail), vm, flag);
    }
    hide Exec, ExecFlag, If;
  }

  lemma {:induction false} StraightIsTame(c: Code)
    requires Straight(c)
    ensures Tame(c)
  {
    if c.Then? {
      StraightIsTame(c.tail);
    }
  }

  /** No program with these conditionals is misread. */
  ghost predicate NeverMisread(d: EngineData, c: Code) {
    forall p, vm, flag | WellFormed(p) && Skeleton(p) == Skeleton(c) ::
      Forget(ExecFlag(d, p, vm, flag)) == Exec(d, p, vm)
  }

  /** The shape decides, and tameness is the weakest condition on it: programs with the given
      conditionals all mean what their authors mean if and only if no conditional stands inside the
      first branch of one with an else. */
  lemma TameIsWeakest(d: EngineData, c: Code)
    ensures NeverMisread(d, c) <==> Tame(c)
  {
    if Tame(c) {
      forall p, vm, flag | WellFormed(p) && Skeleton(p) == Skeleton(c)
        ensures Forget(ExecFlag(d, p, vm, flag)) == Exec(d, p, vm)
      {
        SkeletonDecides(p);
        SkeletonDecides(c);
        TameAgrees(d, p, vm, flag);
      }
    } else {
      var vm := Vm([], [], 0);
      MisreadKeeps(c);
      MisreadRuns(d, c, vm, false);
      assert Forget(ExecFlag(d, Misread(c), vm, false)) != Exec(d, Misread(c), vm);
    }
  }

  // ----- calls -----

  lemma TrueConcludes(d: EngineData)
    ensures Decide(d, Fell(Vm([OpTrue], [], TotalAmount(d.tx)))).Ok?
  {
    assert PopBool([OpTrue]) == Ok((true, []));
  }

  /** Any shape that is not tame comes to harm in a call: there is a program with these very
      conditionals that succeeds for its author and is aborted by the interpreter, in any built
      script that holds it, for every transaction and every chain. */
  lemma MisreadCall(d: EngineData, fns: seq<FnDef>, id: byte, k: nat, c: Code)
    requires !Tame(c) && Holds(fns, id, k, Succeed(Misread(c))) && fns[k].args == []
    requires BuildScript(fns) == Ok(d.script)
    ensures Skeleton(Succeed(Misread(c))) == Skeleton(c)
    ensures StructuredCall(d, [], Succeed(Misread(c))).Ok?
    ensures CallFn(d, id).Failure? && CallFn(d, id).e.kind == Aborted
  {
    MisreadKeeps(c);
    var body := Succeed(Misread(c));
    BuiltProgramRuns(d, fns, id, k, body);
    var start := Vm([], [], TotalAmount(d.tx));
    var vm := start.(stack := [OpTrue]);
    assert [] + [OpTrue] == [OpTrue];
    assert ExecStmt(d, Basic(OpTrue), start) == Fell(vm);
    assert ExecFlagStmt(d, Basic(OpTrue), start, false) == FlagFell(vm, false);
    MisreadRuns(d, c, vm, false);
    TrueConcludes(d);
    assert Exec(d, body, start) == Fell(vm);
    assert ExecFlag(d, body, start, false) == FlagBroke(Aborted);
    hide Exec, ExecFlag, CallFn, BuildScript, Holds, Misread;
  }

  /** The program behind a push of true, which is left for the verdict. */
  function Succeed(c: Code): Code {
    Then(Basic(OpTrue), c)
  }

  // ----- one function on its own -----

  lemma {:induction false} FlattenDefinesNothing(c: Code)
    requires WellFormed(c)
    ensures forall op | op in Flatten(c) :: !op.OpDefine?
  {
    if c.Then? {
      FlattenDefinesNothing(c.tail);
      if c.head.Cond? {
        FlattenDefinesNothing(c.head.yes);
        if c.head.no.Some? {
          FlattenDefinesNothing(c.head.no.value);
        }
      }
    }
  }

  /** A program of moderate length, without arguments, fits a script of its own. */
  lemma OneFunctionBuilds(c: Code, id: byte) returns (fns: seq<FnDef>)
    requires WellFormed(c) && |EncodeOps(Flatten(c))| <= 2000
    ensures fns == [FnDef(id, [], Flatten(c))]
    ensures Holds(fns, id, 0, c) && BuildScript(fns).Ok?
  {
    fns := [FnDef(id, [], Flatten(c))];
    FlattenDefinesNothing(c);
    hide Flatten, Table;
    DefinitionLength(fns[0].body);
    assert fns[1..] == [];
    assert AllFrames([]) == [];
    assert AllFrames(fns) == Frames(fns[0]) + [] == Frames(fns[0]);
  }

  lemma DefinitionLength(body: seq<OpFrame>)
    ensures |EncodeOps([OpDefine([])] + body)| == 2 + |EncodeOps(body)|
  {
    EncodeOpsAppend([OpDefine([])], body);
    assert [OpDefine([])][1..] == [];
    assert EncodeOps([]) == [];
    assert EncodeOps([OpDefine([])]) == EncodeOp(OpDefine([])) + [];
  }

  // ----- the nested program -----

  lemma NestedFlattens()
    ensures Flatten(NESTED_PROGRAM) == [OpTrue, OpIf, OpFalse, OpIf, OpEndIf, OpElse, OpAbort, OpEndIf, OpTrue]
  {
    assert Flatten(Done) == [];
    assert Flatten(PUSH_TRUE) == [OpTrue] + [] == [OpTrue];
    assert FlattenStmt(Cond(Done, None)) == [OpIf, OpEndIf];
    assert Flatten(Then(Cond(Done, None), Done)) == [OpIf, OpEndIf];
    assert Flatten(INNER_IF) == [OpFalse, OpIf, OpEndIf];
    assert Flatten(Then(Basic(OpAbort), Done)) == [OpAbort];
    assert FlattenStmt(OUTER_IF) == [OpIf, OpFalse, OpIf, OpEndIf, OpElse, OpAbort, OpEndIf];
    assert Flatten(Then(OUTER_IF, PUSH_TRUE)) == [OpIf, OpFalse, OpIf, OpEndIf, OpElse, OpAbort, OpEndIf, OpTrue];
  }

  lemma {:induction false} PlainLength(ops: seq<OpFrame>)
    requires forall op | op in ops :: Immediate(op) == []
    ensures |EncodeOps(ops)| == |ops|
  {
    if ops != [] {
      assert ops[0] in ops;
      PlainLength(ops[1..]);
    }
  }

  lemma NestedIsWellFormed()
    ensures WellFormed(NESTED_PROGRAM)
  {
    assert WellFormed(INNER_IF) && WellFormed(PUSH_TRUE);
  }

  /** The nested program as a function of a script. */
  lemma NestedBuilds() returns (fns: seq<FnDef>)
    ensures Holds(fns, 0, 0, NESTED_PROGRAM) && fns[0].args == [] && BuildScript(fns).Ok?
  {
    hide Flatten, EncodeOps, BuildScript, Holds;
    NestedFlattens();
    PlainLength(Flatten(NESTED_PROGRAM));
    hide *;
    NestedIsWellFormed();
    fns := OneFunctionBuilds(NESTED_PROGRAM, 0);
  }

  /** The nested program in any built script that holds it: called by any transaction on any chain,
      it is aborted, though its author sees it succeed. */
  lemma NestedCallAborts(d: EngineData, fns: seq<FnDef>, id: byte, k: nat)
    requires Holds(fns, id, k, NESTED_PROGRAM) && fns[k].args == [] && BuildScript(fns) == Ok(d.script)
    ensures StructuredCall(d, [], NESTED_PROGRAM).Ok?
    ensures CallFn(d, id).Failure? && CallFn(d, id).e.kind == Aborted
  {
    BuiltProgramRuns(d, fns, id, k, NESTED_PROGRAM);
    var start := Vm([], [], TotalAmount(d.tx));
    NestedProgramDiffers(d, start, false);
    TrueConcludes(d);
    assert start.(stack := [OpTrue]) == Vm([OpTrue], [], TotalAmount(d.tx));
    hide Exec, ExecFlag, CallFn, BuildScript, Holds, Flatten;
  }
}
