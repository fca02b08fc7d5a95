// Conditionals as a script author means them, and what the flat interpreter makes of them.

module Structured {
  import opened Wrappers
  import opened Numbers
  import opened Blocks
  import opened Ops
  import opened Scripts
  import opened Builders
  import opened Engine

  // ----- programs -----

  datatype Code = Done | Then(head: Stmt, tail: Code)

  datatype Stmt = Basic(op: OpFrame) | Cond(yes: Code, no: Option<Code>)

  predicate WellFormed(c: Code) {
    match c
    case Done => true
    case Then(s, tail) => WellFormedStmt(s) && WellFormed(tail)
  }

  predicate WellFormedStmt(s: Stmt) {
    match s
    case Basic(op) => IsBasic(op)
    case Cond(yes, no) => WellFormed(yes) && (no.Some? ==> WellFormed(no.value))
  }

  function Flatten(c: Code): seq<OpFrame> {
    match c
    case Done => []
    case Then(s, tail) => FlattenStmt(s) + Flatten(tail)
  }

  function FlattenStmt(s: Stmt): seq<OpFrame> {
    match s
    case Basic(op) => [op]
    case Cond(yes, None) => [OpIf] + Flatten(yes) + [OpEndIf]
    case Cond(yes, Some(no)) => [OpIf] + Flatten(yes) + [OpElse] + Flatten(no) + [OpEndIf]
  }

  // ----- the meaning an author expects -----

  /** Run to the end, left early with a success to be decided, or failed. */
  datatype Flow = Fell(vm: Vm) | Left(vm: Vm) | Broke(kind: EvalErrKind)

  function Exec(d: EngineData, c: Code, vm: Vm): Flow
    requires WellFormed(c)
  {
    match c
    case Done => Fell(vm)
    case Then(s, tail) =>
      match ExecStmt(d, s, vm)
      case Fell(vm') => Exec(d, tail, vm')
      case other => other
  }

  function ExecStmt(d: EngineData, s: Stmt, vm: Vm): Flow
    requires WellFormedStmt(s)
  {
    match s
    case Basic(op) =>
      (match StepOp(d, vm, op)
       case Err(kind) => Broke(kind)
       case Ok(Next(vm')) => Fell(vm')
       case Ok(Halted(vm')) => Left(vm'))
    case Cond(yes, no) =>
      match PopBool(vm.stack)
      case Err(kind) => Broke(kind)
      case Ok(popped) =>
        var vm' := vm.(stack := popped.1);
        if popped.0 then Exec(d, yes, vm')
        else if no.Some? then Exec(d, no.value, vm') else Fell(vm')
  }

  // ----- the meaning the interpreter gives -----

  datatype FlagFlow = FlagFell(vm: Vm, flag: bool) | FlagLeft(vm: Vm, flag: bool) | FlagBroke(kind: EvalErrKind)

  function Forget(f: FlagFlow): Flow {
    match f
    case FlagFell(vm, _) => Fell(vm)
    case FlagLeft(vm, _) => Left(vm)
    case FlagBroke(kind) => Broke(kind)
  }

  /** The same, with the interpreter's one flag: each conditional overwrites it, and the else
      branch behind a taken branch runs unless the flag, as that branch left it, is set. */
  function ExecFlag(d: EngineData, c: Code, vm: Vm, flag: bool): FlagFlow
    requires WellFormed(c)
  {
    match c
    case Done => FlagFell(vm, flag)
    case Then(s, tail) =>
      match ExecFlagStmt(d, s, vm, flag)
      case FlagFell(vm', flag') => ExecFlag(d, tail, vm', flag')
      case other => other
  }

  function ExecFlagStmt(d: EngineData, s: Stmt, vm: Vm, flag: bool): FlagFlow
    requires WellFormedStmt(s)
  {
    match s
    case Basic(op) =>
      (match StepOp(d, vm, op)
       case Err(kind) => FlagBroke(kind)
       case Ok(Next(vm')) => FlagFell(vm', flag)
       case Ok(Halted(vm')) => FlagLeft(vm', flag))
    case Cond(yes, no) =>
      match PopBool(vm.stack)
      case Err(kind) => FlagBroke(kind)
      case Ok(popped) =>
        var vm' := vm.(stack := popped.1);
        if !popped.0 then
          if no.Some? then ExecFlag(d, no.value, vm', false) else FlagFell(vm', false)
        else
          match ExecFlag(d, yes, vm', true)
          case FlagFell(vm1, flag1) =>
            if no.Some? && !flag1 then ExecFlag(d, no.value, vm1, flag1) else FlagFell(vm1, flag1)
          case other => other
  }

  // ----- when the two agree -----

  /** No conditional at any depth. */
  predicate Straight(c: Code) {
    match c
    case Done => true
    case Then(s, tail) => s.Basic? && Straight(tail)
  }

  /** No conditional stands inside the first branch of a conditional that has an else. */
  predicate Tame(c: Code) {
    match c
    case Done => true
    case Then(s, tail) => TameStmt(s) && Tame(tail)
  }

  predicate TameStmt(s: Stmt) {
    match s
    case Basic(_) => true
    case Cond(yes, None) => Tame(yes)
    case Cond(yes, Some(no)) => Straight(yes) && Tame(yes) && Tame(no)
  }

  /** What the run has to do for the flag not to show: behind every taken branch with an else,
      the flag is still set. */
  predicate Faithful(d: EngineData, c: Code, vm: Vm, flag: bool)
    requires WellFormed(c)
  {
    match c
    case Done => true
    case Then(s, tail) =>
      FaithfulStmt(d, s, vm, flag)
      && match ExecFlagStmt(d, s, vm, flag)
         case FlagFell(vm', flag') => Faithful(d, tail, vm', flag')
         case _ => true
  }

  predicate FaithfulStmt(d: EngineData, s: Stmt, vm: Vm, flag: bool)
    requires WellFormedStmt(s)
  {
    match s
    case Basic(_) => true
    case Cond(yes, no) =>
      match PopBool(vm.stack)
      case Err(_) => true
      case Ok(popped) =>
        var vm' := vm.(stack := popped.1);
        if !popped.0 then no.Some? ==> Faithful(d, no.value, vm', false)
        else
          && Faithful(d, yes, vm', true)
          && (no.Some? ==> var f := ExecFlag(d, yes, vm', true); f.FlagFell? ==> f.flag)
  }

  lemma {:induction false} FaithfulAgrees(d: EngineData, c: Code, vm: Vm, flag: bool)
    requires WellFormed(c) && Faithful(d, c, vm, flag)
    ensures Forget(ExecFlag(d, c, vm, flag)) == Exec(d, c, vm)
  {
    if c.Then? {
      FaithfulAgreesStmt(d, c.head, vm, flag);
      var f := ExecFlagStmt(d, c.head, vm, flag);
      if f.FlagFell? {
        FaithfulAgrees(d, c.tail, f.vm, f.flag);
      }
    }
  }

  lemma {:induction false} FaithfulAgreesStmt(d: EngineData, s: Stmt, vm: Vm, flag: bool)
    requires WellFormedStmt(s) && FaithfulStmt(d, s, vm, flag)
    ensures Forget(ExecFlagStmt(d, s, vm, flag)) == ExecStmt(d, s, vm)
  {
    if s.Cond? {
      var popped := PopBool(vm.stack);
      if popped.Ok? {
        var vm' := vm.(stack := popped.value.1);
        if popped.value.0 {
          FaithfulAgrees(d, s.yes, vm', true);
        } else if s.no.Some? {
          FaithfulAgrees(d, s.no.value, vm', false);
        }
      }
    }
  }

  lemma {:induction false} StraightKeepsFlag(d: EngineData, c: Code, vm: Vm, flag: bool)
    requires WellFormed(c) && Straight(c)
    ensures var f := ExecFlag(d, c, vm, flag); f.FlagFell? ==> f.flag == flag
  {
    if c.Then? {
      var r := StepOp(d, vm, c.head.op);
      if r.Ok? && r.value.Next? {
        StraightKeepsFlag(d, c.tail, r.value.vm, flag);
      }
    }
  }

  lemma {:induction false} TameIsFaithful(d: EngineData, c: Code, vm: Vm, flag: bool)
    requires WellFormed(c) && Tame(c)
    ensures Faithful(d, c, vm, flag)
  {
    if c.Then? {
      TameIsFaithfulStmt(d, c.head, vm, flag);
      var f := ExecFlagStmt(d, c.head, vm, flag);
      if f.FlagFell? {
        TameIsFaithful(d, c.tail, f.vm, f.flag);
      }
    }
  }

  lemma {:induction false} TameIsFaithfulStmt(d: EngineData, s: Stmt, vm: Vm, flag: bool)
    requires WellFormedStmt(s) && TameStmt(s)
    ensures FaithfulStmt(d, s, vm, flag)
  {
    if s.Cond? {
      var popped := PopBool(vm.stack);
      if popped.Ok? {
        var vm' := vm.(stack := popped.value.1);
        if popped.value.0 {
          TameIsFaithful(d, s.yes, vm', true);
          if s.no.Some? {
            StraightKeepsFlag(d, s.yes, vm', true);
          }
        } else if s.no.Some? {
          TameIsFaithful(d, s.no.value, vm', false);
        }
      }
    }
  }

  /** On tame programs the flag never shows: the interpreter's meaning is the author's. */
  lemma TameAgrees(d: EngineData, c: Code, vm: Vm, flag: bool)
    requires WellFormed(c) && Tame(c)
    ensures Forget(ExecFlag(d, c, vm, flag)) == Exec(d, c, vm)
  {
    TameIsFaithful(d, c, vm, flag);
    FaithfulAgrees(d, c, vm, flag);
  }

  // ----- the flat interpreter on frames -----

  function SkipFrames(fs: seq<OpFrame>, req: int, marker: int): (r: Result<(seq<OpFrame>, int), EvalErrKind>)
    ensures r.Ok? ==> |r.value.0| < |fs|
    decreases |fs|
  {
    if fs == [] then Err(UnexpectedEOF)
    else if fs[0].OpIf? then SkipFrames(fs[1..], req, marker + 1)
    else if fs[0].OpElse? && marker == req then Ok((fs[1..], marker))
    else if fs[0].OpEndIf? then
      if marker == req then Ok((fs[1..], marker - 1)) else SkipFrames(fs[1..], req, marker - 1)
    else SkipFrames(fs[1..], req, marker)
  }

  datatype FrameTurn = FrameFault(kind: EvalErrKind) | FrameEnded(m: Machine) | FrameOnward(fs: seq<OpFrame>, m: Machine)

  function SkipFrameTurn(fs: seq<OpFrame>, m: Machine): (t: FrameTurn)
    ensures t.FrameOnward? ==> |t.fs| < |fs|
  {
    match SkipFrames(fs, m.marker, m.marker)
    case Err(kind) => FrameFault(kind)
    case Ok(landed) => FrameOnward(landed.0, m.(marker := landed.1))
  }

  function TurnFrames(d: EngineData, fs: seq<OpFrame>, m: Machine): (t: FrameTurn)
    ensures t.FrameOnward? ==> |t.fs| < |fs|
  {
    if fs == [] then FrameEnded(m)
    else
      var op, rest := fs[0], fs[1..];
      if op.OpDefine? then FrameEnded(m)
      else if op.OpIf? then
        match PopBool(m.vm.stack)
        case Err(kind) => FrameFault(kind)
        case Ok(popped) =>
          var m1 := Machine(m.vm.(stack := popped.1), m.marker + 1, popped.0);
          if popped.0 then FrameOnward(rest, m1) else SkipFrameTurn(rest, m1)
      else if op.OpElse? then if m.ignoreElse then SkipFrameTurn(rest, m) else FrameOnward(rest, m)
      else if op.OpEndIf? then FrameOnward(rest, m.(marker := m.marker - 1))
      else
        match StepOp(d, m.vm, op)
        case Err(kind) => FrameFault(kind)
        case Ok(Next(vm)) => FrameOnward(rest, m.(vm := vm))
        case Ok(Halted(vm)) => FrameEnded(m.(vm := vm, marker := 0))
  }

  function RunFrames(d: EngineData, fs: seq<OpFrame>, m: Machine): Result<Machine, EvalErrKind>
    decreases |fs|
  {
    match TurnFrames(d, fs, m)
    case FrameFault(kind) => Err(kind)
    case FrameEnded(m') => Ok(m')
    case FrameOnward(rest, m') => RunFrames(d, rest, m')
  }

  // ----- bytes to frames -----

  /** From `pos` on, the script is the encoding of exactly these frames. */
  predicate At(s: seq<byte>, pos: nat, fs: seq<OpFrame>) {
    pos <= |s| && OpsFit(fs) && s[pos..] == EncodeOps(fs)
  }

  lemma AtStep(s: seq<byte>, pos: nat, fs: seq<OpFrame>)
    requires At(s, pos, fs)
    ensures fs == [] ==> DecodeOp(s, pos) == EndOfScript
    ensures fs != [] ==> DecodeOp(s, pos).Decoded? && DecodeOp(s, pos).op == fs[0]
    ensures fs != [] ==> At(s, DecodeOp(s, pos).next, fs[1..])
  {
    if fs == [] {
      assert |s[pos..]| == 0;
    } else {
      EncodeOpsStep(s, pos, fs);
      DecodeOpOf(s, pos, fs[0]);
    }
  }

  /** Skipping bytes and skipping frames fail alike or land at the same place. */
  predicate SameSkip(s: seq<byte>, b: Result<(nat, int), EvalErr>, f: Result<(seq<OpFrame>, int), EvalErrKind>) {
    match f
    case Err(kind) => b.Err? && b.error.kind == kind
    case Ok(landed) => b.Ok? && b.value.1 == landed.1 && At(s, b.value.0, landed.0)
  }

  lemma {:induction false} SkipBytesOf(s: seq<byte>, pos: nat, fs: seq<OpFrame>, req: int, marker: int)
    requires At(s, pos, fs)
    ensures SameSkip(s, SkipBytes(s, pos, req, marker), SkipFrames(fs, req, marker))
    decreases |fs|
  {
    hide At, DecodeOp;
    AtStep(s, pos, fs);
    AtInside(s, pos, fs);
    if fs != [] {
      var op, p := fs[0], DecodeOp(s, pos).next;
      if op.OpIf? {
        SkipBytesOf(s, p, fs[1..], req, marker + 1);
      } else if op.OpEndIf? {
        if marker != req {
          SkipBytesOf(s, p, fs[1..], req, marker - 1);
        }
      } else if !(op.OpElse? && marker == req) {
        SkipBytesOf(s, p, fs[1..], req, marker);
      }
    }
  }

  lemma AtInside(s: seq<byte>, pos: nat, fs: seq<OpFrame>)
    requires At(s, pos, fs)
    ensures pos <= |s|
  {
  }

  predicate SameTurn(s: seq<byte>, b: Turn, f: FrameTurn) {
    match f
    case FrameFault(kind) => b.Fault? && b.e.kind == kind
    case FrameEnded(m) => b.Ended? && b.m == m
    case FrameOnward(rest, m) => b.Onward? && b.m == m && At(s, b.pos, rest)
  }

  lemma TurnBytesOf(d: EngineData, pos: nat, fs: seq<OpFrame>, m: Machine)
    requires At(d.script, pos, fs)
    ensures pos <= |d.script| && SameTurn(d.script, TurnBytes(d, pos, m), TurnFrames(d, fs, m))
  {
    hide At, DecodeOp, StepOp;
    AtInside(d.script, pos, fs);
    AtStep(d.script, pos, fs);
    if fs != [] {
      var p := DecodeOp(d.script, pos).next;
      var rest := fs[1..];
      SkipBytesOf(d.script, p, rest, m.marker, m.marker);
      SkipBytesOf(d.script, p, rest, m.marker + 1, m.marker + 1);
    }
  }

  /** The byte interpreter refines the frame interpreter, error kinds included. */
  lemma {:induction false} RunBytesOf(d: EngineData, pos: nat, fs: seq<OpFrame>, m: Machine)
    requires At(d.script, pos, fs)
    ensures pos <= |d.script|
    ensures match RunFrames(d, fs, m)
            case Err(kind) => RunBytes(d, pos, m).Err? && RunBytes(d, pos, m).error.kind == kind
            case Ok(m') => RunBytes(d, pos, m).Ok? && RunBytes(d, pos, m).value.1 == m'
    decreases |fs|
  {
    hide At, TurnBytes, TurnFrames;
    TurnBytesOf(d, pos, fs, m);
    var f := TurnFrames(d, fs, m);
    if f.FrameOnward? {
      RunBytesOf(d, TurnBytes(d, pos, m).pos, f.fs, f.m);
    }
  }

  // ----- frames to programs -----

  /** Flattened code is balanced: a skip at or inside its depth passes over all of it. */
  lemma {:induction false} SkipOver(c: Code, rest: seq<OpFrame>, req: int, marker: int)
    requires WellFormed(c) && marker >= req
    ensures SkipFrames(Flatten(c) + rest, req, marker) == SkipFrames(rest, req, marker)
  {
    match c
    case Done => assert Flatten(c) + rest == rest;
    case Then(s, tail) =>
      assert Flatten(c) + rest == FlattenStmt(s) + (Flatten(tail) + rest);
      SkipOverStmt(s, Flatten(tail) + rest, req, marker);
      SkipOver(tail, rest, req, marker);
  }

  lemma {:induction false} SkipOverStmt(s: Stmt, rest: seq<OpFrame>, req: int, marker: int)
    requires WellFormedStmt(s) && marker >= req
    ensures SkipFrames(FlattenStmt(s) + rest, req, marker) == SkipFrames(rest, req, marker)
  {
    match s
    case Basic(op) => SkipOne(op, rest, req, marker);
    case Cond(yes, None) =>
      var close := [OpEndIf] + rest;
      assert FlattenStmt(s) + rest == [OpIf] + (Flatten(yes) + close);
      SkipOne(OpIf, Flatten(yes) + close, req, marker);
      SkipOver(yes, close, req, marker + 1);
      SkipOne(OpEndIf, rest, req, marker + 1);
    case Cond(yes, Some(no)) =>
      var close := [OpEndIf] + rest;
      var middle := [OpElse] + (Flatten(no) + close);
      assert FlattenStmt(s) + rest == [OpIf] + (Flatten(yes) + middle);
      SkipOne(OpIf, Flatten(yes) + middle, req, marker);
      SkipOver(yes, middle, req, marker + 1);
      SkipOne(OpElse, Flatten(no) + close, req, marker + 1);
      SkipOver(no, close, req, marker + 1);
      SkipOne(OpEndIf, rest, req, marker + 1);
  }

  lemma SkipOne(op: OpFrame, rest: seq<OpFrame>, req: int, marker: int)
    ensures SkipFrames([op] + rest, req, marker)
         == if op.OpIf? then SkipFrames(rest, req, marker + 1)
            else if op.OpElse? && marker == req then Ok((rest, marker))
            else if op.OpEndIf? then if marker == req then Ok((rest, marker - 1)) else SkipFrames(rest, req, marker - 1)
            else SkipFrames(rest, req, marker)
  {
    assert ([op] + rest)[1..] == rest;
  }

  /** How the frame interpreter continues after code that ends as `f` says. */
  function Resume(d: EngineData, f: FlagFlow, rest: seq<OpFrame>, marker: int): Result<Machine, EvalErrKind> {
    match f
    case FlagBroke(kind) => Err(kind)
    case FlagLeft(vm, flag) => Ok(Machine(vm, 0, flag))
    case FlagFell(vm, flag) => RunFrames(d, rest, Machine(vm, marker, flag))
  }

  /** For every program, in every state and at every depth, the flat interpreter computes the
      flagged meaning, and the depth counter is restored behind it. */
  lemma {:induction false} FlatIsFlagged(d: EngineData, c: Code, rest: seq<OpFrame>, vm: Vm, marker: int, flag: bool)
    requires WellFormed(c)
    ensures RunFrames(d, Flatten(c) + rest, Machine(vm, marker, flag))
         == Resume(d, ExecFlag(d, c, vm, flag), rest, marker)
    decreases c, 1
  {
    match c
    case Done => assert Flatten(c) + rest == rest;
    case Then(s, tail) =>
      hide RunFrames;
      assert Flatten(c) + rest == FlattenStmt(s) + (Flatten(tail) + rest);
      FlatIsFlaggedStmt(d, s, Flatten(tail) + rest, vm, marker, flag);
      var f := ExecFlagStmt(d, s, vm, flag);
      if f.FlagFell? {
        FlatIsFlagged(d, tail, rest, f.vm, marker, f.flag);
      }
  }

  function AfterStep(d: EngineData, rest: seq<OpFrame>, m: Machine, r: Result<Step, EvalErrKind>):
      Result<Machine, EvalErrKind>
  {
    match r
    case Err(kind) => Err(kind)
    case Ok(Next(vm)) => RunFrames(d, rest, m.(vm := vm))
    case Ok(Halted(vm)) => Ok(m.(vm := vm, marker := 0))
  }

  function AfterSkip(d: EngineData, rest: seq<OpFrame>, m: Machine): Result<Machine, EvalErrKind> {
    match SkipFrames(rest, m.marker, m.marker)
    case Err(kind) => Err(kind)
    case Ok(landed) => RunFrames(d, landed.0, m.(marker := landed.1))
  }

  lemma RunBasic(d: EngineData, op: OpFrame, rest: seq<OpFrame>, m: Machine)
    requires IsBasic(op)
    ensures RunFrames(d, [op] + rest, m) == AfterStep(d, rest, m, StepOp(d, m.vm, op))
  {
    hide StepOp;
    assert ([op] + rest)[1..] == rest;
  }

  lemma RunDelimiter(d: EngineData, op: OpFrame, rest: seq<OpFrame>, m: Machine)
    requires op.OpElse? || op.OpEndIf?
    ensures RunFrames(d, [op] + rest, m)
         == if op.OpEndIf? then RunFrames(d, rest, m.(marker := m.marker - 1))
            else if m.ignoreElse then AfterSkip(d, rest, m)
            else RunFrames(d, rest, m)
  {
    assert ([op] + rest)[1..] == rest;
  }

  /** The machine just inside a conditional whose condition `popped` has come off the stack. */
  function Entered(m: Machine, popped: (bool, seq<OpFrame>)): Machine {
    Machine(m.vm.(stack := popped.1), m.marker + 1, popped.0)
  }

  function AfterIf(d: EngineData, rest: seq<OpFrame>, m: Machine, p: Result<(bool, seq<OpFrame>), EvalErrKind>):
      Result<Machine, EvalErrKind>
  {
    if p.Err? then Err(p.error)
    else if p.value.0 then RunFrames(d, rest, Entered(m, p.value))
    else AfterSkip(d, rest, Entered(m, p.value))
  }

  lemma RunIf(d: EngineData, rest: seq<OpFrame>, m: Machine)
    ensures RunFrames(d, [OpIf] + rest, m) == AfterIf(d, rest, m, PopBool(m.vm.stack))
  {
    assert ([OpIf] + rest)[1..] == rest;
  }

  lemma {:induction false} FlatIsFlaggedStmt(d: EngineData, s: Stmt, rest: seq<OpFrame>, vm: Vm, marker: int, flag: bool)
    requires WellFormedStmt(s)
    ensures RunFrames(d, FlattenStmt(s) + rest, Machine(vm, marker, flag))
         == Resume(d, ExecFlagStmt(d, s, vm, flag), rest, marker)
    decreases s, 0
  {
    hide RunFrames, SkipFrames;
    match s
    case Basic(op) => RunBasic(d, op, rest, Machine(vm, marker, flag));
    case Cond(yes, None) => FlatIsFlaggedIf(d, yes, rest, vm, marker, flag);
    case Cond(yes, Some(no)) => FlatIsFlaggedIfElse(d, yes, no, rest, vm, marker, flag);
  }

  lemma {:induction false} FlatIsFlaggedIf(d: EngineData, yes: Code, rest: seq<OpFrame>, vm: Vm, marker: int, flag: bool)
    requires WellFormed(yes)
    ensures RunFrames(d, FlattenStmt(Cond(yes, None)) + rest, Machine(vm, marker, flag))
         == Resume(d, ExecFlagStmt(d, Cond(yes, None), vm, flag), rest, marker)
    decreases yes, 2
  {
    hide RunFrames, SkipFrames, ExecFlag, Flatten;
    var s := Cond(yes, None);
    var close := [OpEndIf] + rest;
    assert FlattenStmt(s) + rest == [OpIf] + (Flatten(yes) + close);
    RunIf(d, Flatten(yes) + close, Machine(vm, marker, flag));
    var popped := PopBool(vm.stack);
    if popped.Ok? {
      var vm' := vm.(stack := popped.value.1);
      if popped.value.0 {
        FlatIsFlagged(d, yes, close, vm', marker + 1, true);
        var f := ExecFlag(d, yes, vm', true);
        if f.FlagFell? {
          RunDelimiter(d, OpEndIf, rest, Machine(f.vm, marker + 1, f.flag));
        }
      } else {
        SkipOver(yes, close, marker + 1, marker + 1);
        SkipOne(OpEndIf, rest, marker + 1, marker + 1);
      }
    }
  }

  lemma {:induction false} FlatIsFlaggedIfElse(d: EngineData, yes: Code, no: Code, rest: seq<OpFrame>, vm: Vm, marker: int,
      flag: bool)
    requires WellFormed(yes) && WellFormed(no)
    ensures RunFrames(d, FlattenStmt(Cond(yes, Some(no))) + rest, Machine(vm, marker, flag))
         == Resume(d, ExecFlagStmt(d, Cond(yes, Some(no)), vm, flag), rest, marker)
    decreases Cond(yes, Some(no)), -1
  {
    hide RunFrames, SkipFrames, ExecFlag, Flatten;
    var s := Cond(yes, Some(no));
    var close := [OpEndIf] + rest;
    var middle := [OpElse] + (Flatten(no) + close);
    assert FlattenStmt(s) + rest == [OpIf] + (Flatten(yes) + middle);
    RunIf(d, Flatten(yes) + middle, Machine(vm, marker, flag));
    var popped := PopBool(vm.stack);
    if popped.Ok? {
      var vm' := vm.(stack := popped.value.1);
      if popped.value.0 {
        FlatIsFlagged(d, yes, middle, vm', marker + 1, true);
        var f := ExecFlag(d, yes, vm', true);
        if f.FlagFell? {
          var m := Machine(f.vm, marker + 1, f.flag);
          RunDelimiter(d, OpElse, Flatten(no) + close, m);
          if f.flag {
            SkipOver(no, close, marker + 1, marker + 1);
            SkipOne(OpEndIf, rest, marker + 1, marker + 1);
          } else {
            ElseBranch(d, no, rest, f.vm, marker, f.flag);
          }
        }
      } else {
        SkipOver(yes, middle, marker + 1, marker + 1);
        SkipOne(OpElse, Flatten(no) + close, marker + 1, marker + 1);
        ElseBranch(d, no, rest, vm', marker, false);
      }
    }
  }

  lemma {:induction false} ElseBranch(d: EngineData, no: Code, rest: seq<OpFrame>, vm: Vm, marker: int, flag: bool)
    requires WellFormed(no)
    ensures RunFrames(d, Flatten(no) + ([OpEndIf] + rest), Machine(vm, marker + 1, flag))
         == Resume(d, ExecFlag(d, no, vm, flag), rest, marker)
    decreases no, 2
  {
    hide RunFrames, ExecFlag, Flatten;
    FlatIsFlagged(d, no, [OpEndIf] + rest, vm, marker + 1, flag);
    var f := ExecFlag(d, no, vm, flag);
    if f.FlagFell? {
      RunDelimiter(d, OpEndIf, rest, Machine(f.vm, marker + 1, f.flag));
    }
  }

  // ----- programs inside built scripts -----

  /** A result without the position of its error; a panic is not a result. */
  function Kinds(r: EvalResult): Option<Result<seq<LogEntry>, EvalErrKind>> {
    match r
    case Success(log) => Some(Ok(log))
    case Failure(e) => Some(Err(e.kind))
    case Panic => None
  }

  function Decide(d: EngineData, f: Flow): Result<seq<LogEntry>, EvalErrKind> {
    match f
    case Broke(kind) => Err(kind)
    case Fell(vm) => Conclude(d.tx, Machine(vm, 0, false))
    case Left(vm) => Conclude(d.tx, Machine(vm, 0, false))
  }

  /** Calling a function whose body is a program, as its author means it. */
  function StructuredCall(d: EngineData, args: seq<Arg>, c: Code): Result<seq<LogEntry>, EvalErrKind>
    requires WellFormed(c)
  {
    var st :- PushArgs([], args, FnArgs(d.tx));
    Decide(d, Exec(d, c, Vm(st, [], TotalAmount(d.tx))))
  }

  /** The same with the interpreter's flag, which is clear when a function is entered. */
  function FlaggedCall(d: EngineData, args: seq<Arg>, c: Code): Result<seq<LogEntry>, EvalErrKind>
    requires WellFormed(c)
  {
    var st :- PushArgs([], args, FnArgs(d.tx));
    Decide(d, Forget(ExecFlag(d, c, Vm(st, [], TotalAmount(d.tx)), false)))
  }

  /** The first function pushed under `id` is `fns[k]`, and its body is the program `c`. */
  predicate Holds(fns: seq<FnDef>, id: byte, k: nat, c: Code) {
    && |fns| <= 255 && (forall f | f in fns :: FnFits(f))
    && k < |fns| && NoneBefore(fns, id, k) && fns[k].id == id
    && WellFormed(c) && fns[k].body == Flatten(c)
  }

  lemma RunToDefinition(d: EngineData, fns: seq<FnDef>, m: Machine)
    ensures RunFrames(d, AllFrames(fns), m) == Ok(m)
  {
    if fns != [] {
      assert AllFrames(fns)[0] == OpDefine(fns[0].args);
    }
  }

  /** The body of a function in a built script, entered with any stack. */
  lemma BuiltBodyRuns(d: EngineData, fns: seq<FnDef>, pos: nat, c: Code, vm: Vm)
    requires WellFormed(c) && At(d.script, pos, Flatten(c) + AllFrames(fns))
    ensures pos <= |d.script|
    ensures Kinds(RunFrom(d, pos, Machine(vm, 0, false))) == Some(Decide(d, Forget(ExecFlag(d, c, vm, false))))
  {
    hide At, RunBytes, RunFrames, ExecFlag, AllFrames;
    var m := Machine(vm, 0, false);
    RunBytesOf(d, pos, Flatten(c) + AllFrames(fns), m);
    FlatIsFlagged(d, c, AllFrames(fns), vm, 0, false);
    var f := ExecFlag(d, c, vm, false);
    if f.FlagFell? {
      RunToDefinition(d, fns, Machine(f.vm, 0, f.flag));
    }
  }

  lemma BuiltEntry(script: seq<byte>, fns: seq<FnDef>, id: byte, k: nat, c: Code)
    requires Holds(fns, id, k, c) && BuildScript(fns) == Ok(script)
    ensures EntryPoint(script, id).Enter? && EntryPoint(script, id).args == fns[k].args
    ensures At(script, EntryPoint(script, id).pos, Flatten(c) + AllFrames(fns[k + 1..]))
  {
    BuiltLookup(fns, script, id, k);
    AllFramesFit(fns[k..]);
    AllFramesFrom(fns, k);
    hide BuildScript, FnPtr, DecodeOp, EncodeOps, AllFrames, Flatten;
    AtStep(script, FnPtr(script, id).ptr, AllFrames(fns[k..]));
  }

  lemma AllFramesFrom(fns: seq<FnDef>, k: nat)
    requires k < |fns|
    ensures AllFrames(fns[k..]) != [] && AllFrames(fns[k..])[0] == OpDefine(fns[k].args)
    ensures AllFrames(fns[k..])[1..] == fns[k].body + AllFrames(fns[k + 1..])
  {
    assert fns[k..][1..] == fns[k + 1..];
    assert AllFrames(fns[k..]) == Frames(fns[k]) + AllFrames(fns[k + 1..]);
  }

  /** From source to verdict: calling a function of a built script computes the flagged meaning of
      its program, and never panics. */
  lemma BuiltProgramRuns(d: EngineData, fns: seq<FnDef>, id: byte, k: nat, c: Code)
    requires Holds(fns, id, k, c) && BuildScript(fns) == Ok(d.script)
    ensures Kinds(CallFn(d, id)) == Some(FlaggedCall(d, fns[k].args, c))
  {
    BuiltEntry(d.script, fns, id, k, c);
    hide BuildScript, EntryPoint, RunFrom, At, ExecFlag, PushArgs, Decide, AllFrames, Flatten;
    var st := PushArgs([], fns[k].args, FnArgs(d.tx));
    if st.Ok? {
      BuiltBodyRuns(d, fns[k + 1..], EntryPoint(d.script, id).pos, c, Vm(st.value, [], TotalAmount(d.tx)));
    }
  }

  /** Compiling a tame program preserves its meaning: the log or the kind of error is the one its
      author reads off the if/else structure. */
  lemma TameProgramRuns(d: EngineData, fns: seq<FnDef>, id: byte, k: nat, c: Code)
    requires Holds(fns, id, k, c) && BuildScript(fns) == Ok(d.script) && Tame(c)
    ensures Kinds(CallFn(d, id)) == Some(StructuredCall(d, fns[k].args, c))
  {
    BuiltProgramRuns(d, fns, id, k, c);
    hide CallFn, ExecFlag, Exec, Tame;
    var st := PushArgs([], fns[k].args, FnArgs(d.tx));
    if st.Ok? {
      TameAgrees(d, c, Vm(st.value, [], TotalAmount(d.tx)), false);
    }
  }

  // ----- where the two part -----

  /** `if false {}` */
  const INNER_IF: Code := Then(Basic(OpFalse), Then(Cond(Done, None), Done))

  const OUTER_IF: Stmt := Cond(INNER_IF, Some(Then(Basic(OpAbort), Done)))

  const PUSH_TRUE: Code := Then(Basic(OpTrue), Done)

  /** `if true { if false {} } else { abort }; true`: not tame. */
  const NESTED_PROGRAM: Code := Then(Basic(OpTrue), Then(OUTER_IF, PUSH_TRUE))

  lemma InnerIfRuns(d: EngineData, vm: Vm)
    requires vm.stack == []
    ensures Exec(d, INNER_IF, vm) == Fell(vm)
    ensures ExecFlag(d, INNER_IF, vm, true) == FlagFell(vm, false)
  {
    var last := Then(Cond(Done, None), Done);
    var onFalse := vm.(stack := [OpFalse]);
    assert PopBool([OpFalse]) == Ok((false, []));
    assert [] + [OpFalse] == [OpFalse];
    assert ExecStmt(d, Cond(Done, None), onFalse) == Fell(vm);
    assert Exec(d, last, onFalse) == Exec(d, Done, vm) == Fell(vm);
    assert ExecFlagStmt(d, Cond(Done, None), onFalse, true) == FlagFell(vm, false);
    assert ExecFlag(d, last, onFalse, true) == ExecFlag(d, Done, vm, false) == FlagFell(vm, false);
  }

  lemma OuterIfRuns(d: EngineData, vm: Vm, flag: bool)
    requires vm.stack == []
    ensures ExecStmt(d, OUTER_IF, vm.(stack := [OpTrue])) == Fell(vm)
    ensures ExecFlagStmt(d, OUTER_IF, vm.(stack := [OpTrue]), flag) == FlagBroke(Aborted)
  {
    InnerIfRuns(d, vm);
    assert PopBool([OpTrue]) == Ok((true, []));
    assert vm.(stack := []) == vm;
    assert ExecFlagStmt(d, Basic(OpAbort), vm, false) == FlagBroke(Aborted);
    assert ExecFlag(d, Then(Basic(OpAbort), Done), vm, false) == FlagBroke(Aborted);
  }

  /** The author expects the else branch to be passed over; the interpreter runs it, for every
      transaction and every chain, because the inner conditional has cleared the flag. */
  lemma NestedProgramDiffers(d: EngineData, vm: Vm, flag: bool)
    requires vm.stack == []
    ensures WellFormed(NESTED_PROGRAM) && !Tame(NESTED_PROGRAM)
    ensures Exec(d, NESTED_PROGRAM, vm) == Fell(vm.(stack := [OpTrue]))
    ensures ExecFlag(d, NESTED_PROGRAM, vm, flag) == FlagBroke(Aborted)
  {
    var onTrue := vm.(stack := [OpTrue]);
    OuterIfRuns(d, vm, flag);
    assert [] + [OpTrue] == [OpTrue];
    assert ExecStmt(d, Basic(OpTrue), vm) == Fell(onTrue);
    assert Exec(d, PUSH_TRUE, vm) == Exec(d, Done, onTrue) == Fell(onTrue);
    assert Exec(d, Then(OUTER_IF, PUSH_TRUE), onTrue) == Exec(d, PUSH_TRUE, vm);
    assert ExecFlagStmt(d, Basic(OpTrue), vm, flag) == FlagFell(onTrue, flag);
    assert ExecFlag(d, Then(OUTER_IF, PUSH_TRUE), onTrue, flag) == FlagBroke(Aborted);
  }

  /** What happens in general when a taken branch leaves the flag clear: the else branch runs
      after it, as if the two stood one behind the other. */
  lemma ClearFlagRunsBoth(d: EngineData, yes: Code, no: Code, st: seq<OpFrame>, vm: Vm, flag: bool)
    requires WellFormed(yes) && WellFormed(no) && PopBool(vm.stack) == Ok((true, st))
    ensures var f := ExecFlag(d, yes, vm.(stack := st), true);
            var g := ExecFlagStmt(d, Cond(yes, Some(no)), vm, flag);
            f.FlagFell? ==> g == if f.flag then f else ExecFlag(d, no, f.vm, false)
  {
  }
}
