// What script code computes, said in integers and truth values: arithmetic and conditions in postfix
// form (script/engine.rs, asset/mod.rs).

module Expressions {
  import opened Wrappers
  import opened Numbers
  import opened Assets
  import opened Accounts
  import opened Transactions
  import opened Blocks
  import opened Ops
  import opened Builders
  import opened Engine
  import opened Structured

  // ----- arithmetic -----

  datatype ArithOp = Plus | Minus | Times | Over

  /** Literals, the whole amount of the transaction, what is left of it, and the four operations. */
  datatype Expr = Lit(v: Asset) | Whole | Left | Bin(op: ArithOp, a: Expr, b: Expr)

  /** Both operands from left to right, then the operation. */
  function Postfix(e: Expr): seq<OpFrame> {
    match e
    case Lit(v) => [OpAsset(v)]
    case Whole => [OpLoadAmt]
    case Left => [OpLoadRemAmt]
    case Bin(op, a, b) => Postfix(a) + Postfix(b) + [OpOf(op)]
  }

  function OpOf(op: ArithOp): OpFrame {
    match op
    case Plus => OpAdd
    case Minus => OpSub
    case Times => OpMul
    case Over => OpDiv
  }

  /** Division of whole numbers, the remainder dropped. */
  function Toward0(n: int, d: int): int
    requires d != 0
  {
    if n >= 0 && d > 0 then n / d
    else if n < 0 && d < 0 then (-n) / (-d)
    else if d > 0 then -((-n) / d)
    else -(n / (-d))
  }

  /** The numbers of 64 bits. */
  predicate In64(x: int) {
    -0x8000_0000_0000_0000 <= x <= 0x7FFF_FFFF_FFFF_FFFF
  }

  /** The number of 64 bits with the same low bits. */
  function LowBits(x: int): int {
    (x + 0x8000_0000_0000_0000) % 0x1_0000_0000_0000_0000 - 0x8000_0000_0000_0000
  }

  /** One operation on amounts of five decimals. A product has no result above 64 bits and loses its
      high bits below; a quotient has none where its dividend does not fit with five more decimals. */
  function Compute(op: ArithOp, a: int, b: int): Option<int> {
    match op
    case Plus => if In64(a + b) then Some(a + b) else None
    case Minus => if In64(a - b) then Some(a - b) else None
    case Times =>
      var p := Toward0(a * b, 100_000);
      if p > 0x7FFF_FFFF_FFFF_FFFF then None else Some(LowBits(p))
    case Over =>
      if b == 0 || !In64(a * 100_000) then None
      else
        var q := Toward0(a * 100_000, b);
        if In64(q) then Some(q) else None
  }

  /** The value of the expression, the stack being `depth` high; it can hold 64 items. */
  function Value(e: Expr, whole: int, left: int, depth: nat): Result<int, EvalErrKind> {
    match e
    case Lit(v) => if depth >= 64 then Err(StackOverflow) else Ok(v)
    case Whole => if depth >= 64 then Err(StackOverflow) else Ok(whole)
    case Left => if depth >= 64 then Err(StackOverflow) else Ok(left)
    case Bin(op, a, b) =>
      var x :- Value(a, whole, left, depth);
      var y :- Value(b, whole, left, depth + 1);
      match Compute(op, x, y)
      case None => Err(Arithmetic)
      case Some(z) => Ok(z)
  }

  /** What the transaction is about to move. */
  function AmountOf(tx: TxVariant): Asset {
    match tx
    case OwnerTx(_, _, _) => 0
    case MintTx(_, _, _, _, _) => 0
    case CreateAccountTx(_, _, _) => 0
    case UpdateAccountTx(_, _, _, _) => 0
    case TransferTx(_, _, _, _, amount, _) => amount
  }

  lemma Toward0Is(n: int, d: int)
    requires d != 0
    ensures TruncDiv(n, d) == Toward0(n, d)
  {
  }

  lemma ComputeFits(op: ArithOp, a: Asset, b: Asset)
    ensures Compute(op, a, b).Some? ==> In64(Compute(op, a, b).value)
  {
    hide Toward0;
  }

  lemma ArithIs(op: ArithOp, a: Asset, b: Asset)
    ensures Arith(OpOf(op), a, b) == Compute(op, a, b)
  {
    match op
    case Plus =>
    case Minus =>
    case Times =>
      Toward0Is(a * b, 100_000);
      hide TruncDiv, Toward0;
      LowBitsIs(Toward0(a * b, 100_000));
    case Over =>
      assert Pow(10, 5) == 100_000;
      if b != 0 {
        Toward0Is(a * 100_000, b);
      }
      hide TruncDiv, Toward0, Pow;
  }

  /** Two amounts on top of the stack have given way to what the operation makes of them. */
  predicate Computed(op: ArithOp, before: seq<OpFrame>, after: seq<OpFrame>, r: Result<bool, EvalErrKind>) {
    var n := |before|;
    2 <= n <= 64 && before[n - 2].OpAsset? && before[n - 1].OpAsset? ==>
      var c := Compute(op, before[n - 2].amount, before[n - 1].amount);
      if c.None? then r == Err(Arithmetic)
      else r == Ok(false) && |after| == n - 1 && after[..n - 2] == before[..n - 2]
           && after[n - 2].OpAsset? && after[n - 2].amount == c.value
  }

  lemma StepComputes(before: Vm, op: ArithOp, after: Vm, r: Result<bool, EvalErrKind>)
    requires match StepArith(before, OpOf(op))
             case Err(kind) => r == Err(kind)
             case Ok(Next(vm)) => r == Ok(false) && after == vm
             case Ok(Halted(_)) => true
    ensures Computed(op, before.stack, after.stack, r)
  {
    hide Compute, Arith;
    var n := |before.stack|;
    if n >= 2 && before.stack[n - 2].OpAsset? && before.stack[n - 1].OpAsset? {
      ArithIs(op, before.stack[n - 2].amount, before.stack[n - 1].amount);
    }
  }

  lemma LowBitsIs(x: int)
    ensures WrapI64(x) == LowBits(x)
    ensures In64(x) ==> LowBits(x) == x
  {
  }

  /** What the stack holds behind the code of an expression, or how it fails. */
  function AfterExpr(d: EngineData, e: Expr, rest: seq<OpFrame>, m: Machine): Result<Machine, EvalErrKind> {
    match Value(e, AmountOf(d.tx), m.vm.remaining, |m.vm.stack|)
    case Err(kind) => Err(kind)
    case Ok(v) => if In64(v) then RunFrames(d, rest, OnTop(m, OpAsset(v))) else Err(Arithmetic)
  }

  function OnTop(m: Machine, f: OpFrame): Machine {
    m.(vm := m.vm.(stack := m.vm.stack + [f]))
  }

  lemma {:induction false} ValueFits(e: Expr, whole: Asset, left: Asset, depth: nat)
    ensures Value(e, whole, left, depth).Ok? ==> In64(Value(e, whole, left, depth).value)
  {
    if e.Bin? {
      ValueFits(e.a, whole, left, depth);
      ValueFits(e.b, whole, left, depth + 1);
      hide Compute;
      var x, y := Value(e.a, whole, left, depth), Value(e.b, whole, left, depth + 1);
      if x.Ok? && y.Ok? {
        ComputeFits(e.op, x.value, y.value);
      }
    }
  }

  lemma PushRuns(d: EngineData, op: OpFrame, f: OpFrame, rest: seq<OpFrame>, m: Machine)
    requires IsBasic(op) && StepOp(d, m.vm, op) == PushOn(m.vm, m.vm.stack, f)
    ensures RunFrames(d, [op] + rest, m)
         == if |m.vm.stack| >= 64 then Err(StackOverflow) else RunFrames(d, rest, OnTop(m, f))
  {
    RunBasic(d, op, rest, m);
    hide RunFrames, StepOp;
  }

  lemma OpRuns(d: EngineData, op: ArithOp, x: Asset, y: Asset, rest: seq<OpFrame>, m: Machine)
    requires |m.vm.stack| < 64
    ensures RunFrames(d, [OpOf(op)] + rest, OnTop(OnTop(m, OpAsset(x)), OpAsset(y)))
         == match Compute(op, x, y)
            case None => Err(Arithmetic)
            case Some(z) => if In64(z) then RunFrames(d, rest, OnTop(m, OpAsset(z))) else Err(Arithmetic)
  {
    var st := m.vm.stack;
    var m2 := OnTop(OnTop(m, OpAsset(x)), OpAsset(y));
    RunBasic(d, OpOf(op), rest, m2);
    ArithIs(op, x, y);
    ComputeFits(op, x, y);
    hide RunFrames, Compute, Arith;
    assert m2.vm.stack[..|st| + 1] == st + [OpAsset(x)] && (st + [OpAsset(x)])[..|st|] == st;
    assert PopAsset(m2.vm.stack) == Ok((y, st + [OpAsset(x)]));
    assert PopAsset(st + [OpAsset(x)]) == Ok((x, st));
  }

  /** In every state and in front of any further operations: the code of an expression leaves exactly
      its value on the stack, and changes nothing else. It fails for its arithmetic exactly where a
      step has no result, and for the stack exactly where a 65th item would be pushed. */
  lemma {:induction false} ExprRuns(d: EngineData, e: Expr, rest: seq<OpFrame>, m: Machine)
    requires |m.vm.stack| <= 64
    ensures RunFrames(d, Postfix(e) + rest, m) == AfterExpr(d, e, rest, m)
  {
    match e
    case Lit(v) =>
      PushRuns(d, OpAsset(v), OpAsset(v), rest, m);
      hide RunFrames;
    case Whole =>
      PushRuns(d, OpLoadAmt, OpAsset(AmountOf(d.tx)), rest, m);
      hide RunFrames;
    case Left =>
      PushRuns(d, OpLoadRemAmt, OpAsset(m.vm.remaining), rest, m);
      hide RunFrames;
    case Bin(op, a, b) =>
      hide RunFrames;
      var code := Postfix(b) + ([OpOf(op)] + rest);
      assert Postfix(e) + rest == Postfix(a) + code;
      ExprRuns(d, a, code, m);
      var x := Value(a, AmountOf(d.tx), m.vm.remaining, |m.vm.stack|);
      if x.Ok? {
        ValueFits(a, AmountOf(d.tx), m.vm.remaining, |m.vm.stack|);
        ValueNeedsRoom(a, AmountOf(d.tx), m.vm.remaining, |m.vm.stack|);
        Fits64(x.value);
        ExprRuns(d, b, [OpOf(op)] + rest, OnTop(m, OpAsset(x.value)));
        SecondOperand(d, op, a, b, x.value, rest, m);
      }
  }

  /** Behind the code of the first operand. */
  lemma SecondOperand(d: EngineData, op: ArithOp, a: Expr, b: Expr, x: Asset, rest: seq<OpFrame>, m: Machine)
    requires |m.vm.stack| < 64 && Value(a, AmountOf(d.tx), m.vm.remaining, |m.vm.stack|) == Ok(x)
    ensures AfterExpr(d, b, [OpOf(op)] + rest, OnTop(m, OpAsset(x))) == AfterExpr(d, Bin(op, a, b), rest, m)
  {
    hide RunFrames, Compute, In64, AmountOf;
    var y := Value(b, AmountOf(d.tx), m.vm.remaining, |m.vm.stack| + 1);
    if y.Ok? {
      ValueFits(b, AmountOf(d.tx), m.vm.remaining, |m.vm.stack| + 1);
      Fits64(y.value);
      OpRuns(d, op, x, y.value, rest, m);
    }
  }

  lemma Fits64(x: int)
    requires In64(x)
    ensures FitsI64(x)
  {
  }

  lemma {:induction false} ValueNeedsRoom(e: Expr, whole: int, left: int, depth: nat)
    ensures Value(e, whole, left, depth).Ok? ==> depth < 64
  {
    if e.Bin? {
      ValueNeedsRoom(e.a, whole, left, depth);
    }
  }

  // ----- conditions -----

  /** Truth values, negation, the time of the head block, the approval of one account, and of at least
      so many of some accounts. */
  datatype Test =
    | Truth(b: bool)
    | Not(t: Test)
    | Reached(time: u64)
    | Approved(id: AccountId)
    | ApprovedBy(threshold: byte, ids: seq<AccountId>)

  function TestCode(t: Test): seq<OpFrame> {
    match t
    case Truth(b) => [if b then OpTrue else OpFalse]
    case Not(t') => TestCode(t') + [OpNot]
    case Reached(time) => [OpCheckTime(time)]
    case Approved(id) => [OpAccountId(id), OpCheckPerms]
    case ApprovedBy(threshold, ids) => Pushes(ids) + [OpCheckMultiPerms(threshold, |ids| % 256)]
  }

  /** The operations that push the accounts, and what they leave on the stack. */
  function Pushes(ids: seq<AccountId>): (fs: seq<OpFrame>)
    ensures |fs| == |ids| && forall i | 0 <= i < |fs| :: fs[i] == OpAccountId(ids[i])
  {
    if ids == [] then [] else Pushes(ids[..|ids| - 1]) + [OpAccountId(ids[|ids| - 1])]
  }

  /** The account pushed last is asked first. */
  function Backwards(ids: seq<AccountId>): (back: seq<AccountId>)
    ensures |back| == |ids| && forall i | 0 <= i < |back| :: back[i] == ids[|ids| - 1 - i]
  {
    if ids == [] then [] else [ids[|ids| - 1]] + Backwards(ids[..|ids| - 1])
  }

  /** The number of accounts fits its byte. */
  predicate Posed(t: Test) {
    match t
    case Not(t') => Posed(t')
    case ApprovedBy(_, ids) => |ids| <= 255
    case _ => true
  }

  /** The truth value of the condition; of approvals it is the vote of the accounts. */
  function Holding(d: EngineData, t: Test, depth: nat): Result<bool, EvalErrKind> {
    match t
    case Truth(b) => if depth >= 64 then Err(StackOverflow) else Ok(b)
    case Not(t') => var b :- Holding(d, t', depth); Ok(!b)
    case Reached(time) => if depth >= 64 then Err(StackOverflow) else Ok(time <= d.headTime)
    case Approved(id) => if depth >= 64 then Err(StackOverflow) else CheckAccPerms(d, 1, [id])
    case ApprovedBy(threshold, ids) =>
      if depth + |ids| > 64 || depth >= 64 then Err(StackOverflow)
      else CheckAccPerms(d, threshold, Backwards(ids))
  }

  function AfterTest(d: EngineData, t: Test, rest: seq<OpFrame>, m: Machine): Result<Machine, EvalErrKind> {
    match Holding(d, t, |m.vm.stack|)
    case Err(kind) => Err(kind)
    case Ok(b) => RunFrames(d, rest, OnTop(m, if b then OpTrue else OpFalse))
  }

  lemma {:induction false} PushesRun(d: EngineData, ids: seq<AccountId>, rest: seq<OpFrame>, m: Machine)
    requires |m.vm.stack| <= 64
    ensures RunFrames(d, Pushes(ids) + rest, m)
         == if |m.vm.stack| + |ids| > 64 then Err(StackOverflow)
            else RunFrames(d, rest, m.(vm := m.vm.(stack := m.vm.stack + Pushes(ids))))
    decreases |ids|
  {
    hide RunFrames;
    if ids == [] {
      assert Pushes(ids) + rest == rest && m.vm.stack + Pushes(ids) == m.vm.stack;
    } else {
      var front, last := ids[..|ids| - 1], OpAccountId(ids[|ids| - 1]);
      assert Pushes(ids) + rest == Pushes(front) + ([last] + rest);
      PushesRun(d, front, [last] + rest, m);
      if |m.vm.stack| + |front| <= 64 {
        var m1 := m.(vm := m.vm.(stack := m.vm.stack + Pushes(front)));
        PushRuns(d, last, last, rest, m1);
        assert m1.vm.stack + [last] == m.vm.stack + Pushes(ids);
      }
    }
  }

  lemma {:induction false} PopsBackwards(st: seq<OpFrame>, ids: seq<AccountId>, k: nat)
    requires k <= |ids|
    ensures PopAccountIds(st + Pushes(ids), k) == Ok((Backwards(ids)[..k], st + Pushes(ids[..|ids| - k])))
  {
    hide Pushes, Backwards;
    if k == 0 {
      assert ids[..|ids|] == ids;
    } else {
      PopsBackwards(st, ids, k - 1);
      var n := |ids| - k + 1;
      var left := st + Pushes(ids[..n]);
      assert left[|left| - 1] == OpAccountId(ids[n - 1]);
      assert left[..|left| - 1] == st + Pushes(ids[..n - 1]);
      assert Backwards(ids)[..k] == Backwards(ids)[..k - 1] + [ids[n - 1]];
    }
  }

  function Answer(vm: Vm, st: seq<OpFrame>, r: Result<bool, EvalErrKind>): Result<Step, EvalErrKind> {
    match r
    case Err(kind) => Err(kind)
    case Ok(b) => PushOn(vm, st, if b then OpTrue else OpFalse)
  }

  function WithPushed(m: Machine, ids: seq<AccountId>): Machine {
    m.(vm := m.vm.(stack := m.vm.stack + Pushes(ids)))
  }

  lemma {:induction false} AsksAll(d: EngineData, threshold: byte, ids: seq<AccountId>, m: Machine)
    requires |ids| <= 255
    ensures StepOp(d, WithPushed(m, ids).vm, OpCheckMultiPerms(threshold, |ids|))
         == Answer(WithPushed(m, ids).vm, m.vm.stack, CheckAccPerms(d, threshold, Backwards(ids)))
  {
    hide CheckAccPerms, PopAccountIds, Pushes, Backwards;
    PopsBackwards(m.vm.stack, ids, |ids|);
    assert Backwards(ids)[..|ids|] == Backwards(ids) && m.vm.stack + Pushes(ids[..0]) == m.vm.stack;
  }

  lemma {:induction false} AsksOne(d: EngineData, id: AccountId, m: Machine)
    ensures StepOp(d, OnTop(m, OpAccountId(id)).vm, OpCheckPerms)
         == Answer(OnTop(m, OpAccountId(id)).vm, m.vm.stack, CheckAccPerms(d, 1, [id]))
  {
    hide CheckAccPerms, PopAccountIds, Pushes, Backwards;
    PopsBackwards(m.vm.stack, [id], 1);
    assert Backwards([id])[..1] == [id] && Pushes([id]) == [OpAccountId(id)];
    assert m.vm.stack + Pushes([id][..0]) == m.vm.stack;
  }

  lemma NegationRuns(d: EngineData, b: bool, rest: seq<OpFrame>, m: Machine)
    requires |m.vm.stack| < 64
    ensures RunFrames(d, [OpNot] + rest, OnTop(m, if b then OpTrue else OpFalse))
         == RunFrames(d, rest, OnTop(m, if b then OpFalse else OpTrue))
  {
    var m1 := OnTop(m, if b then OpTrue else OpFalse);
    RunBasic(d, OpNot, rest, m1);
    hide RunFrames;
    assert m1.vm.stack[..|m.vm.stack|] == m.vm.stack;
  }

  lemma {:induction false} HoldingNeedsRoom(d: EngineData, t: Test, depth: nat)
    ensures Holding(d, t, depth).Ok? ==> depth < 64
  {
    hide CheckAccPerms;
    if t.Not? {
      HoldingNeedsRoom(d, t.t, depth);
    }
  }

  lemma {:induction false} AnswerRuns(d: EngineData, op: OpFrame, m1: Machine, r: Result<bool, EvalErrKind>,
                                      rest: seq<OpFrame>, m: Machine)
    requires IsBasic(op) && StepOp(d, m1.vm, op) == Answer(m1.vm, m.vm.stack, r)
    requires m1 == m.(vm := m.vm.(stack := m1.vm.stack))
    ensures RunFrames(d, [op] + rest, m1)
         == match r
            case Err(kind) => Err(kind)
            case Ok(b) =>
              if |m.vm.stack| >= 64 then Err(StackOverflow)
              else RunFrames(d, rest, OnTop(m, if b then OpTrue else OpFalse))
  {
    hide RunFrames, StepOp;
    RunBasic(d, op, rest, m1);
  }

  /** In every state and in front of any further operations: the code of a condition leaves exactly its
      truth value on the stack, and changes nothing else. */
  lemma {:induction false} TestRuns(d: EngineData, t: Test, rest: seq<OpFrame>, m: Machine)
    requires Posed(t) && |m.vm.stack| <= 64
    ensures RunFrames(d, TestCode(t) + rest, m) == AfterTest(d, t, rest, m)
  {
    hide RunFrames, CheckAccPerms, Pushes, Backwards;
    match t
    case Truth(b) =>
      PushRuns(d, if b then OpTrue else OpFalse, if b then OpTrue else OpFalse, rest, m);
    case Not(t') =>
      assert TestCode(t) + rest == TestCode(t') + ([OpNot] + rest);
      TestRuns(d, t', [OpNot] + rest, m);
      HoldingNeedsRoom(d, t', |m.vm.stack|);
      var b := Holding(d, t', |m.vm.stack|);
      if b.Ok? {
        NegationRuns(d, b.value, rest, m);
      }
    case Reached(time) =>
      PushRuns(d, OpCheckTime(time), if time <= d.headTime then OpTrue else OpFalse, rest, m);
    case Approved(id) => OneVoteRuns(d, id, rest, m);
    case ApprovedBy(threshold, ids) => VoteRuns(d, threshold, ids, rest, m);
  }

  lemma {:induction false} OneVoteRuns(d: EngineData, id: AccountId, rest: seq<OpFrame>, m: Machine)
    requires |m.vm.stack| <= 64
    ensures RunFrames(d, TestCode(Approved(id)) + rest, m) == AfterTest(d, Approved(id), rest, m)
  {
    assert TestCode(Approved(id)) + rest == [OpAccountId(id)] + ([OpCheckPerms] + rest);
    PushRuns(d, OpAccountId(id), OpAccountId(id), [OpCheckPerms] + rest, m);
    hide RunFrames, CheckAccPerms, StepOp;
    AsksOne(d, id, m);
    AnswerRuns(d, OpCheckPerms, OnTop(m, OpAccountId(id)), CheckAccPerms(d, 1, [id]), rest, m);
  }

  lemma {:induction false} VoteRuns(d: EngineData, threshold: byte, ids: seq<AccountId>, rest: seq<OpFrame>, m: Machine)
    requires |m.vm.stack| <= 64 && |ids| <= 255
    ensures RunFrames(d, TestCode(ApprovedBy(threshold, ids)) + rest, m)
         == AfterTest(d, ApprovedBy(threshold, ids), rest, m)
  {
    hide RunFrames, CheckAccPerms, StepOp, Pushes, Backwards;
    var check := OpCheckMultiPerms(threshold, |ids|);
    assert TestCode(ApprovedBy(threshold, ids)) + rest == Pushes(ids) + ([check] + rest);
    PushesRun(d, ids, [check] + rest, m);
    AsksAll(d, threshold, ids, m);
    AnswerRuns(d, check, WithPushed(m, ids), CheckAccPerms(d, threshold, Backwards(ids)), rest, m);
    if |ids| == 0 {
      NobodyAsked(d, threshold, ids);
    }
  }

  lemma NobodyAsked(d: EngineData, threshold: byte, ids: seq<AccountId>)
    requires ids == []
    ensures CheckAccPerms(d, threshold, Backwards(ids)).Ok?
  {
  }

  // ----- guards -----

  /** The forms of a check that fail at once. */
  datatype Guard =
    | UntilReached(time: u64)
    | UnlessApproved(id: AccountId)
    | UnlessApprovedBy(threshold: byte, ids: seq<AccountId>)

  function GuardCode(g: Guard): seq<OpFrame> {
    match g
    case UntilReached(time) => [OpCheckTimeFastFail(time)]
    case UnlessApproved(id) => [OpAccountId(id), OpCheckPermsFastFail]
    case UnlessApprovedBy(threshold, ids) => Pushes(ids) + [OpCheckMultiPermsFastFail(threshold, |ids| % 256)]
  }

  function Passing(d: EngineData, g: Guard, depth: nat): Result<bool, EvalErrKind> {
    match g
    case UntilReached(time) => Ok(time <= d.headTime)
    case UnlessApproved(id) => if depth >= 64 then Err(StackOverflow) else CheckAccPerms(d, 1, [id])
    case UnlessApprovedBy(threshold, ids) =>
      if depth + |ids| > 64 then Err(StackOverflow) else CheckAccPerms(d, threshold, Backwards(ids))
  }

  /** Goes on as if nothing had been there, or not at all. */
  function AfterGuard(d: EngineData, g: Guard, rest: seq<OpFrame>, m: Machine): Result<Machine, EvalErrKind> {
    match Passing(d, g, |m.vm.stack|)
    case Err(kind) => Err(kind)
    case Ok(b) => if b then RunFrames(d, rest, m) else Err(ScriptRetFalse)
  }

  function GuardAnswer(vm: Vm, st: seq<OpFrame>, r: Result<bool, EvalErrKind>): Result<Step, EvalErrKind> {
    match r
    case Err(kind) => Err(kind)
    case Ok(b) => if b then Ok(Next(vm.(stack := st))) else Err(ScriptRetFalse)
  }

  lemma {:induction false} GuardAnswerRuns(d: EngineData, op: OpFrame, m1: Machine, r: Result<bool, EvalErrKind>,
                                           rest: seq<OpFrame>, m: Machine)
    requires IsBasic(op) && StepOp(d, m1.vm, op) == GuardAnswer(m1.vm, m.vm.stack, r)
    requires m1 == m.(vm := m.vm.(stack := m1.vm.stack))
    ensures RunFrames(d, [op] + rest, m1)
         == match r
            case Err(kind) => Err(kind)
            case Ok(b) => if b then RunFrames(d, rest, m) else Err(ScriptRetFalse)
  {
    hide RunFrames, StepOp;
    RunBasic(d, op, rest, m1);
    assert m1.(vm := m1.vm.(stack := m.vm.stack)) == m;
  }

  lemma {:induction false} GuardsAll(d: EngineData, threshold: byte, ids: seq<AccountId>, m: Machine)
    requires |ids| <= 255
    ensures StepOp(d, WithPushed(m, ids).vm, OpCheckMultiPermsFastFail(threshold, |ids|))
         == GuardAnswer(WithPushed(m, ids).vm, m.vm.stack, CheckAccPerms(d, threshold, Backwards(ids)))
  {
    hide CheckAccPerms, PopAccountIds, Pushes, Backwards;
    PopsBackwards(m.vm.stack, ids, |ids|);
    assert Backwards(ids)[..|ids|] == Backwards(ids) && m.vm.stack + Pushes(ids[..0]) == m.vm.stack;
  }

  lemma {:induction false} GuardsOne(d: EngineData, id: AccountId, m: Machine)
    ensures StepOp(d, OnTop(m, OpAccountId(id)).vm, OpCheckPermsFastFail)
         == GuardAnswer(OnTop(m, OpAccountId(id)).vm, m.vm.stack, CheckAccPerms(d, 1, [id]))
  {
    hide CheckAccPerms, PopAccountIds, Pushes, Backwards;
    PopsBackwards(m.vm.stack, [id], 1);
    assert Backwards([id])[..1] == [id] && Pushes([id]) == [OpAccountId(id)];
    assert m.vm.stack + Pushes([id][..0]) == m.vm.stack;
  }

  /** A check in its failing form lets the script go on unchanged, or ends it. */
  lemma {:induction false} GuardRuns(d: EngineData, g: Guard, rest: seq<OpFrame>, m: Machine)
    requires |m.vm.stack| <= 64 && (g.UnlessApprovedBy? ==> |g.ids| <= 255)
    ensures RunFrames(d, GuardCode(g) + rest, m) == AfterGuard(d, g, rest, m)
  {
    hide RunFrames, CheckAccPerms, Pushes, Backwards;
    match g
    case UntilReached(time) =>
      RunBasic(d, OpCheckTimeFastFail(time), rest, m);
    case UnlessApproved(id) =>
      assert GuardCode(g) + rest == [OpAccountId(id)] + ([OpCheckPermsFastFail] + rest);
      PushRuns(d, OpAccountId(id), OpAccountId(id), [OpCheckPermsFastFail] + rest, m);
      GuardsOne(d, id, m);
      GuardAnswerRuns(d, OpCheckPermsFastFail, OnTop(m, OpAccountId(id)), CheckAccPerms(d, 1, [id]), rest, m);
    case UnlessApprovedBy(threshold, ids) =>
      var check := OpCheckMultiPermsFastFail(threshold, |ids|);
      assert GuardCode(g) + rest == Pushes(ids) + ([check] + rest);
      PushesRun(d, ids, [check] + rest, m);
      GuardsAll(d, threshold, ids, m);
      GuardAnswerRuns(d, check, WithPushed(m, ids), CheckAccPerms(d, threshold, Backwards(ids)), rest, m);
  }

  // ----- calls -----

  /** A program without conditionals. */
  function Line(ops: seq<OpFrame>): Code {
    if ops == [] then Done else Then(Basic(ops[0]), Line(ops[1..]))
  }

  predicate AllBasic(ops: seq<OpFrame>) {
    forall op | op in ops :: IsBasic(op)
  }

  lemma {:induction false} LineFlattens(ops: seq<OpFrame>)
    requires AllBasic(ops)
    ensures WellFormed(Line(ops)) && Flatten(Line(ops)) == ops
  {
    if ops != [] {
      assert ops[0] in ops;
      LineFlattens(ops[1..]);
      assert ops == [ops[0]] + ops[1..];
    }
  }

  /** The function `id` of the script has these arguments and operations. */
  predicate HasFunction(d: EngineData, fns: seq<FnDef>, id: byte, k: nat, args: seq<Arg>, ops: seq<OpFrame>) {
    && AllBasic(ops) && Holds(fns, id, k, Line(ops)) && BuildScript(fns) == Ok(d.script) && fns[k].args == args
  }

  /** The verdict on how the machine ended. */
  function Verdicts(d: EngineData, r: Result<Machine, EvalErrKind>): Result<seq<LogEntry>, EvalErrKind> {
    match r
    case Err(kind) => Err(kind)
    case Ok(m) => Conclude(d.tx, m)
  }

  function Entering(d: EngineData, st: seq<OpFrame>): Machine {
    Machine(Vm(st, [], AmountOf(d.tx)), 0, false)
  }

  /** Calling a function without conditionals: its operations, run on its arguments, and the verdict. */
  lemma {:induction false} LineCall(d: EngineData, fns: seq<FnDef>, id: byte, k: nat, args: seq<Arg>, ops: seq<OpFrame>)
    requires HasFunction(d, fns, id, k, args, ops)
    ensures Kinds(CallFn(d, id))
         == match PushArgs([], args, FnArgs(d.tx))
            case Err(kind) => Some(Err(kind))
            case Ok(st) => Some(Verdicts(d, RunFrames(d, ops, Entering(d, st))))
  {
    hide Holds, BuildScript, CallFn, RunFrames, ExecFlag, PushArgs, Conclude, Line;
    BuiltProgramRuns(d, fns, id, k, Line(ops));
    LineFlattens(ops);
    var st := PushArgs([], args, FnArgs(d.tx));
    if st.Ok? {
      EndOfLine(d, ops, Vm(st.value, [], AmountOf(d.tx)));
    }
  }

  lemma {:induction false} EndOfLine(d: EngineData, ops: seq<OpFrame>, vm: Vm)
    requires AllBasic(ops) && WellFormed(Line(ops))
    ensures Decide(d, Forget(ExecFlag(d, Line(ops), vm, false))) == Verdicts(d, RunFrames(d, ops, Machine(vm, 0, false)))
  {
    LineFlattens(ops);
    FlatIsFlagged(d, Line(ops), [], vm, 0, false);
    assert ops + [] == ops;
    assert forall m: Machine :: RunFrames(d, [], m) == Ok(m);
    hide RunFrames, ExecFlag, Line, AllBasic, PopBool, FinalLog;
  }

  /** Everything that is left goes back to the sender. */
  function Refund(tx: TxVariant, left: int): seq<LogEntry>
    requires FitsI64(left)
  {
    if tx.TransferTx? && left > 0 then [Transfer(tx.from, left)] else []
  }

  /** What a script that is one condition comes to: it succeeds exactly if the condition is true, and
      then sends nothing away. */
  lemma {:induction false} TestCall(d: EngineData, fns: seq<FnDef>, id: byte, k: nat, t: Test)
    requires Posed(t) && HasFunction(d, fns, id, k, [], TestCode(t))
    ensures Kinds(CallFn(d, id))
         == match Holding(d, t, 0)
            case Err(kind) => Some(Err(kind))
            case Ok(b) => if b then Some(Ok(Refund(d.tx, AmountOf(d.tx)))) else Some(Err(ScriptRetFalse))
  {
    hide HasFunction, CallFn, RunFrames, TestCode, Holding;
    LineCall(d, fns, id, k, [], TestCode(t));
    assert TestCode(t) + [] == TestCode(t);
    TestRuns(d, t, [], Entering(d, []));
    var b := Holding(d, t, 0);
    if b.Ok? {
      EndsWith(d, OnTop(Entering(d, []), if b.value then OpTrue else OpFalse), b.value, []);
      assert [] + Refund(d.tx, AmountOf(d.tx)) == Refund(d.tx, AmountOf(d.tx));
    }
  }

  /** How a script ends whose operations have run out with a truth value on top. */
  lemma {:induction false} EndsWith(d: EngineData, m: Machine, b: bool, st: seq<OpFrame>)
    requires m.vm.stack == st + [if b then OpTrue else OpFalse] && m.marker == 0
    requires m.vm.remaining > 0 ==> d.tx.TransferTx?
    requires m.vm.log != [] ==> m.vm.log[|m.vm.log| - 1].Transfer?
    ensures Verdicts(d, RunFrames(d, [], m))
         == if b then Ok(m.vm.log + Refund(d.tx, m.vm.remaining)) else Err(ScriptRetFalse)
  {
    assert m.vm.stack[|m.vm.stack| - 1] == if b then OpTrue else OpFalse;
    assert m.vm.log + [] == m.vm.log;
  }

  // ----- payments -----

  /** Sends the value of an expression to an account. */
  function PayCode(to: AccountId, e: Expr): seq<OpFrame> {
    [OpAccountId(to)] + (Postfix(e) + [OpTransfer, OpTrue])
  }

  /** The account is there and has not been destroyed. */
  predicate Open(d: EngineData, id: AccountId) {
    d.lookup(id).Some? && !d.lookup(id).value.destroyed
  }

  /** What is sent, and to whom: the value to the account and the rest back to the sender. */
  function Paid(d: EngineData, to: AccountId, v: int): Result<seq<LogEntry>, EvalErrKind> {
    if !(0 <= v <= AmountOf(d.tx)) then Err(InvalidAmount)
    else if !Open(d, to) then Err(AccountNotFound)
    else Ok([Transfer(to, v)] + Refund(d.tx, AmountOf(d.tx) - v))
  }

  function PaidResult(d: EngineData, to: AccountId, v: Result<int, EvalErrKind>): Result<seq<LogEntry>, EvalErrKind> {
    match v
    case Err(kind) => Err(kind)
    case Ok(x) => Paid(d, to, x)
  }

  /** OpTransfer at the end of a script that then says true. */
  lemma {:induction false} TransferEnds(d: EngineData, to: AccountId, v: Asset)
    ensures var m := OnTop(OnTop(Entering(d, []), OpAccountId(to)), OpAsset(v));
            Verdicts(d, RunFrames(d, [OpTransfer, OpTrue], m)) == Paid(d, to, v)
  {
    hide RunFrames;
    var m := OnTop(OnTop(Entering(d, []), OpAccountId(to)), OpAsset(v));
    assert [OpTransfer, OpTrue] == [OpTransfer] + [OpTrue] && [OpTrue] == [OpTrue] + [];
    RunBasic(d, OpTransfer, [OpTrue], m);
    assert m.vm.stack == [OpAccountId(to), OpAsset(v)] && [] + [OpAccountId(to)] == [OpAccountId(to)];
    assert PopAsset(m.vm.stack) == Ok((v, [OpAccountId(to)]));
    assert PopAccountId([OpAccountId(to)]) == Ok((to, []));
    if 0 <= v <= AmountOf(d.tx) && Open(d, to) {
      var sent := Machine(Vm([], [Transfer(to, v)], AmountOf(d.tx) - v), 0, false);
      assert [] + [Transfer(to, v)] == [Transfer(to, v)];
      assert StepOp(d, m.vm, OpTransfer) == Ok(Next(sent.vm));
      PushRuns(d, OpTrue, OpTrue, [], sent);
      EndsWith(d, OnTop(sent, OpTrue), true, []);
    }
  }

  /** A script that pays: for every expression and account, it sends exactly the value there and the
      rest back, and it fails exactly where the value cannot be had, is below zero or above the amount,
      or the account is not open. */
  lemma {:induction false} PayCall(d: EngineData, fns: seq<FnDef>, id: byte, k: nat, to: AccountId, e: Expr)
    requires HasFunction(d, fns, id, k, [], PayCode(to, e))
    ensures Kinds(CallFn(d, id)) == Some(PaidResult(d, to, Value(e, AmountOf(d.tx), AmountOf(d.tx), 1)))
  {
    hide HasFunction, CallFn, RunFrames, Value, Paid;
    LineCall(d, fns, id, k, [], PayCode(to, e));
    var m := Entering(d, []);
    PushRuns(d, OpAccountId(to), OpAccountId(to), Postfix(e) + [OpTransfer, OpTrue], m);
    ExprRuns(d, e, [OpTransfer, OpTrue], OnTop(m, OpAccountId(to)));
    var v := Value(e, AmountOf(d.tx), AmountOf(d.tx), 1);
    ValueFits(e, AmountOf(d.tx), AmountOf(d.tx), 1);
    if v.Ok? {
      Fits64(v.value);
      TransferEnds(d, to, v.value);
    }
  }

  /** What closing the account comes to: whatever it holds and the whole amount go to the other. */
  function ClosedInto(d: EngineData, to: AccountId): Result<seq<LogEntry>, EvalErrKind> {
    if !d.tx.TransferTx? || to == d.tx.from then Err(Aborted)
    else if !Open(d, to) then Err(AccountNotFound)
    else Ok([Destroy(to)] + if d.tx.amount > 0 then [Transfer(to, d.tx.amount)] else [])
  }

  /** A script that closes its account ends there and then, with success, and whatever operations come
      behind do not matter. */
  lemma {:induction false} DestroyCall(d: EngineData, fns: seq<FnDef>, id: byte, k: nat, to: AccountId,
      rest: seq<OpFrame>)
    requires HasFunction(d, fns, id, k, [], [OpAccountId(to)] + ([OpDestroy] + rest))
    ensures Kinds(CallFn(d, id)) == Some(ClosedInto(d, to))
  {
    hide HasFunction, CallFn, RunFrames;
    LineCall(d, fns, id, k, [], [OpAccountId(to)] + ([OpDestroy] + rest));
    var m := Entering(d, []);
    PushRuns(d, OpAccountId(to), OpAccountId(to), [OpDestroy] + rest, m);
    var m1 := OnTop(m, OpAccountId(to));
    RunBasic(d, OpDestroy, rest, m1);
    assert [] + [OpAccountId(to)] == [OpAccountId(to)] && PopAccountId([OpAccountId(to)]) == Ok((to, []));
    assert [] + [OpTrue] == [OpTrue] && [] + [Destroy(to)] == [Destroy(to)];
    assert PopBool([OpTrue]) == Ok((true, []));
    assert [Destroy(to)] + [] == [Destroy(to)];
  }

  /** Returning ends the function at once, inside conditionals too; aborting fails it. */
  lemma LeavingRuns(d: EngineData, rest: seq<OpFrame>, m: Machine)
    ensures RunFrames(d, [OpReturn] + rest, m) == Ok(m.(marker := 0))
    ensures RunFrames(d, [OpAbort] + rest, m) == Err(Aborted)
  {
    RunBasic(d, OpReturn, rest, m);
    RunBasic(d, OpAbort, rest, m);
    hide RunFrames;
  }
}
