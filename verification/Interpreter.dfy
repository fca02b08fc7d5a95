// The interpreter as the object that runs: its stack, cursor and log updated in place.

module Interpreter {
  import opened Wrappers
  import opened Numbers
  import opened Assets
  import opened Serializer
  import opened Accounts
  import opened Transactions
  import opened Blocks
  import opened Ops
  import opened Scripts
  import opened Engine
  import opened Expressions

  class Stack {
    var inner: seq<OpFrame>

    constructor ()
      ensures inner == []
    {
      inner := [];
    }

    method Push(op: OpFrame) returns (r: Result<(), EvalErrKind>)
      modifies this
      ensures match PushFrame(old(inner), op)
              case Ok(st) => r == Ok(()) && inner == st
              case Err(kind) => r == Err(kind) && inner == old(inner)
    {
      if |inner| < MAX_FRAME_STACK {
        inner := inner + [op];
        return Ok(());
      }
      return Err(StackOverflow);
    }

    method Pop() returns (r: Result<OpFrame, EvalErrKind>)
      modifies this
      ensures match PopFrame(old(inner))
              case Ok(p) => r == Ok(p.0) && inner == p.1
              case Err(kind) => r == Err(kind)
    {
      if inner == [] {
        return Err(StackUnderflow);
      }
      r := Ok(inner[|inner| - 1]);
      inner := inner[..|inner| - 1];
    }

    method PopBool() returns (r: Result<bool, EvalErrKind>)
      modifies this
      ensures match Engine.PopBool(old(inner))
              case Ok(p) => r == Ok(p.0) && inner == p.1
              case Err(kind) => r == Err(kind)
    {
      var frame :- Pop();
      match frame
      case OpFalse => return Ok(false);
      case OpTrue => return Ok(true);
      case _ => return Err(InvalidItemOnStack);
    }

    method PopAccountId() returns (r: Result<AccountId, EvalErrKind>)
      modifies this
      ensures match Engine.PopAccountId(old(inner))
              case Ok(p) => r == Ok(p.0) && inner == p.1
              case Err(kind) => r == Err(kind)
    {
      var frame :- Pop();
      match frame
      case OpAccountId(id) => return Ok(id);
      case _ => return Err(InvalidItemOnStack);
    }

    method PopAsset() returns (r: Result<Asset, EvalErrKind>)
      modifies this
      ensures match Engine.PopAsset(old(inner))
              case Ok(p) => r == Ok(p.0) && inner == p.1
              case Err(kind) => r == Err(kind)
    {
      var frame :- Pop();
      match frame
      case OpAsset(amount) => return Ok(amount);
      case _ => return Err(InvalidItemOnStack);
    }
  }

  class ScriptEngine {
    const data: EngineData
    const totalAmt: Asset
    const stack: Stack
    var pos: nat
    var log: seq<LogEntry>
    var remainingAmt: Asset

    ghost predicate Valid()
      reads this
    {
      totalAmt == TotalAmount(data.tx)
    }

    /** The machine's registers as a value. */
    ghost function Registers(): Vm
      reads this, stack
    {
      Vm(stack.inner, log, remainingAmt)
    }

    ghost predicate Fresh()
      reads this, stack
    {
      Valid() && pos == 0 && Registers() == Vm([], [], totalAmt)
    }

    constructor (data: EngineData)
      ensures this.data == data && Fresh() && fresh(stack)
    {
      this.data := data;
      totalAmt := TotalAmount(data.tx);
      remainingAmt := TotalAmount(data.tx);
      pos := 0;
      log := [];
      stack := new Stack();
    }

    method Eval() returns (r: EvalResult)
      requires Fresh() && |data.tx.base.sigs| <= 255
      modifies this, stack
      ensures r == Engine.Eval(data)
    {
      r := CallFn(FnId(data.tx));
    }

    // ----- reading operations -----

    method ReadByte() returns (r: Option<byte>)
      requires pos <= |data.script|
      modifies this`pos
      ensures old(pos) < |data.script| ==> r == Some(data.script[old(pos)]) && pos == old(pos) + 1
      ensures old(pos) == |data.script| ==> r == None && pos == old(pos)
    {
      if pos == |data.script| {
        return None;
      }
      r := Some(data.script[pos]);
      pos := pos + 1;
    }

    method ReadEight() returns (r: Option<seq<byte>>)
      requires pos <= |data.script|
      modifies this`pos
      ensures old(pos) + 8 <= |data.script| ==>
                r == Some(data.script[old(pos)..old(pos) + 8]) && pos == old(pos) + 8
      ensures old(pos) + 8 > |data.script| ==> r == None && pos == old(pos)
    {
      if pos + 8 > |data.script| {
        return None;
      }
      r := Some(data.script[pos..pos + 8]);
      pos := pos + 8;
    }

    /** What reading comes to, against the decoder's account of it. */
    ghost predicate Consumed(d: Decoded, r: Result<Option<OpFrame>, EvalErr>, from: nat)
      reads this`pos
    {
      match d
      case DecodeErr(at, kind) => r == Err(EvalErr(at, kind)) && pos == at
      case EndOfScript => r == Ok(None) && pos == from
      case Decoded(op, next) => r == Ok(Some(op)) && pos == next
    }

    method ConsumeDefine() returns (r: Result<Option<OpFrame>, EvalErr>)
      requires pos < |data.script|
      modifies this`pos
      ensures Consumed(DecodeArgs(data.script, old(pos) + 1, data.script[old(pos)], []), r, old(pos))
    {
      var argCnt := ReadByte();
      var args: seq<Arg> := [];
      var left: nat := argCnt.value;
      ghost var whole := DecodeArgs(data.script, pos, left, []);
      while left > 0
        invariant pos <= |data.script|
        invariant DecodeArgs(data.script, pos, left, args) == whole
      {
        var tag := ReadByte();
        if tag == None {
          return Err(EvalErr(pos, UnexpectedEOF));
        }
        match tag.value {
          case 0x00 => args := args + [ArgAccountId];
          case 0x01 => args := args + [ArgAsset];
          case _ => return Err(EvalErr(pos, UnknownArgType));
        }
        left := left - 1;
      }
      return Ok(Some(OpDefine(args)));
    }

    method ConsumeOp() returns (r: Result<Option<OpFrame>, EvalErr>)
      requires pos <= |data.script|
      modifies this`pos
      ensures Consumed(DecodeOp(data.script, old(pos)), r, old(pos))
      ensures pos <= |data.script|
    {
      var opcode := ReadByte();
      if opcode == None {
        return Ok(None);
      }
      var b := opcode.value;
      if b == 0x00 {
        if pos == |data.script| {
          return Err(EvalErr(pos, UnexpectedEOF));
        }
        r := ConsumeDefine();
      } else if PlainByte(b) {
        r := Ok(Some(PlainOp(b)));
      } else if b in {0x22, 0x23, 0x60, 0x61} {
        var slice := ReadEight();
        if slice == None {
          return Err(EvalErr(pos, UnexpectedEOF));
        }
        match b {
          case 0x22 => r := Ok(Some(OpAccountId(DecU64(slice.value))));
          case 0x23 => r := Ok(Some(OpAsset(DecI64(slice.value))));
          case 0x60 => r := Ok(Some(OpCheckTime(DecU64(slice.value))));
          case _ => r := Ok(Some(OpCheckTimeFastFail(DecU64(slice.value))));
        }
      } else if b in {0x52, 0x53} {
        var threshold := ReadByte();
        if threshold == None {
          return Err(EvalErr(pos, UnexpectedEOF));
        }
        var accCount := ReadByte();
        if accCount == None {
          return Err(EvalErr(pos, UnexpectedEOF));
        }
        if b == 0x52 {
          r := Ok(Some(OpCheckMultiPerms(threshold.value, accCount.value)));
        } else {
          r := Ok(Some(OpCheckMultiPermsFastFail(threshold.value, accCount.value)));
        }
      } else {
        r := Err(EvalErr(pos, UnknownOp));
      }
    }

    /** Reads on to the matching delimiter; gives the depth counter behind it. */
    method ConsumeOpUntil(req: int, marker: int) returns (r: Result<int, EvalErr>)
      requires pos <= |data.script|
      modifies this`pos
      ensures pos <= |data.script|
      ensures match SkipBytes(data.script, old(pos), req, marker)
              case Err(e) => r == Err(e)
              case Ok(landed) => r == Ok(landed.1) && pos == landed.0
    {
      var ifMarker := marker;
      ghost var whole := SkipBytes(data.script, pos, req, marker);
      while true
        invariant pos <= |data.script|
        invariant SkipBytes(data.script, pos, req, ifMarker) == whole
        decreases |data.script| - pos
      {
        var op := ConsumeOp();
        if op.Err? {
          return Err(op.error);
        }
        if op.value == None {
          return Err(EvalErr(pos, UnexpectedEOF));
        }
        match op.value.value {
          case OpIf => ifMarker := ifMarker + 1;
          case OpElse =>
            if ifMarker == req {
              return Ok(ifMarker);
            }
          case OpEndIf =>
            var doBreak := ifMarker == req;
            ifMarker := ifMarker - 1;
            if doBreak {
              return Ok(ifMarker);
            }
          case _ =>
        }
      }
    }

    // ----- permissions -----

    /** The loop over the accounts, with its early exits. */
    method CheckAccPerms(threshold: nat, accs: seq<AccountId>) returns (r: Result<bool, EvalErrKind>)
      requires |data.tx.base.sigs| <= 255
      ensures r == Engine.CheckAccPerms(data, threshold, accs)
    {
      if threshold == 0 {
        return Ok(true);
      } else if threshold > |accs| {
        return Ok(false);
      }
      var validThreshold := 0;
      for i := 0 to |accs|
        invariant ScanPerms(data, accs[..i]) == Ok(Some(validThreshold))
      {
        hide Engine.CheckAccPerms;
        ScanPermsNext(data, accs, i, validThreshold);
        var vote := Vote(accs[i], validThreshold);
        if vote.Err? {
          return Err(vote.error);
        }
        if vote.value == None {
          return Ok(false);
        }
        validThreshold := vote.value.value;
      }
      assert accs[..|accs|] == accs;
      return Ok(validThreshold >= threshold);
    }

    method Vote(accId: AccountId, validThreshold: nat) returns (r: Result<Option<nat>, EvalErrKind>)
      requires |data.tx.base.sigs| <= 255
      ensures r == ScanOne(data, accId, validThreshold)
    {
      var account := data.lookup(accId);
      if account == None {
        return Err(AccountNotFound);
      }
      var verified := Verify(data.o, account.value.permissions, TxIdOf(data.o, data.tx), data.tx.base.sigs);
      match verified {
        case Ok(_) => return Ok(Some(validThreshold + 1));
        case Err(NoMatchingSigs) => return Ok(Some(validThreshold));
        case Err(_) => return Ok(None);
      }
    }

    method PopAccounts(count: nat) returns (r: Result<seq<AccountId>, EvalErrKind>)
      modifies stack
      ensures match PopAccountIds(old(stack.inner), count)
              case Ok(p) => r == Ok(p.0) && stack.inner == p.1
              case Err(kind) => r == Err(kind)
    {
      var accs: seq<AccountId> := [];
      for i := 0 to count
        invariant PopAccountIds(old(stack.inner), i) == Ok((accs, stack.inner))
      {
        var acc := stack.PopAccountId();
        if acc.Err? {
          PopAccountIdsStops(old(stack.inner), i + 1, count);
          return Err(acc.error);
        }
        accs := accs + [acc.value];
      }
      return Ok(accs);
    }

    // ----- executing operations -----

    /** The registers after an operation, and whether it ends the script. */
    ghost predicate Stepped(step: Result<Step, EvalErrKind>, r: Result<bool, EvalErrKind>)
      reads this, stack
    {
      match step
      case Err(kind) => r == Err(kind)
      case Ok(Next(vm)) => r == Ok(false) && Registers() == vm
      case Ok(Halted(vm)) => r == Ok(true) && Registers() == vm
    }

    method Transfer() returns (r: Result<bool, EvalErrKind>)
      modifies this, stack
      ensures pos == old(pos)
      ensures Stepped(StepTransfer(data, old(Registers())), r)
    {
      var amt :- stack.PopAsset();
      var transferTo :- stack.PopAccountId();
      if amt < 0 || amt > remainingAmt {
        return Err(InvalidAmount);
      }
      match data.lookup(transferTo) {
        case Some(acc) =>
          if acc.destroyed {
            return Err(AccountNotFound);
          }
        case None => return Err(AccountNotFound);
      }
      var rem := CheckedSub(remainingAmt, amt);
      if rem == None {
        return Err(EvalErrKind.Arithmetic);
      }
      remainingAmt := rem.value;
      log := log + [LogEntry.Transfer(transferTo, amt)];
      return Ok(false);
    }

    method Destroy() returns (r: Result<bool, EvalErrKind>)
      modifies this, stack
      ensures pos == old(pos)
      ensures Stepped(StepDestroy(data, old(Registers())), r)
    {
      var toAcc :- stack.PopAccountId();
      if !data.tx.TransferTx? {
        return Err(Aborted);
      }
      if toAcc == data.tx.from {
        return Err(Aborted);
      }
      match data.lookup(toAcc) {
        case Some(acc) =>
          if acc.destroyed {
            return Err(AccountNotFound);
          }
        case None => return Err(AccountNotFound);
      }
      log := log + [LogEntry.Destroy(toAcc)];
      var _ :- stack.Push(OpTrue);
      return Ok(true);
    }

    method Arithmetic(op: OpFrame) returns (r: Result<bool, EvalErrKind>)
      modifies this, stack
      ensures pos == old(pos)
      ensures Stepped(StepArith(old(Registers()), op), r)
    {
      var b :- stack.PopAsset();
      var a :- stack.PopAsset();
      var res := Arith(op, a, b);
      if res == None {
        return Err(EvalErrKind.Arithmetic);
      }
      var _ :- stack.Push(OpAsset(res.value));
      return Ok(false);
    }

    method CheckPerms(threshold: nat, count: nat, fastFail: bool) returns (r: Result<bool, EvalErrKind>)
      requires |data.tx.base.sigs| <= 255
      modifies this, stack
      ensures pos == old(pos)
      ensures Stepped(StepCheckPerms(data, old(Registers()), threshold, count, fastFail), r)
    {
      var accs :- PopAccounts(count);
      var success :- CheckAccPerms(threshold, accs);
      r := Report(success, fastFail);
    }

    method Report(success: bool, fastFail: bool) returns (r: Result<bool, EvalErrKind>)
      modifies this, stack
      ensures pos == old(pos)
      ensures Stepped(Verified(old(Registers()), old(stack.inner), success, fastFail), r)
    {
      if fastFail {
        if !success {
          return Err(ScriptRetFalse);
        }
      } else {
        var _ :- stack.Push(BoolFrame(success));
      }
      return Ok(false);
    }

    method Execute(op: OpFrame) returns (r: Result<bool, EvalErrKind>)
      requires Valid() && IsBasic(op) && |data.tx.base.sigs| <= 255
      modifies this, stack
      ensures pos == old(pos)
      ensures Stepped(StepOp(data, old(Registers()), op), r)
      ensures forall arith | op == OpOf(arith) :: Computed(arith, old(stack.inner), stack.inner, r)
    {
      hide StepTransfer, StepDestroy, StepCheckPerms, StepArith, Computed;
      match op {
        case OpTransfer => r := Transfer();
        case OpDestroy => r := Destroy();
        case OpFalse => var _ :- stack.Push(op); r := Ok(false);
        case OpTrue => var _ :- stack.Push(op); r := Ok(false);
        case OpAccountId(_) => var _ :- stack.Push(op); r := Ok(false);
        case OpAsset(_) => var _ :- stack.Push(op); r := Ok(false);
        case OpLoadAmt => var _ :- stack.Push(OpAsset(totalAmt)); r := Ok(false);
        case OpLoadRemAmt => var _ :- stack.Push(OpAsset(remainingAmt)); r := Ok(false);
        case OpNot => var b :- stack.PopBool(); var _ :- stack.Push(BoolFrame(!b)); r := Ok(false);
        case OpReturn => r := Ok(true);
        case OpAbort => r := Err(Aborted);
        case OpCheckPerms => r := CheckPerms(1, 1, false);
        case OpCheckPermsFastFail => r := CheckPerms(1, 1, true);
        case OpCheckMultiPerms(t, n) => r := CheckPerms(t, n, false);
        case OpCheckMultiPermsFastFail(t, n) => r := CheckPerms(t, n, true);
        case OpCheckTime(time) => r := Report(data.headTime >= time, false);
        case OpCheckTimeFastFail(time) => r := Report(data.headTime >= time, true);
        case OpAdd | OpSub | OpMul | OpDiv =>
          r := Arithmetic(op);
          forall arith | op == OpOf(arith)
            ensures Computed(arith, old(stack.inner), stack.inner, r)
          {
            StepComputes(old(Registers()), arith, Registers(), r);
          }
      }
    }

    // ----- calling a function -----

    method LoadArgs(args: seq<Arg>) returns (r: Result<(), EvalErrKind>)
      modifies this, stack
      ensures pos == old(pos) && log == old(log) && remainingAmt == old(remainingAmt)
      ensures match PushArgs(old(stack.inner), args, FnArgs(data.tx))
              case Err(kind) => r == Err(kind)
              case Ok(st) => r == Ok(()) && stack.inner == st
    {
      var rest := FnArgs(data.tx);
      ghost var whole := PushArgs(stack.inner, args, rest);
      for i := 0 to |args|
        invariant PushArgs(stack.inner, args[i..], rest) == whole
        invariant pos == old(pos) && log == old(log) && remainingAmt == old(remainingAmt)
      {
        assert args[i..][1..] == args[i + 1..];
        var taken :- TakeArg(args[i], rest);
        var _ :- stack.Push(taken.0);
        rest := taken.1;
      }
      return Ok(());
    }

    method CallFn(fnId: byte) returns (r: EvalResult)
      requires Fresh() && |data.tx.base.sigs| <= 255
      modifies this, stack
      ensures r == Engine.CallFn(data, fnId)
    {
      hide FnPtr, RunFrom;
      var ptr := GetFnPtr(data.script, fnId);
      match ptr {
        case HeaderErr => return Failure(EvalErr(pos, HeaderReadErr));
        case NoSuchFn => return Failure(EvalErr(pos, UnknownFn));
        case FnAt(p) =>
          if p > |data.script| {
            return Panic;
          }
          pos := p;
      }
      var op := ConsumeOp();
      if op.Err? {
        return Failure(op.error);
      }
      if op.value == None || !op.value.value.OpDefine? {
        return Failure(EvalErr(pos, InvalidEntryPoint));
      }
      var loaded := LoadArgs(op.value.value.args);
      if loaded.Err? {
        return Failure(EvalErr(pos, loaded.error));
      }
      r := Run();
    }

    /** The machine as a value, with the two loop variables. */
    ghost function Whole(ifMarker: int, ignoreElse: bool): Machine
      reads this, stack
    {
      Machine(Registers(), ifMarker, ignoreElse)
    }

    /** The effect of the operation just read; a result of none ends the script. */
    method Apply(op: OpFrame, marker: int, ignore: bool) returns (r: Result<Option<(int, bool)>, EvalErr>)
      requires Valid() && pos <= |data.script| && !op.OpDefine? && |data.tx.base.sigs| <= 255
      modifies this, stack
      ensures match ApplyOp(data, old(pos), old(Whole(marker, ignore)), op)
              case Fault(e) => r == Err(e)
              case Ended(p, m) => r == Ok(None) && pos == p && Whole(0, ignore) == m
              case Onward(p, m) => r.Ok? && r.value.Some? && pos == p && Whole(r.value.value.0, r.value.value.1) == m
    {
      hide StepOp, SkipBytes;
      var ifMarker, ignoreElse := marker, ignore;
      if op.OpIf? {
        ifMarker := ifMarker + 1;
        var condition := stack.PopBool();
        if condition.Err? {
          return Err(EvalErr(pos, condition.error));
        }
        ignoreElse := condition.value;
        if !ignoreElse {
          ifMarker :- ConsumeOpUntil(ifMarker, ifMarker);
        }
      } else if op.OpElse? {
        if ignoreElse {
          ifMarker :- ConsumeOpUntil(ifMarker, ifMarker);
        }
      } else if op.OpEndIf? {
        ifMarker := ifMarker - 1;
      } else {
        var halted := Execute(op);
        if halted.Err? {
          return Err(EvalErr(pos, halted.error));
        }
        if halted.value {
          return Ok(None);
        }
      }
      return Ok(Some((ifMarker, ignoreElse)));
    }

    /** The main loop. */
    method Run() returns (r: EvalResult)
      requires Valid() && pos <= |data.script| && |data.tx.base.sigs| <= 255
      modifies this, stack
      ensures r == RunFrom(data, old(pos), old(Whole(0, false)))
    {
      hide ApplyOp, DecodeOp, Conclude;
      var ifMarker := 0;
      var ignoreElse := false;
      ghost var whole := RunBytes(data, pos, Whole(0, false));
      while true
        invariant Valid() && pos <= |data.script|
        invariant RunBytes(data, pos, Whole(ifMarker, ignoreElse)) == whole
        decreases |data.script| - pos
      {
        var op := ConsumeOp();
        if op.Err? {
          return Failure(op.error);
        }
        if op.value == None {
          break;
        }
        if op.value.value.OpDefine? {
          DefineEnds(data, pos, Whole(ifMarker, ignoreElse), op.value.value);
          break;
        }
        var applied := Apply(op.value.value, ifMarker, ignoreElse);
        if applied.Err? {
          return Failure(applied.error);
        }
        if applied.value == None {
          ifMarker := 0;
          break;
        }
        ifMarker, ignoreElse := applied.value.value.0, applied.value.value.1;
      }
      assert whole == Ok((pos, Whole(ifMarker, ignoreElse)));
      r := Finish(ifMarker, ignoreElse);
    }

    method Finish(ifMarker: int, ghost ignoreElse: bool) returns (r: EvalResult)
      modifies this, stack
      ensures match Conclude(data.tx, old(Whole(ifMarker, ignoreElse)))
              case Err(kind) => r == Failure(EvalErr(pos, kind))
              case Ok(log) => r == Success(log)
      ensures pos == old(pos)
    {
      if ifMarker > 0 {
        return Failure(EvalErr(pos, UnexpectedEOF));
      }
      var verdict := stack.PopBool();
      if verdict.Err? {
        return Failure(EvalErr(pos, verdict.error));
      }
      if !verdict.value {
        return Failure(EvalErr(pos, ScriptRetFalse));
      }
      var final := log;
      log := [];
      if remainingAmt > 0 {
        if !data.tx.TransferTx? {
          return Failure(EvalErr(pos, InvalidAmount));
        }
        if final != [] && final[|final| - 1].Destroy? {
          final := final + [LogEntry.Transfer(final[|final| - 1].to, remainingAmt)];
        } else {
          final := final + [LogEntry.Transfer(data.tx.from, remainingAmt)];
        }
        remainingAmt := 0;
      }
      return Success(final);
    }
  }

  /** The scan goes on from `n` approvals with the next account, or stops there for good. */
  lemma ScanPermsNext(d: EngineData, accs: seq<AccountId>, i: nat, n: nat)
    requires i < |accs| && ScanPerms(d, accs[..i]) == Ok(Some(n))
    ensures ScanPerms(d, accs[..i + 1]) == ScanOne(d, accs[i], n)
    ensures ScanOne(d, accs[i], n).Err? || ScanOne(d, accs[i], n) == Ok(None) ==>
              ScanPerms(d, accs) == ScanOne(d, accs[i], n)
  {
    hide ScanOne;
    assert accs[..i + 1][..i] == accs[..i];
    if ScanOne(d, accs[i], n).Err? || ScanOne(d, accs[i], n) == Ok(None) {
      ScanPermsStops(d, accs, i + 1);
    }
  }

  lemma DefineEnds(d: EngineData, pos: nat, m: Machine, op: OpFrame)
    requires pos <= |d.script| && op.OpDefine?
    ensures ApplyOp(d, pos, m, op) == Ended(pos, m)
  {
  }

  lemma {:induction false} ScanPermsStops(d: EngineData, accs: seq<AccountId>, k: nat)
    requires k <= |accs| && (ScanPerms(d, accs[..k]).Err? || ScanPerms(d, accs[..k]) == Ok(None))
    ensures ScanPerms(d, accs) == ScanPerms(d, accs[..k])
    decreases |accs|
  {
    if k < |accs| {
      var front := accs[..|accs| - 1];
      assert front[..k] == accs[..k];
      ScanPermsStops(d, front, k);
    } else {
      assert accs[..k] == accs;
    }
  }

  lemma {:induction false} PopAccountIdsStops(st: seq<OpFrame>, k: nat, n: nat)
    requires k <= n && PopAccountIds(st, k).Err?
    ensures PopAccountIds(st, n) == PopAccountIds(st, k)
    decreases n - k
  {
    if k < n {
      PopAccountIdsStops(st, k, n - 1);
    }
  }
}
