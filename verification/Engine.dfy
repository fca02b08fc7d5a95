// The script interpreter: script/engine.rs and script/stack.rs.

module Engine {
  import opened Wrappers
  import opened Numbers
  import opened Assets
  import opened Serializer
  import opened Crypto
  import opened Accounts
  import opened Transactions
  import opened Blocks
  import opened Ops
  import opened Scripts

  const MAX_FRAME_STACK := 64

  /** What a script runs against. `lookup` is the chain's view of an account with the receipts
      not yet in a block applied; `headTime` is the timestamp of the chain's head. */
  datatype EngineData = EngineData(o: Oracles, script: seq<byte>, tx: TxVariant,
                                   lookup: AccountId -> Option<Account>, headTime: u64)

  /** An error and the position the interpreter had reached. */
  datatype EvalErr = EvalErr(pos: nat, kind: EvalErrKind)

  /** `Panic` is the slice index out of bounds of an entry point past the end of the script. */
  datatype EvalResult = Success(log: seq<LogEntry>) | Failure(e: EvalErr) | Panic

  function TotalAmount(tx: TxVariant): Asset {
    if tx.TransferTx? then tx.amount else 0
  }

  function FnId(tx: TxVariant): byte {
    if tx.TransferTx? then tx.callFn else 0
  }

  function FnArgs(tx: TxVariant): seq<byte> {
    if tx.TransferTx? then tx.args else []
  }

  // ----- the stack -----

  function PushFrame(st: seq<OpFrame>, f: OpFrame): Result<seq<OpFrame>, EvalErrKind> {
    if |st| < MAX_FRAME_STACK then Ok(st + [f]) else Err(StackOverflow)
  }

  function BoolFrame(b: bool): OpFrame {
    if b then OpTrue else OpFalse
  }

  function PopFrame(st: seq<OpFrame>): Result<(OpFrame, seq<OpFrame>), EvalErrKind> {
    if st == [] then Err(StackUnderflow) else Ok((st[|st| - 1], st[..|st| - 1]))
  }

  function PopBool(st: seq<OpFrame>): Result<(bool, seq<OpFrame>), EvalErrKind> {
    var (f, t) :- PopFrame(st);
    if f.OpFalse? then Ok((false, t)) else if f.OpTrue? then Ok((true, t)) else Err(InvalidItemOnStack)
  }

  function PopAccountId(st: seq<OpFrame>): Result<(AccountId, seq<OpFrame>), EvalErrKind> {
    var (f, t) :- PopFrame(st);
    if f.OpAccountId? then Ok((f.id, t)) else Err(InvalidItemOnStack)
  }

  function PopAsset(st: seq<OpFrame>): Result<(Asset, seq<OpFrame>), EvalErrKind> {
    var (f, t) :- PopFrame(st);
    if f.OpAsset? then Ok((f.amount, t)) else Err(InvalidItemOnStack)
  }

  /** `n` account identifiers in the order they are popped. */
  function PopAccountIds(st: seq<OpFrame>, n: nat): Result<(seq<AccountId>, seq<OpFrame>), EvalErrKind> {
    if n == 0 then Ok(([], st))
    else
      var (ids, t) :- PopAccountIds(st, n - 1);
      var (id, u) :- PopAccountId(t);
      Ok((ids + [id], u))
  }

  // ----- permission checks -----

  function PermsOf(d: EngineData, a: Account): Result<(), PermsErr> {
    Verdict(d.o, a.permissions, TxIdOf(d.o, d.tx), d.tx.base.sigs)
  }

  /** One account's say, after `n` approvals: `None` is an outright refusal. */
  function ScanOne(d: EngineData, id: AccountId, n: nat): Result<Option<nat>, EvalErrKind> {
    match d.lookup(id)
    case None => Err(AccountNotFound)
    case Some(a) =>
      match PermsOf(d, a)
      case Ok(_) => Ok(Some(n + 1))
      case Err(NoMatchingSigs) => Ok(Some(n))
      case Err(_) => Ok(None)
  }

  /** How many of `accs` approve; `None` once an account refuses outright. */
  function ScanPerms(d: EngineData, accs: seq<AccountId>): Result<Option<nat>, EvalErrKind> {
    if accs == [] then Ok(Some(0))
    else
      var n :- ScanPerms(d, accs[..|accs| - 1]);
      if n == None then Ok(None) else ScanOne(d, accs[|accs| - 1], n.value)
  }

  function CheckAccPerms(d: EngineData, threshold: nat, accs: seq<AccountId>): Result<bool, EvalErrKind> {
    if threshold == 0 then Ok(true)
    else if threshold > |accs| then Ok(false)
    else
      var n :- ScanPerms(d, accs);
      Ok(n.Some? && n.value >= threshold)
  }

  // ----- one operation -----

  /** The part of the machine that ordinary operations work on. */
  datatype Vm = Vm(stack: seq<OpFrame>, log: seq<LogEntry>, remaining: Asset)

  datatype Step = Next(vm: Vm) | Halted(vm: Vm)

  /** Operations other than a definition and the three delimiters of conditionals. */
  predicate IsBasic(op: OpFrame) {
    !op.OpDefine? && !op.OpIf? && !op.OpElse? && !op.OpEndIf?
  }

  function PushOn(vm: Vm, st: seq<OpFrame>, f: OpFrame): Result<Step, EvalErrKind> {
    var st' :- PushFrame(st, f);
    Ok(Next(vm.(stack := st')))
  }

  function StepTransfer(d: EngineData, vm: Vm): Result<Step, EvalErrKind> {
    var (amt, st1) :- PopAsset(vm.stack);
    var (to, st2) :- PopAccountId(st1);
    if amt < 0 || amt > vm.remaining then Err(InvalidAmount)
    else
      var acc :- OkOr(d.lookup(to), AccountNotFound);
      if acc.destroyed then Err(AccountNotFound)
      else
        var rem :- OkOr(CheckedSub(vm.remaining, amt), Arithmetic);
        Ok(Next(Vm(st2, vm.log + [Transfer(to, amt)], rem)))
  }

  function StepDestroy(d: EngineData, vm: Vm): Result<Step, EvalErrKind> {
    var (to, st) :- PopAccountId(vm.stack);
    if !d.tx.TransferTx? || to == d.tx.from then Err(Aborted)
    else
      var acc :- OkOr(d.lookup(to), AccountNotFound);
      if acc.destroyed then Err(AccountNotFound)
      else
        var st' :- PushFrame(st, OpTrue);
        Ok(Halted(Vm(st', vm.log + [Destroy(to)], vm.remaining)))
  }

  function Arith(op: OpFrame, a: Asset, b: Asset): Option<Asset> {
    match op
    case OpAdd => CheckedAdd(a, b)
    case OpSub => CheckedSub(a, b)
    case OpMul => CheckedMul(a, b)
    case _ => CheckedDiv(a, b)
  }

  function StepArith(vm: Vm, op: OpFrame): Result<Step, EvalErrKind> {
    var (b, st1) :- PopAsset(vm.stack);
    var (a, st2) :- PopAsset(st1);
    var r :- OkOr(Arith(op, a, b), Arithmetic);
    PushOn(vm, st2, OpAsset(r))
  }

  function StepCheckPerms(d: EngineData, vm: Vm, threshold: nat, count: nat, fastFail: bool):
      Result<Step, EvalErrKind>
  {
    var (accs, st) :- PopAccountIds(vm.stack, count);
    var success :- CheckAccPerms(d, threshold, accs);
    Verified(vm, st, success, fastFail)
  }

  /** A check either pushes its outcome or, in its fast-fail form, aborts on a negative one. */
  function Verified(vm: Vm, st: seq<OpFrame>, success: bool, fastFail: bool): Result<Step, EvalErrKind> {
    if !fastFail then PushOn(vm, st, BoolFrame(success))
    else if success then Ok(Next(vm.(stack := st)))
    else Err(ScriptRetFalse)
  }

  function StepOp(d: EngineData, vm: Vm, op: OpFrame): Result<Step, EvalErrKind>
    requires IsBasic(op)
  {
    match op
    case OpTransfer => StepTransfer(d, vm)
    case OpDestroy => StepDestroy(d, vm)
    case OpFalse => PushOn(vm, vm.stack, op)
    case OpTrue => PushOn(vm, vm.stack, op)
    case OpAccountId(_) => PushOn(vm, vm.stack, op)
    case OpAsset(_) => PushOn(vm, vm.stack, op)
    case OpLoadAmt => PushOn(vm, vm.stack, OpAsset(TotalAmount(d.tx)))
    case OpLoadRemAmt => PushOn(vm, vm.stack, OpAsset(vm.remaining))
    case OpNot => var (b, st) :- PopBool(vm.stack); PushOn(vm, st, BoolFrame(!b))
    case OpReturn => Ok(Halted(vm))
    case OpAbort => Err(Aborted)
    case OpCheckPerms => StepCheckPerms(d, vm, 1, 1, false)
    case OpCheckPermsFastFail => StepCheckPerms(d, vm, 1, 1, true)
    case OpCheckMultiPerms(t, n) => StepCheckPerms(d, vm, t, n, false)
    case OpCheckMultiPermsFastFail(t, n) => StepCheckPerms(d, vm, t, n, true)
    case OpCheckTime(time) => Verified(vm, vm.stack, d.headTime >= time, false)
    case OpCheckTimeFastFail(time) => Verified(vm, vm.stack, d.headTime >= time, true)
    case _ => StepArith(vm, op)
  }

  // ----- running bytes -----

  /** The machine of the main loop: `marker` counts open conditionals and `ignoreElse` is the one
      flag that says whether the next else is to be skipped. */
  datatype Machine = Machine(vm: Vm, marker: int, ignoreElse: bool)

  /** `consume_op_until` with the matcher that both conditionals use: read on to the delimiter at
      the depth `req`. Gives the position after it and the depth counter. */
  function SkipBytes(s: seq<byte>, pos: nat, req: int, marker: int): (r: Result<(nat, int), EvalErr>)
    requires pos <= |s|
    ensures r.Ok? ==> pos < r.value.0 <= |s|
    decreases |s| - pos
  {
    match DecodeOp(s, pos)
    case DecodeErr(at, kind) => Err(EvalErr(at, kind))
    case EndOfScript => Err(EvalErr(pos, UnexpectedEOF))
    case Decoded(op, p) =>
      if op.OpIf? then SkipBytes(s, p, req, marker + 1)
      else if op.OpElse? && marker == req then Ok((p, marker))
      else if op.OpEndIf? then
        if marker == req then Ok((p, marker - 1)) else SkipBytes(s, p, req, marker - 1)
      else SkipBytes(s, p, req, marker)
  }

  /** What one turn of the main loop comes to. */
  datatype Turn = Fault(e: EvalErr) | Ended(pos: nat, m: Machine) | Onward(pos: nat, m: Machine)

  function SkipTurn(s: seq<byte>, pos: nat, m: Machine): (t: Turn)
    requires pos <= |s|
    ensures !t.Ended? && (t.Onward? ==> pos < t.pos <= |s|)
  {
    match SkipBytes(s, pos, m.marker, m.marker)
    case Err(e) => Fault(e)
    case Ok(landed) => Onward(landed.0, m.(marker := landed.1))
  }

  function IfTurn(s: seq<byte>, pos: nat, m: Machine): (t: Turn)
    requires pos <= |s|
    ensures !t.Ended? && (t.Onward? ==> pos <= t.pos <= |s|)
  {
    match PopBool(m.vm.stack)
    case Err(kind) => Fault(EvalErr(pos, kind))
    case Ok(popped) =>
      var m1 := Machine(m.vm.(stack := popped.1), m.marker + 1, popped.0);
      if popped.0 then Onward(pos, m1) else SkipTurn(s, pos, m1)
  }

  function BasicTurn(d: EngineData, pos: nat, m: Machine, op: OpFrame): (t: Turn)
    requires IsBasic(op)
    ensures !t.Fault? ==> t.pos == pos
  {
    match StepOp(d, m.vm, op)
    case Err(kind) => Fault(EvalErr(pos, kind))
    case Ok(Next(vm)) => Onward(pos, m.(vm := vm))
    case Ok(Halted(vm)) => Ended(pos, m.(vm := vm, marker := 0))
  }

  /** The effect of an operation just read, the cursor standing behind it at `pos`. */
  function ApplyOp(d: EngineData, pos: nat, m: Machine, op: OpFrame): (t: Turn)
    requires pos <= |d.script|
    ensures t.Onward? ==> pos <= t.pos <= |d.script|
    ensures t.Ended? ==> t.pos == pos
  {
    if op.OpDefine? then Ended(pos, m)
    else if op.OpIf? then IfTurn(d.script, pos, m)
    else if op.OpElse? then if m.ignoreElse then SkipTurn(d.script, pos, m) else Onward(pos, m)
    else if op.OpEndIf? then Onward(pos, m.(marker := m.marker - 1))
    else BasicTurn(d, pos, m, op)
  }

  function TurnBytes(d: EngineData, pos: nat, m: Machine): (t: Turn)
    requires pos <= |d.script|
    ensures t.Onward? ==> pos < t.pos <= |d.script|
    ensures t.Ended? ==> pos <= t.pos <= |d.script|
  {
    match DecodeOp(d.script, pos)
    case DecodeErr(at, kind) => Fault(EvalErr(at, kind))
    case EndOfScript => Ended(pos, m)
    case Decoded(op, p) => ApplyOp(d, p, m, op)
  }

  /** The main loop from a position, to the position and the machine at which it ends. */
  function RunBytes(d: EngineData, pos: nat, m: Machine): (r: Result<(nat, Machine), EvalErr>)
    requires pos <= |d.script|
    ensures r.Ok? ==> r.value.0 <= |d.script|
    decreases |d.script| - pos
  {
    match TurnBytes(d, pos, m)
    case Fault(e) => Err(e)
    case Ended(p, m') => Ok((p, m'))
    case Onward(p, m') => RunBytes(d, p, m')
  }

  /** The log of a script that ends with true: what is left goes to the account a final Destroy
      names, otherwise back to the sender. */
  function FinalLog(tx: TxVariant, vm: Vm): Result<seq<LogEntry>, EvalErrKind> {
    if vm.remaining <= 0 then Ok(vm.log)
    else if !tx.TransferTx? then Err(InvalidAmount)
    else
      var to := if vm.log != [] && vm.log[|vm.log| - 1].Destroy? then vm.log[|vm.log| - 1].to else tx.from;
      Ok(vm.log + [Transfer(to, vm.remaining)])
  }

  function Conclude(tx: TxVariant, m: Machine): Result<seq<LogEntry>, EvalErrKind> {
    if m.marker > 0 then Err(UnexpectedEOF)
    else
      var (b, _) :- PopBool(m.vm.stack);
      if b then FinalLog(tx, m.vm) else Err(ScriptRetFalse)
  }

  // ----- entering a function -----

  /** The transaction's argument bytes read by the function's declared argument types. */
  function PushArgs(st: seq<OpFrame>, args: seq<Arg>, bytes: seq<byte>): Result<seq<OpFrame>, EvalErrKind>
    decreases |args|
  {
    if args == [] then Ok(st)
    else
      var (f, rest) :- TakeArg(args[0], bytes);
      var st' :- PushFrame(st, f);
      PushArgs(st', args[1..], rest)
  }

  function TakeArg(arg: Arg, bytes: seq<byte>): Result<(OpFrame, seq<byte>), EvalErrKind> {
    match arg
    case ArgAccountId =>
      (match TakeU64(bytes)
       case NotParsed => Err(ArgDeserialization)
       case Parsed(id, rest) => Ok((OpAccountId(id), rest)))
    case ArgAsset =>
      (match TakeAsset(bytes)
       case NotParsed => Err(ArgDeserialization)
       case Parsed(amount, rest) => Ok((OpAsset(amount), rest)))
  }

  function RunFrom(d: EngineData, pos: nat, m: Machine): EvalResult
    requires pos <= |d.script|
  {
    match RunBytes(d, pos, m)
    case Err(e) => Failure(e)
    case Ok(end) =>
      match Conclude(d.tx, end.1)
      case Err(kind) => Failure(EvalErr(end.0, kind))
      case Ok(log) => Success(log)
  }

  datatype Entry = NoEntry(e: EvalErr) | EntryPanic | Enter(args: seq<Arg>, pos: nat)

  /** Where a function's operations start, behind its definition. */
  function EntryPoint(s: seq<byte>, id: byte): (r: Entry)
    ensures r.Enter? ==> r.pos <= |s|
  {
    match FnPtr(s, id)
    case HeaderErr => NoEntry(EvalErr(0, HeaderReadErr))
    case NoSuchFn => NoEntry(EvalErr(0, UnknownFn))
    case FnAt(ptr) =>
      if ptr > |s| then EntryPanic
      else
        match DecodeOp(s, ptr)
        case DecodeErr(at, kind) => NoEntry(EvalErr(at, kind))
        case EndOfScript => NoEntry(EvalErr(ptr, InvalidEntryPoint))
        case Decoded(op, p) => if op.OpDefine? then Enter(op.args, p) else NoEntry(EvalErr(p, InvalidEntryPoint))
  }

  /** `call_fn` on a fresh engine. */
  function CallFn(d: EngineData, id: byte): EvalResult {
    match EntryPoint(d.script, id)
    case NoEntry(e) => Failure(e)
    case EntryPanic => Panic
    case Enter(args, p) =>
      match PushArgs([], args, FnArgs(d.tx))
      case Err(kind) => Failure(EvalErr(p, kind))
      case Ok(st) => RunFrom(d, p, Machine(Vm(st, [], TotalAmount(d.tx)), 0, false))
  }

  /** `eval`: the function a transaction calls. */
  function Eval(d: EngineData): EvalResult {
    CallFn(d, FnId(d.tx))
  }
}
