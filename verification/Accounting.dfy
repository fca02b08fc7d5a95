// Where a script's funds go: every unit of the amount is accounted for.

module Accounting {
  import opened Wrappers
  import opened Numbers
  import opened Accounts
  import opened Blocks
  import opened Ops
  import opened Engine

  /** The total of a log's transfers. */
  function Transferred(log: seq<LogEntry>): int {
    if log == [] then 0
    else
      var e := log[|log| - 1];
      Transferred(log[..|log| - 1]) + if e.Transfer? then e.amount else 0
  }

  lemma TransferredSnoc(log: seq<LogEntry>, e: LogEntry)
    ensures Transferred(log + [e]) == Transferred(log) + if e.Transfer? then e.amount else 0
  {
    assert (log + [e])[..|log + [e]| - 1] == log;
  }

  /** An account a script may send to: it is visible and not destroyed. */
  predicate OpenTarget(lookup: AccountId -> Option<Account>, id: AccountId) {
    lookup(id).Some? && !lookup(id).value.destroyed
  }

  /** Only transfers, of amounts not below zero, to open accounts. */
  predicate TransfersOnly(lookup: AccountId -> Option<Account>, log: seq<LogEntry>) {
    forall e | e in log :: e.Transfer? && e.amount >= 0 && OpenTarget(lookup, e.to)
  }

  /** What the main loop keeps: the stack bound, and the split of the amount between what is left
      and what has been sent. */
  predicate Running(d: EngineData, vm: Vm) {
    && |vm.stack| <= MAX_FRAME_STACK
    && 0 <= vm.remaining
    && vm.remaining + Transferred(vm.log) == TotalAmount(d.tx)
    && TransfersOnly(d.lookup, vm.log)
  }

  /** How it can stop: as it ran, or with one Destroy entry at the very end. */
  predicate Stopped(d: EngineData, vm: Vm) {
    || Running(d, vm)
    || (&& d.tx.TransferTx?
        && vm.log != []
        && var e := vm.log[|vm.log| - 1];
           && e.Destroy? && e.to != d.tx.from && OpenTarget(d.lookup, e.to)
           && Running(d, vm.(log := vm.log[..|vm.log| - 1])))
  }

  lemma PopAccountIdsBound(st: seq<OpFrame>, n: nat)
    ensures var r := PopAccountIds(st, n); r.Ok? ==> |r.value.1| <= |st|
  {
  }

  lemma OneMoreTransfer(d: EngineData, log: seq<LogEntry>, e: LogEntry)
    requires TransfersOnly(d.lookup, log) && e.Transfer? && e.amount >= 0 && OpenTarget(d.lookup, e.to)
    ensures TransfersOnly(d.lookup, log + [e]) && Transferred(log + [e]) == Transferred(log) + e.amount
  {
    TransferredSnoc(log, e);
    hide Transferred, OpenTarget;
  }

  lemma {:induction false} StepTransferKeeps(d: EngineData, vm: Vm)
    requires Running(d, vm)
    ensures var r := StepTransfer(d, vm);
            r.Ok? ==> r.value.Next? && Running(d, r.value.vm) && |r.value.vm.log| == |vm.log| + 1
  {
    var r := StepTransfer(d, vm);
    if r.Ok? {
      hide Transferred, TransfersOnly;
      OneMoreTransfer(d, vm.log, r.value.vm.log[|vm.log|]);
    }
  }

  lemma StepDestroyKeeps(d: EngineData, vm: Vm)
    requires Running(d, vm)
    ensures var r := StepDestroy(d, vm);
            r.Ok? ==> r.value.Halted? && Stopped(d, r.value.vm) && |r.value.vm.log| == |vm.log| + 1
  {
    var r := StepDestroy(d, vm);
    if r.Ok? {
      var log' := r.value.vm.log;
      assert log'[..|log'| - 1] == vm.log;
    }
  }

  /** The step touches the stack only, and keeps its bound. */
  predicate StackOnly(vm: Vm, r: Result<Step, EvalErrKind>) {
    r.Ok? ==> r.value.vm.log == vm.log && r.value.vm.remaining == vm.remaining
              && |r.value.vm.stack| <= MAX_FRAME_STACK
  }

  lemma StepArithKeeps(vm: Vm, op: OpFrame)
    requires |vm.stack| <= MAX_FRAME_STACK
    ensures StackOnly(vm, StepArith(vm, op))
  {
  }

  lemma StepCheckPermsKeeps(d: EngineData, vm: Vm, threshold: nat, count: nat, fastFail: bool)
    requires |vm.stack| <= MAX_FRAME_STACK
    ensures StackOnly(vm, StepCheckPerms(d, vm, threshold, count, fastFail))
  {
    PopAccountIdsBound(vm.stack, count);
  }

  lemma StepStackOnly(d: EngineData, vm: Vm, op: OpFrame)
    requires IsBasic(op) && !op.OpTransfer? && !op.OpDestroy? && |vm.stack| <= MAX_FRAME_STACK
    ensures StackOnly(vm, StepOp(d, vm, op))
  {
    match op
    case OpCheckPerms => StepCheckPermsKeeps(d, vm, 1, 1, false);
    case OpCheckPermsFastFail => StepCheckPermsKeeps(d, vm, 1, 1, true);
    case OpCheckMultiPerms(t, n) => StepCheckPermsKeeps(d, vm, t, n, false);
    case OpCheckMultiPermsFastFail(t, n) => StepCheckPermsKeeps(d, vm, t, n, true);
    case OpAdd => StepArithKeeps(vm, op);
    case OpSub => StepArithKeeps(vm, op);
    case OpMul => StepArithKeeps(vm, op);
    case OpDiv => StepArithKeeps(vm, op);
    case _ =>
  }

  lemma StepKeeps(d: EngineData, vm: Vm, op: OpFrame)
    requires IsBasic(op) && Running(d, vm)
    ensures match StepOp(d, vm, op)
            case Err(_) => true
            case Ok(Next(vm')) => Running(d, vm') && |vm'.log| <= |vm.log| + 1
            case Ok(Halted(vm')) => Stopped(d, vm') && |vm'.log| <= |vm.log| + 1
  {
    if op.OpTransfer? {
      StepTransferKeeps(d, vm);
    } else if op.OpDestroy? {
      StepDestroyKeeps(d, vm);
    } else {
      StepStackOnly(d, vm, op);
    }
  }

  lemma TurnKeeps(d: EngineData, pos: nat, m: Machine)
    requires pos <= |d.script| && Running(d, m.vm)
    ensures match TurnBytes(d, pos, m)
            case Fault(_) => true
            case Ended(p, m') => Stopped(d, m'.vm) && |m'.vm.log| - |m.vm.log| <= p - pos
            case Onward(p, m') => Running(d, m'.vm) && |m'.vm.log| - |m.vm.log| <= p - pos
  {
    var r := DecodeOp(d.script, pos);
    if r.Decoded? && IsBasic(r.op) {
      StepKeeps(d, m.vm, r.op);
    }
  }

  /** Over the whole run, from any position of any bytes: nothing is lost or made, and each log
      entry has cost at least one byte of the script. */
  lemma {:induction false} RunKeeps(d: EngineData, pos: nat, m: Machine)
    requires pos <= |d.script| && Running(d, m.vm)
    ensures var r := RunBytes(d, pos, m);
            r.Ok? ==> Stopped(d, r.value.1.vm) && |r.value.1.vm.log| - |m.vm.log| <= r.value.0 - pos
    decreases |d.script| - pos
  {
    TurnKeeps(d, pos, m);
    var t := TurnBytes(d, pos, m);
    if t.Onward? {
      RunKeeps(d, t.pos, t.m);
    }
  }

  /** A transfer goes to an open account or back to the sender; a Destroy names another, open
      account, and only a transfer to that account may follow it. */
  predicate EntryShape(lookup: AccountId -> Option<Account>, from: AccountId, log: seq<LogEntry>, i: nat)
    requires i < |log|
  {
    match log[i]
    case Transfer(to, amount) => amount >= 0 && (OpenTarget(lookup, to) || to == from)
    case Destroy(to) =>
      && to != from && OpenTarget(lookup, to)
      && (i == |log| - 1 || (i == |log| - 2 && log[i + 1].Transfer? && log[i + 1].to == to))
  }

  /** The shape of a transfer transaction's log; in particular it has at most one Destroy. */
  predicate LogShape(lookup: AccountId -> Option<Account>, from: AccountId, log: seq<LogEntry>) {
    forall i | 0 <= i < |log| :: EntryShape(lookup, from, log, i)
  }

  lemma FinalLogSound(d: EngineData, vm: Vm)
    requires d.tx.TransferTx? && Stopped(d, vm)
    ensures var r := FinalLog(d.tx, vm);
            && r.Ok?
            && Transferred(r.value) == d.tx.amount
            && LogShape(d.lookup, d.tx.from, r.value)
            && |r.value| <= |vm.log| + 1
  {
    if !Running(d, vm) {
      var front := vm.log[..|vm.log| - 1];
      assert vm.log == front + [vm.log[|front|]];
      assert TransfersOnly(d.lookup, front);
      assert forall i | 0 <= i < |front| :: vm.log[i] in front;
      TransferredSnoc(front, vm.log[|front|]);
    }
    if vm.remaining > 0 {
      var log := FinalLog(d.tx, vm).value;
      TransferredSnoc(vm.log, log[|vm.log|]);
    }
  }

  lemma {:induction false} PushArgsBound(st: seq<OpFrame>, args: seq<Arg>, bytes: seq<byte>)
    requires |st| <= MAX_FRAME_STACK
    ensures var r := PushArgs(st, args, bytes); r.Ok? ==> |r.value| <= MAX_FRAME_STACK
    decreases |args|
  {
    if args != [] {
      var a := TakeArg(args[0], bytes);
      if a.Ok? && PushFrame(st, a.value.0).Ok? {
        PushArgsBound(PushFrame(st, a.value.0).value, args[1..], a.value.1);
      }
    }
  }

  /** A script of a transfer transaction that succeeds has sent exactly the transaction's amount. */
  lemma SuccessAccountsForAmount(d: EngineData)
    requires d.tx.TransferTx? && d.tx.amount >= 0
    ensures match Eval(d)
            case Success(log) =>
              && Transferred(log) == d.tx.amount
              && LogShape(d.lookup, d.tx.from, log)
              && |log| <= |d.script| + 1
            case _ => true
  {
    hide EntryPoint, RunBytes, FinalLog;
    var e := EntryPoint(d.script, d.tx.callFn);
    if e.Enter? {
      var st := PushArgs([], e.args, d.tx.args);
      PushArgsBound([], e.args, d.tx.args);
      if st.Ok? {
        var m := Machine(Vm(st.value, [], d.tx.amount), 0, false);
        assert Running(d, m.vm);
        RunKeeps(d, e.pos, m);
        var r := RunBytes(d, e.pos, m);
        if r.Ok? {
          FinalLogSound(d, r.value.1.vm);
        }
      }
    }
  }
}
