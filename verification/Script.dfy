// The script language and its byte form: script/op.rs, script/builder.rs and script/mod.rs.

module Ops {
  import opened Numbers
  import opened Assets
  import opened Serializer
  import opened Accounts

  datatype Arg = ArgAccountId | ArgAsset

  datatype OpFrame =
    | OpDefine(args: seq<Arg>)
    | OpTransfer
    | OpDestroy
    | OpFalse
    | OpTrue
    | OpAccountId(id: AccountId)
    | OpAsset(amount: Asset)
    | OpLoadAmt
    | OpLoadRemAmt
    | OpAdd
    | OpSub
    | OpMul
    | OpDiv
    | OpNot
    | OpIf
    | OpElse
    | OpEndIf
    | OpReturn
    | OpAbort
    | OpCheckPerms
    | OpCheckPermsFastFail
    | OpCheckMultiPerms(threshold: byte, count: byte)
    | OpCheckMultiPermsFastFail(threshold: byte, count: byte)
    | OpCheckTime(time: u64)
    | OpCheckTimeFastFail(time: u64)

  datatype EvalErrKind =
    | ScriptRetFalse
    | Aborted
    | UnexpectedEOF
    | HeaderReadErr
    | InvalidEntryPoint
    | UnknownOp
    | UnknownFn
    | UnknownArgType
    | ArgDeserialization
    | InvalidItemOnStack
    | StackOverflow
    | StackUnderflow
    | Arithmetic
    | InvalidAmount
    | AccountNotFound

  // ----- encoding -----

  function ArgTag(a: Arg): byte {
    match a
    case ArgAccountId => 0x00
    case ArgAsset => 0x01
  }

  function ArgTags(args: seq<Arg>): (s: seq<byte>)
    ensures |s| == |args|
  {
    if args == [] then [] else [ArgTag(args[0])] + ArgTags(args[1..])
  }

  function Opcode(op: OpFrame): byte {
    match op
    case OpDefine(_) => 0x00
    case OpTransfer => 0x10
    case OpDestroy => 0x11
    case OpFalse => 0x20
    case OpTrue => 0x21
    case OpAccountId(_) => 0x22
    case OpAsset(_) => 0x23
    case OpLoadAmt => 0x30
    case OpLoadRemAmt => 0x31
    case OpAdd => 0x32
    case OpSub => 0x33
    case OpMul => 0x34
    case OpDiv => 0x35
    case OpNot => 0x40
    case OpIf => 0x41
    case OpElse => 0x42
    case OpEndIf => 0x43
    case OpReturn => 0x44
    case OpAbort => 0x45
    case OpCheckPerms => 0x50
    case OpCheckPermsFastFail => 0x51
    case OpCheckMultiPerms(_, _) => 0x52
    case OpCheckMultiPermsFastFail(_, _) => 0x53
    case OpCheckTime(_) => 0x60
    case OpCheckTimeFastFail(_) => 0x61
  }

  function Immediate(op: OpFrame): seq<byte> {
    match op
    case OpDefine(args) => [|args| % 256] + ArgTags(args)
    case OpAccountId(id) => EncU64(id)
    case OpAsset(amount) => EncI64(amount)
    case OpCheckMultiPerms(t, n) => [t, n]
    case OpCheckMultiPermsFastFail(t, n) => [t, n]
    case OpCheckTime(time) => EncU64(time)
    case OpCheckTimeFastFail(time) => EncU64(time)
    case _ => []
  }

  function EncodeOp(op: OpFrame): seq<byte> {
    [Opcode(op)] + Immediate(op)
  }

  function EncodeOps(ops: seq<OpFrame>): seq<byte> {
    if ops == [] then [] else EncodeOp(ops[0]) + EncodeOps(ops[1..])
  }

  /** A definition's argument count fits its one-byte prefix. */
  predicate OpFits(op: OpFrame) {
    op.OpDefine? ==> |op.args| <= 255
  }

  predicate OpsFit(ops: seq<OpFrame>) {
    forall op | op in ops :: OpFits(op)
  }

  // ----- decoding -----

  datatype Decoded =
    | DecodeErr(at: nat, kind: EvalErrKind)
    | EndOfScript
    | Decoded(op: OpFrame, next: nat)

  /** Operations without an immediate. */
  function PlainOp(b: byte): (r: OpFrame)
    requires PlainByte(b)
    ensures Opcode(r) == b && Immediate(r) == []
  {
    if b == 0x10 then OpTransfer else if b == 0x11 then OpDestroy
    else if b == 0x20 then OpFalse else if b == 0x21 then OpTrue
    else if b == 0x30 then OpLoadAmt else if b == 0x31 then OpLoadRemAmt
    else if b == 0x32 then OpAdd else if b == 0x33 then OpSub
    else if b == 0x34 then OpMul else if b == 0x35 then OpDiv
    else if b == 0x40 then OpNot else if b == 0x41 then OpIf
    else if b == 0x42 then OpElse else if b == 0x43 then OpEndIf
    else if b == 0x44 then OpReturn else if b == 0x45 then OpAbort
    else if b == 0x50 then OpCheckPerms else OpCheckPermsFastFail
  }

  predicate PlainByte(b: byte) {
    b in {0x10, 0x11, 0x20, 0x21, 0x30, 0x31, 0x32, 0x33, 0x34, 0x35,
          0x40, 0x41, 0x42, 0x43, 0x44, 0x45, 0x50, 0x51}
  }

  /** The argument tags of a definition, `n` of them still to read. */
  function DecodeArgs(s: seq<byte>, pos: nat, n: nat, args: seq<Arg>): (r: Decoded)
    requires pos <= |s|
    ensures r.Decoded? ==> pos <= r.next <= |s|
    ensures r.DecodeErr? ==> pos <= r.at <= |s|
    ensures !r.EndOfScript?
    decreases n
  {
    if n == 0 then Decoded(OpDefine(args), pos)
    else if pos == |s| then DecodeErr(pos, UnexpectedEOF)
    else if s[pos] == 0x00 then DecodeArgs(s, pos + 1, n - 1, args + [ArgAccountId])
    else if s[pos] == 0x01 then DecodeArgs(s, pos + 1, n - 1, args + [ArgAsset])
    else DecodeErr(pos + 1, UnknownArgType)
  }

  /** Operations whose opcode is followed by an eight-byte value. */
  function DecodeWide(s: seq<byte>, pos: nat, b: byte): (r: Decoded)
    requires pos <= |s|
    ensures r.Decoded? ==> r.next == pos + 8 <= |s|
    ensures r.DecodeErr? ==> r.at == pos
    ensures !r.EndOfScript?
  {
    if pos + 8 > |s| then DecodeErr(pos, UnexpectedEOF)
    else
      var v := s[pos..pos + 8];
      var op := if b == 0x22 then OpAccountId(DecU64(v))
                else if b == 0x23 then OpAsset(DecI64(v))
                else if b == 0x60 then OpCheckTime(DecU64(v))
                else OpCheckTimeFastFail(DecU64(v));
      Decoded(op, pos + 8)
  }

  /** Operations whose opcode is followed by two one-byte values. */
  function DecodePair(s: seq<byte>, pos: nat, b: byte): (r: Decoded)
    requires pos <= |s|
    ensures r.Decoded? ==> r.next == pos + 2 <= |s|
    ensures r.DecodeErr? ==> r.at == |s|
    ensures !r.EndOfScript?
  {
    if pos + 2 > |s| then DecodeErr(|s|, UnexpectedEOF)
    else Decoded(if b == 0x52 then OpCheckMultiPerms(s[pos], s[pos + 1])
                 else OpCheckMultiPermsFastFail(s[pos], s[pos + 1]), pos + 2)
  }

  /** `consume_op` from a position inside the script. */
  function DecodeOp(s: seq<byte>, pos: nat): (r: Decoded)
    requires pos <= |s|
    ensures r.Decoded? ==> pos < r.next <= |s|
    ensures r.DecodeErr? ==> pos < r.at <= |s|
    ensures r.EndOfScript? <==> pos == |s|
  {
    if pos == |s| then EndOfScript
    else
      var b := s[pos];
      if b == 0x00 then
        if pos + 1 == |s| then DecodeErr(pos + 1, UnexpectedEOF)
        else DecodeArgs(s, pos + 2, s[pos + 1], [])
      else if PlainByte(b) then Decoded(PlainOp(b), pos + 1)
      else if b in {0x22, 0x23, 0x60, 0x61} then DecodeWide(s, pos + 1, b)
      else if b in {0x52, 0x53} then DecodePair(s, pos + 1, b)
      else DecodeErr(pos + 1, UnknownOp)
  }

  // ----- decoding undoes encoding -----

  lemma {:induction false} DecodeArgsOf(s: seq<byte>, pos: nat, todo: seq<Arg>, done: seq<Arg>)
    requires pos <= |s| && ArgTags(todo) <= s[pos..]
    ensures DecodeArgs(s, pos, |todo|, done) == Decoded(OpDefine(done + todo), pos + |todo|)
    decreases todo
  {
    if todo == [] {
      assert done + todo == done;
    } else {
      assert s[pos] == s[pos..][0] == ArgTag(todo[0]);
      assert ArgTags(todo[1..]) <= s[pos + 1..] by {
        assert s[pos + 1..] == s[pos..][1..];
        assert ArgTags(todo)[1..] == ArgTags(todo[1..]);
      }
      DecodeArgsOf(s, pos + 1, todo[1..], done + [todo[0]]);
      assert done + [todo[0]] + todo[1..] == done + todo;
    }
  }

  predicate IsPlain(op: OpFrame) {
    PlainByte(Opcode(op))
  }

  lemma PlainOpOf(op: OpFrame)
    requires IsPlain(op)
    ensures PlainOp(Opcode(op)) == op && Immediate(op) == []
  {
  }

  lemma DecodeDefineOf(s: seq<byte>, pos: nat, args: seq<Arg>)
    requires pos <= |s| && |args| <= 255 && EncodeOp(OpDefine(args)) <= s[pos..]
    ensures DecodeOp(s, pos) == Decoded(OpDefine(args), pos + 2 + |args|)
  {
    hide EncodeOp, ArgTags, DecodeArgs, DecodeWide, DecodePair, PlainOp, PlainByte;
    DefineBytes(args);
    HeadAndTail(s[pos..], 0x00, |args|, ArgTags(args));
    assert s[pos] == s[pos..][0] && s[pos + 1] == s[pos..][1] && s[pos + 2..] == s[pos..][2..];
    DecodeArgsOf(s, pos + 2, args, []);
    assert [] + args == args;
  }

  lemma {:induction false} DefineBytes(args: seq<Arg>)
    requires |args| <= 255
    ensures EncodeOp(OpDefine(args)) == [0x00, |args|] + ArgTags(args)
  {
    assert EncodeOp(OpDefine(args)) == [0x00] + ([|args|] + ArgTags(args));
    hide *;
    TwoInFront(0x00, |args|, ArgTags(args));
  }

  lemma TwoInFront(a: byte, b: byte, tail: seq<byte>)
    ensures [a] + ([b] + tail) == [a, b] + tail
  {
  }

  lemma HeadAndTail(s: seq<byte>, a: byte, b: byte, tail: seq<byte>)
    requires [a, b] + tail <= s
    ensures |s| >= 2 && s[0] == a && s[1] == b && tail <= s[2..]
  {
    assert s[..|tail| + 2] == [a, b] + tail;
    assert s[2..][..|tail|] == tail;
  }

  lemma DecodeWideOf(s: seq<byte>, pos: nat, op: OpFrame)
    requires op.OpAccountId? || op.OpAsset? || op.OpCheckTime? || op.OpCheckTimeFastFail?
    requires pos + 8 <= |s| && Immediate(op) == s[pos..pos + 8]
    ensures DecodeWide(s, pos, Opcode(op)) == Decoded(op, pos + 8)
  {
    match op
    case OpAccountId(id) => U64RoundTrip(id);
    case OpAsset(amount) => I64RoundTrip(amount);
    case OpCheckTime(time) => U64RoundTrip(time);
    case OpCheckTimeFastFail(time) => U64RoundTrip(time);
  }

  /** Wherever the bytes of an operation stand in a script, decoding there gives the operation and
      the position just past them. */
  lemma DecodeOpOf(s: seq<byte>, pos: nat, op: OpFrame)
    requires pos <= |s| && OpFits(op) && EncodeOp(op) <= s[pos..]
    ensures DecodeOp(s, pos) == Decoded(op, pos + |EncodeOp(op)|)
  {
    var code := EncodeOp(op);
    assert s[pos] == s[pos..][0] == code[0] == Opcode(op);
    if op.OpDefine? {
      DecodeDefineOf(s, pos, op.args);
    } else if IsPlain(op) {
      PlainOpOf(op);
    } else if op.OpCheckMultiPerms? || op.OpCheckMultiPermsFastFail? {
      assert s[pos + 1] == s[pos..][1] == code[1];
      assert s[pos + 2] == s[pos..][2] == code[2];
    } else {
      assert |code| == 9;
      assert s[pos + 1..pos + 9] == s[pos..][1..9] == code[1..] == Immediate(op);
      DecodeWideOf(s, pos + 1, op);
    }
  }
}

module Scripts {
  import opened Numbers
  import opened Serializer

  datatype FnLookup = HeaderErr | NoSuchFn | FnAt(ptr: u32)

  /** The header table from the entry at `pos`, `n` entries still to read. */
  function FindFn(s: seq<byte>, pos: nat, n: nat, id: byte): FnLookup
    decreases n
  {
    if n == 0 then NoSuchFn
    else if pos >= |s| then HeaderErr
    else if s[pos] == id then
      if pos + 5 <= |s| then FnAt(DecU32(s[pos + 1..pos + 5])) else HeaderErr
    else FindFn(s, pos + 5, n - 1, id)
  }

  function FnPtr(s: seq<byte>, id: byte): FnLookup {
    if s == [] then HeaderErr else FindFn(s, 1, s[0], id)
  }

  /** `get_fn_ptr`: the cursor may be moved past the end, where every read fails. */
  method GetFnPtr(s: seq<byte>, fnId: byte) returns (r: FnLookup)
    ensures r == FnPtr(s, fnId)
  {
    if s == [] {
      return HeaderErr;
    }
    var pos := 1;
    var left: nat := s[0];
    while left > 0
      invariant FindFn(s, pos, left, fnId) == FnPtr(s, fnId)
    {
      if pos >= |s| {
        return HeaderErr;
      }
      if s[pos] == fnId {
        if pos + 5 > |s| {
          return HeaderErr;
        }
        return FnAt(DecU32(s[pos + 1..pos + 5]));
      }
      pos := pos + 5;
      left := left - 1;
    }
    return NoSuchFn;
  }
}
