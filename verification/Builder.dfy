// Assembling scripts: script/builder.rs, and what the reader finds in the result.

module Builders {
  import opened Wrappers
  import opened Numbers
  import opened Serializer
  import opened Ops
  import opened Scripts

  const MAX_SCRIPT_BYTE_SIZE := 2048

  /** A function as the author writes it. */
  datatype FnDef = FnDef(id: byte, args: seq<Arg>, body: seq<OpFrame>)

  predicate FnFits(f: FnDef) {
    |f.args| <= 255 && forall op | op in f.body :: !op.OpDefine?
  }

  function Frames(f: FnDef): seq<OpFrame> {
    [OpDefine(f.args)] + f.body
  }

  function FnBytes(f: FnDef): seq<byte> {
    EncodeOps(Frames(f))
  }

  function AllFrames(fns: seq<FnDef>): seq<OpFrame> {
    if fns == [] then [] else Frames(fns[0]) + AllFrames(fns[1..])
  }

  function Body(fns: seq<FnDef>): seq<byte> {
    EncodeOps(AllFrames(fns))
  }

  function HeaderLen(n: nat): nat {
    1 + 5 * n
  }

  /** One table entry: the identifier, and the pointer from the start of the script. */
  function Entry(id: byte, headerLen: nat, offset: nat): (s: seq<byte>)
    ensures |s| == 5
  {
    [id] + EncU32((headerLen + offset) % 0x1_0000_0000)
  }

  function Table(fns: seq<FnDef>, headerLen: nat, n: nat): (s: seq<byte>)
    requires n <= |fns|
    ensures |s| == 5 * n
  {
    if n == 0 then []
    else Table(fns, headerLen, n - 1) + Entry(fns[n - 1].id, headerLen, |Body(fns[..n - 1])|)
  }

  /** The finished script, or the size by which it is refused. */
  function BuildScript(fns: seq<FnDef>): Result<seq<byte>, nat>
    requires |fns| <= 255
  {
    var headerLen := HeaderLen(|fns|);
    var total := headerLen + |Body(fns)|;
    if total > MAX_SCRIPT_BYTE_SIZE then Err(total)
    else Ok([|fns|] + Table(fns, headerLen, |fns|) + Body(fns))
  }

  // ----- the builders -----

  lemma {:induction false} DefinitionAlone(id: byte, args: seq<Arg>)
    requires |args| <= 255
    ensures FnBytes(FnDef(id, args, [])) == [0x00, |args|] + ArgTags(args)
  {
    assert Frames(FnDef(id, args, [])) == [OpDefine(args)] + [] == [OpDefine(args)];
    hide ArgTags, EncodeOp, EncodeOps, Frames;
    EncodeOne(OpDefine(args));
    DefineBytes(args);
  }

  lemma EncodeOne(op: OpFrame)
    ensures EncodeOps([op]) == EncodeOp(op)
  {
    hide EncodeOp;
    assert [op][1..] == [] && EncodeOps([]) == [];
    assert EncodeOp(op) + [] == EncodeOp(op);
  }

  class FnBuilder {
    const id: byte
    var byteCode: seq<byte>
    ghost var def: FnDef

    ghost predicate Valid()
      reads this
    {
      FnFits(def) && def.id == id && byteCode == FnBytes(def)
    }

    constructor (id: byte, args: seq<Arg>)
      requires |args| <= 255
      ensures Valid() && def == FnDef(id, args, [])
    {
      this.id := id;
      byteCode := [0x00, |args|] + ArgTags(args);
      def := FnDef(id, args, []);
      new;
      hide EncodeOps, ArgTags, Frames;
      DefinitionAlone(id, args);
    }

    method Push(frame: OpFrame)
      requires Valid() && !frame.OpDefine?
      modifies this
      ensures Valid() && def == old(def).(body := old(def.body) + [frame])
    {
      byteCode := byteCode + EncodeOp(frame);
      EncodeOpsAppend(Frames(def), [frame]);
      assert EncodeOps([frame]) == EncodeOp(frame) + EncodeOps([]);
      def := def.(body := def.body + [frame]);
      assert Frames(def) == Frames(old(def)) + [frame];
    }
  }

  class Builder {
    var lookupTable: seq<(byte, u32)>
    var body: seq<byte>
    ghost var fns: seq<FnDef>

    ghost predicate Valid()
      reads this
    {
      && |fns| == |lookupTable| <= 255
      && (forall f | f in fns :: FnFits(f))
      && body == Body(fns)
      && forall i | 0 <= i < |fns| :: lookupTable[i] == (fns[i].id, |Body(fns[..i])| % 0x1_0000_0000)
    }

    constructor ()
      ensures Valid() && fns == []
    {
      lookupTable, body, fns := [], [], [];
    }

    method Push(function_: FnBuilder)
      requires Valid() && function_.Valid() && |fns| < 255
      modifies this
      ensures Valid() && fns == old(fns) + [function_.def]
    {
      lookupTable := lookupTable + [(function_.id, |body| % 0x1_0000_0000)];
      body := body + function_.byteCode;
      BodyAppend(fns, function_.def);
      ghost var before := fns;
      fns := fns + [function_.def];
      assert forall i | 0 <= i <= |before| :: fns[..i] == before[..i];
      assert before[..|before|] == before;
    }

    method Build() returns (r: Result<seq<byte>, nat>)
      requires Valid()
      ensures r == BuildScript(fns)
    {
      hide Body, Table, EncU32;
      var headerLen := 1 + |lookupTable| * 5;
      var totalLen := headerLen + |body|;
      if totalLen > MAX_SCRIPT_BYTE_SIZE {
        return Err(totalLen);
      }
      var script: seq<byte> := [|lookupTable|];
      TableStart(fns, headerLen);
      for i := 0 to |lookupTable|
        invariant script == [|fns|] + Table(fns, headerLen, i)
      {
        var (id, offset) := lookupTable[i];
        BodyPrefix(fns, i);
        TableStep(fns, headerLen, i, offset);
        script := script + [id];
        script := script + EncU32((headerLen + offset) % 0x1_0000_0000);
      }
      script := script + body;
      return Ok(script);
    }
  }

  lemma TableStart(fns: seq<FnDef>, headerLen: nat)
    requires |fns| <= 255
    ensures [|fns|] == [|fns|] + Table(fns, headerLen, 0)
  {
  }

  lemma TableStep(fns: seq<FnDef>, headerLen: nat, i: nat, offset: nat)
    requires |fns| <= 255 && i < |fns| && offset == |Body(fns[..i])|
    ensures [|fns|] + Table(fns, headerLen, i + 1)
         == ([|fns|] + Table(fns, headerLen, i) + [fns[i].id]) + EncU32((headerLen + offset) % 0x1_0000_0000)
  {
    hide Body, EncU32;
  }

  // ----- what the reader finds -----

  lemma {:induction false} EncodeOpsAppend(a: seq<OpFrame>, b: seq<OpFrame>)
    ensures EncodeOps(a + b) == EncodeOps(a) + EncodeOps(b)
  {
    if a == [] {
      assert a + b == b;
    } else {
      assert (a + b)[1..] == a[1..] + b;
      EncodeOpsAppend(a[1..], b);
    }
  }

  lemma {:induction false} AllFramesAppend(a: seq<FnDef>, b: seq<FnDef>)
    ensures AllFrames(a + b) == AllFrames(a) + AllFrames(b)
  {
    if a == [] {
      assert a + b == b;
    } else {
      assert (a + b)[1..] == a[1..] + b;
      AllFramesAppend(a[1..], b);
    }
  }

  lemma BodySplit(fns: seq<FnDef>, i: nat)
    requires i <= |fns|
    ensures Body(fns) == Body(fns[..i]) + EncodeOps(AllFrames(fns[i..]))
  {
    assert fns == fns[..i] + fns[i..];
    AllFramesAppend(fns[..i], fns[i..]);
    EncodeOpsAppend(AllFrames(fns[..i]), AllFrames(fns[i..]));
  }

  lemma BodyPrefix(fns: seq<FnDef>, i: nat)
    requires i <= |fns|
    ensures |Body(fns[..i])| <= |Body(fns)|
  {
    BodySplit(fns, i);
  }

  lemma BodyAppend(fns: seq<FnDef>, f: FnDef)
    ensures Body(fns + [f]) == Body(fns) + FnBytes(f)
  {
    AllFramesAppend(fns, [f]);
    assert AllFrames([f]) == Frames(f) + AllFrames([]);
    assert AllFrames([f]) == Frames(f);
    EncodeOpsAppend(AllFrames(fns), Frames(f));
  }

  lemma {:induction false} TableEntry(fns: seq<FnDef>, headerLen: nat, n: nat, k: nat)
    requires k < n <= |fns|
    ensures Table(fns, headerLen, n)[5 * k..5 * k + 5]
         == Entry(fns[k].id, headerLen, |Body(fns[..k])|)
  {
    var t := Table(fns, headerLen, n - 1);
    if k < n - 1 {
      TableEntry(fns, headerLen, n - 1, k);
      assert Table(fns, headerLen, n)[5 * k..5 * k + 5] == t[5 * k..5 * k + 5];
    }
  }

  /** No function before `k` has the identifier. */
  predicate NoneBefore(fns: seq<FnDef>, id: byte, k: nat)
    requires k <= |fns|
  {
    forall i | 0 <= i < k :: fns[i].id != id
  }

  /** The position of function `k` in the finished script. */
  function Pointer(fns: seq<FnDef>, k: nat): nat
    requires k <= |fns|
  {
    HeaderLen(|fns|) + |Body(fns[..k])|
  }

  lemma PointerBound(fns: seq<FnDef>, script: seq<byte>, k: nat)
    requires |fns| <= 255 && BuildScript(fns) == Ok(script) && k <= |fns|
    ensures HeaderLen(|fns|) <= Pointer(fns, k) <= |script| <= MAX_SCRIPT_BYTE_SIZE
  {
    BodyPrefix(fns, k);
  }

  lemma EntryAt(fns: seq<FnDef>, script: seq<byte>, k: nat)
    requires |fns| <= 255 && BuildScript(fns) == Ok(script) && k < |fns|
    ensures HeaderLen(|fns|) <= |script|
    ensures script[1 + 5 * k..6 + 5 * k] == Entry(fns[k].id, HeaderLen(|fns|), |Body(fns[..k])|)
  {
    hide Entry, Body;
    var h := HeaderLen(|fns|);
    var t := Table(fns, h, |fns|);
    TableEntry(fns, h, |fns|, k);
    assert 5 * k + 5 <= |t|;
    var front := [|fns|] + t;
    assert script == front + Body(fns);
    assert script[1 + 5 * k..6 + 5 * k] == t[5 * k..5 * k + 5];
  }

  /** One step of the reader over the entry of function `n`. */
  lemma FindFnStep(fns: seq<FnDef>, script: seq<byte>, id: byte, n: nat)
    requires |fns| <= 255 && BuildScript(fns) == Ok(script) && n < |fns|
    ensures FindFn(script, 1 + 5 * n, |fns| - n, id)
         == if fns[n].id == id then FnAt(Pointer(fns, n) % 0x1_0000_0000)
            else FindFn(script, 1 + 5 * (n + 1), |fns| - (n + 1), id)
  {
    hide Body, Table;
    EntryAt(fns, script, n);
    PointerBound(fns, script, n);
    var e := Entry(fns[n].id, HeaderLen(|fns|), |Body(fns[..n])|);
    var five := script[1 + 5 * n..6 + 5 * n];
    assert script[1 + 5 * n] == five[0] == e[0] == fns[n].id;
    assert script[2 + 5 * n..6 + 5 * n] == five[1..] == e[1..];
    assert e[1..] == EncU32(Pointer(fns, n) % 0x1_0000_0000);
    U32RoundTrip(Pointer(fns, n) % 0x1_0000_0000);
  }

  lemma {:induction false} FindFnFrom(fns: seq<FnDef>, script: seq<byte>, id: byte, k: nat, n: nat)
    requires |fns| <= 255 && BuildScript(fns) == Ok(script)
    requires n <= k <= |fns| && NoneBefore(fns, id, k) && (k < |fns| ==> fns[k].id == id)
    ensures FindFn(script, 1 + 5 * n, |fns| - n, id)
         == if k == |fns| then NoSuchFn else FnAt(Pointer(fns, k) % 0x1_0000_0000)
    decreases k - n
  {
    hide BuildScript, Pointer;
    if n < |fns| {
      FindFnStep(fns, script, id, n);
      if n < k {
        FindFnFrom(fns, script, id, k, n + 1);
      }
    }
  }

  /** In a built script the table leads to the first function pushed with the identifier, whose
      bytes are its definition, its frames and then every later function; an identifier never
      pushed is not found. */
  lemma BuiltLookup(fns: seq<FnDef>, script: seq<byte>, id: byte, k: nat)
    requires |fns| <= 255 && BuildScript(fns) == Ok(script)
    requires k <= |fns| && NoneBefore(fns, id, k) && (k < |fns| ==> fns[k].id == id)
    ensures k == |fns| ==> FnPtr(script, id) == NoSuchFn
    ensures k < |fns| ==>
              && FnPtr(script, id).FnAt?
              && FnPtr(script, id).ptr < |script|
              && script[FnPtr(script, id).ptr..] == EncodeOps(AllFrames(fns[k..]))
  {
    hide BuildScript, EncodeOps, AllFrames, Body;
    FindFnFrom(fns, script, id, k, 0);
    BuiltHeader(fns, script);
    if k < |fns| {
      PointerBound(fns, script, k);
      BodyAtPointer(fns, script, k);
      assert Pointer(fns, k) % 0x1_0000_0000 == Pointer(fns, k);
    }
  }

  lemma BuiltHeader(fns: seq<FnDef>, script: seq<byte>)
    requires |fns| <= 255 && BuildScript(fns) == Ok(script)
    ensures script != [] && script[0] == |fns|
  {
  }

  lemma BodyAtPointer(fns: seq<FnDef>, script: seq<byte>, k: nat)
    requires |fns| <= 255 && BuildScript(fns) == Ok(script) && k < |fns|
    ensures Pointer(fns, k) < |script|
    ensures script[Pointer(fns, k)..] == EncodeOps(AllFrames(fns[k..]))
  {
    BodySplit(fns, k);
    EncodeOpsNonEmpty(AllFrames(fns[k..]));
    hide Body, Entry, EncodeOps, AllFrames;
    var front := [|fns|] + Table(fns, HeaderLen(|fns|), |fns|);
    assert script == front + Body(fns);
    assert script[Pointer(fns, k)..] == Body(fns)[|Body(fns[..k])|..];
  }

  lemma EncodeOpsNonEmpty(ops: seq<OpFrame>)
    requires ops != []
    ensures |EncodeOps(ops)| > 0
  {
  }

  // ----- reading the frames back -----

  /** The operations that repeated decoding yields from a position, up to the end of the script or
      the first byte sequence that is no operation. */
  function DecodeAll(s: seq<byte>, pos: nat): seq<OpFrame>
    requires pos <= |s|
    decreases |s| - pos
  {
    match DecodeOp(s, pos)
    case Decoded(op, p) => [op] + DecodeAll(s, p)
    case _ => []
  }

  lemma {:induction false} DecodeAllOf(s: seq<byte>, pos: nat, ops: seq<OpFrame>)
    requires pos <= |s| && OpsFit(ops) && s[pos..] == EncodeOps(ops)
    ensures DecodeAll(s, pos) == ops
    decreases |ops|
  {
    hide DecodeOp, EncodeOp, EncodeOps;
    if ops == [] {
      DecodeAtEnd(s, pos);
    } else {
      EncodeOpsStep(s, pos, ops);
      DecodeOpOf(s, pos, ops[0]);
      var p := pos + |EncodeOp(ops[0])|;
      DecodeAllOf(s, p, ops[1..]);
      assert ops == [ops[0]] + ops[1..];
    }
  }

  lemma DecodeAtEnd(s: seq<byte>, pos: nat)
    requires pos <= |s| && s[pos..] == EncodeOps([])
    ensures DecodeAll(s, pos) == []
  {
    assert pos == |s|;
  }

  lemma EncodeOpsStep(s: seq<byte>, pos: nat, ops: seq<OpFrame>)
    requires pos <= |s| && ops != [] && s[pos..] == EncodeOps(ops)
    ensures EncodeOp(ops[0]) <= s[pos..]
    ensures pos + |EncodeOp(ops[0])| <= |s|
    ensures s[pos + |EncodeOp(ops[0])|..] == EncodeOps(ops[1..])
  {
    hide EncodeOp;
    assert s[pos..][|EncodeOp(ops[0])|..] == EncodeOps(ops[1..]);
  }

  lemma {:induction false} AllFramesFit(fns: seq<FnDef>)
    requires forall f | f in fns :: FnFits(f)
    ensures OpsFit(AllFrames(fns))
  {
    if fns != [] {
      AllFramesFit(fns[1..]);
      assert fns[0] in fns;
    }
  }

  /** Builder then reader: from the pointer of a function, decoding yields its definition, exactly
      the frames pushed, and then the functions pushed after it. */
  lemma BuiltScriptReadsBack(fns: seq<FnDef>, script: seq<byte>, id: byte, k: nat)
    requires |fns| <= 255 && (forall f | f in fns :: FnFits(f)) && BuildScript(fns) == Ok(script)
    requires k < |fns| && NoneBefore(fns, id, k) && fns[k].id == id
    ensures FnPtr(script, id).FnAt? && FnPtr(script, id).ptr <= |script|
    ensures DecodeAll(script, FnPtr(script, id).ptr) == Frames(fns[k]) + AllFrames(fns[k + 1..])
  {
    BuiltLookup(fns, script, id, k);
    AllFramesFit(fns[k..]);
    DecodeAllOf(script, FnPtr(script, id).ptr, AllFrames(fns[k..]));
    assert fns[k..][1..] == fns[k + 1..];
  }
}
