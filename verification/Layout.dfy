// The byte forms themselves, byte by byte: numbers by their digits, and records by examples with every
// byte written out (serializer.rs, tx/mod.rs, blockchain, account.rs and script).

module Layouts {
  import opened Wrappers
  import opened Numbers
  import opened Serializer
  import opened Crypto
  import opened Accounts
  import opened Transactions
  import opened Blocks
  import opened Ops
  import opened Builders
  import opened Nodes

  // ----- numbers -----

  /** Fixed numbers have their most significant byte first. */
  lemma {:induction false} BigEndianDigits(n: nat, k: nat, i: nat)
    requires i < k
    ensures Pow(256, k - 1 - i) > 0 && EncBE(n, k)[i] == n / Pow(256, k - 1 - i) % 256
  {
    PowPositive(256, k - 1 - i);
    if i < k - 1 {
      BigEndianDigits(n / 256, k - 1, i);
      PowPositive(256, k - 2 - i);
      DivideTwice(n, 256, Pow(256, k - 2 - i));
    }
  }

  lemma DivideTwice(n: nat, a: nat, b: nat)
    requires a > 0 && b > 0
    ensures a * b > 0 && n / a / b == n / (a * b)
  {
    MulMonotone(1, a, b);
    var q, p := n / a, n / a / b;
    QuotientNatural(n, a);
    QuotientUnique(n, a, q);
    QuotientNatural(q, b);
    QuotientUnique(q, b, p);
    TwoSteps(n, a, b, q, p);
    QuotientUnique(n, a * b, p);
  }

  lemma TwoSteps(n: nat, a: nat, b: nat, q: nat, p: nat)
    requires q * a <= n < q * a + a && p * b <= q < p * b + b
    ensures p * (a * b) <= n < p * (a * b) + a * b
  {
    MulMonotone(p * b, q, a);
    MulMonotone(q + 1, p * b + b, a);
    assert p * b * a == p * (a * b) && (p * b + b) * a == p * (a * b) + a * b && (q + 1) * a == q * a + a;
  }

  /** Numbers of variable length have their least significant seven bits first, and the high bit of every
      byte but the last. */
  lemma {:induction false} VarDigits(n: nat, i: nat)
    requires i < |EncVarU(n)|
    ensures Pow(128, i) > 0
    ensures EncVarU(n)[i] == n / Pow(128, i) % 128 + if i == |EncVarU(n)| - 1 then 0 else 128
    ensures i == |EncVarU(n)| - 1 ==> n / Pow(128, i) < 128
    ensures 0 < i == |EncVarU(n)| - 1 ==> n / Pow(128, i) > 0
  {
    PowPositive(128, i);
    if n >= 128 && i > 0 {
      VarDigits(n / 128, i - 1);
      PowPositive(128, i - 1);
      DivideTwice(n, 128, Pow(128, i - 1));
    }
  }

  lemma SmallNumbers(n: byte)
    ensures EncU16(n) == [0, n] && EncU32(n) == [0, 0, 0, n] && EncU64(n) == Eight(n)
  {
    Zeros(1);
    Zeros(3);
    Zeros(7);
  }

  /** Amounts near zero take a byte: even for those from zero on, odd below. */
  lemma SmallAmounts(v: i64)
    requires -64 <= v < 64
    ensures EncVarI64(v) == [if v >= 0 then 2 * v else -2 * v - 1]
  {
  }

  lemma {:induction false} Zeros(k: nat)
    ensures EncBE(0, k) == seq(k, i => 0)
  {
    if k > 0 {
      Zeros(k - 1);
    }
  }

  // ----- records -----

  /** The number in eight bytes. */
  function Eight(n: byte): seq<byte> {
    [0, 0, 0, 0, 0, 0, 0, n]
  }

  /** Bytes behind their length. */
  function Sized(n: byte, s: seq<byte>): seq<byte> {
    [0, 0, 0, n] + s
  }

  function Front(kind: byte): seq<byte> {
    [0, 0] + ([kind] + ([0, 0, 0, 1] + (Eight(2) + [6])))
  }

  lemma FrontBytes(tx: TxVariant)
    requires tx.base.nonce == 1 && tx.base.expiry == 2 && tx.base.fee == 3
    ensures EncHeader(tx) == Front(TypeTag(tx))
  {
    hide EncU16, EncU32, EncU64, EncVarI64;
    SmallNumbers(0);
    SmallNumbers(1);
    SmallNumbers(2);
    SmallAmounts(3);
  }

  /** Version, kind, nonce 1, expiry 2 and fee 3, what is the kind's own, and the signatures; the identifier
      is the hash of the network and of all but the signatures. */
  lemma TxBytes(o: Oracles, tx: TxVariant, k: PublicKey, g: Signature)
    requires tx.base.nonce == 1 && tx.base.expiry == 2 && tx.base.fee == 3
    ensures tx.base.sigs == [] ==> EncTx(tx) == Front(TypeTag(tx)) + EncPayload(tx) + [0]
    ensures tx.base.sigs == [SigPair(k, g)] ==> EncTx(tx) == Front(TypeTag(tx)) + EncPayload(tx) + ([1] + (k + g))
    ensures TxIdOf(o, tx) == o.sha([0, 0] + (Front(TypeTag(tx)) + EncPayload(tx)))
  {
    hide EncHeader, Front, EncPayload, Enc8;
    FrontBytes(tx);
    NoneListed(EncSigPair);
    OneListed(SigPair(k, g), EncSigPair);
  }

  lemma NoneListed<T>(enc: T -> seq<byte>)
    ensures Enc8([], enc) == [0] && Enc16([], enc) == [0, 0] && Enc32([], enc) == [0, 0, 0, 0]
  {
    hide EncU16, EncU32;
    SmallNumbers(0);
    assert EncAll([], enc) == [];
    assert [0] + [] == [0] && [0, 0] + [] == [0, 0] && [0, 0, 0, 0] + [] == [0, 0, 0, 0];
  }

  lemma OneEncoded<T>(x: T, enc: T -> seq<byte>)
    ensures EncAll([x], enc) == enc(x)
  {
    assert [x][1..] == [] && EncAll([], enc) == [];
    assert EncAll([x], enc) == enc(x) + [];
  }

  lemma OneListed<T>(x: T, enc: T -> seq<byte>)
    ensures Enc8([x], enc) == [1] + enc(x) && Enc16([x], enc) == [0, 1] + enc(x)
    ensures Enc32([x], enc) == [0, 0, 0, 1] + enc(x)
  {
    hide EncU16, EncU32, EncAll;
    SmallNumbers(1);
    OneEncoded(x, enc);
  }

  /** A change of the owner: the minter's key, then the wallet. */
  lemma OwnerBytes(base: Tx, k: PublicKey)
    ensures TypeTag(OwnerTx(base, k, 4)) == 0 && EncPayload(OwnerTx(base, k, 4)) == k + Eight(4)
  {
    hide EncU64;
    SmallNumbers(4);
  }

  lemma SizedBytes(n: byte, s: seq<byte>)
    requires |s| == n
    ensures EncBytes(s) == Sized(n, s)
  {
    hide EncU32;
    SmallNumbers(n);
  }

  /** A mint: target, amount, attachment and its name. */
  lemma MintBytes(base: Tx)
    ensures TypeTag(MintTx(base, 4, 5, [9], [])) == 1
    ensures EncPayload(MintTx(base, 4, 5, [9], [])) == Eight(4) + ([10] + (Sized(1, [9]) + Sized(0, [])))
  {
    hide EncU64, EncBytes, EncVarI64, Sized;
    SmallNumbers(4);
    SmallAmounts(5);
    SizedBytes(1, [9]);
    SizedBytes(0, []);
  }

  /** Permissions: threshold and keys. */
  lemma PermissionsBytes(k: PublicKey)
    ensures EncPermissions(Permissions(2, [k])) == [2] + ([1] + k)
  {
    hide Enc8;
    OneListed(k, EncKey);
  }

  function Sample(k: PublicKey): Account {
    Account(5, -6, [7, 8], Permissions(2, [k]), true)
  }

  /** Account: identifier, balance, script, permissions, and whether it is destroyed. */
  lemma AccountBytes(k: PublicKey)
    ensures EncAccount(Sample(k)) == Eight(5) + ([11] + (Sized(2, [7, 8]) + ([2] + ([1] + k) + [1])))
  {
    hide EncU64, EncBytes, EncVarI64, EncPermissions, Sized;
    SmallNumbers(5);
    SmallAmounts(-6);
    SizedBytes(2, [7, 8]);
    PermissionsBytes(k);
  }

  lemma CreateBytes(base: Tx, a: Account)
    ensures TypeTag(CreateAccountTx(base, 4, a)) == 2
    ensures EncPayload(CreateAccountTx(base, 4, a)) == Eight(4) + EncAccount(a)
  {
    hide EncU64, EncAccount;
    SmallNumbers(4);
  }

  /** An update: the account, then script and permissions, each behind a byte that says if it is there. */
  lemma UpdateBytes(base: Tx, k: PublicKey)
    ensures TypeTag(UpdateAccountTx(base, 4, None, None)) == 3
    ensures EncPayload(UpdateAccountTx(base, 4, Some([7]), None)) == Eight(4) + ([1] + Sized(1, [7]) + [0])
    ensures EncPayload(UpdateAccountTx(base, 4, None, Some(Permissions(2, [k]))))
         == Eight(4) + ([0] + ([1] + ([2] + ([1] + k))))
  {
    hide EncU64, EncBytes, EncPermissions, Sized;
    SmallNumbers(4);
    SizedBytes(1, [7]);
    PermissionsBytes(k);
  }

  /** A transfer: sender, function, arguments, amount, memo. */
  lemma TransferBytes(base: Tx)
    ensures TypeTag(TransferTx(base, 4, 17, [8, 9], -5, [7])) == 4
    ensures EncPayload(TransferTx(base, 4, 17, [8, 9], -5, [7]))
         == Eight(4) + ([17] + (Sized(2, [8, 9]) + ([9] + Sized(1, [7]))))
  {
    hide EncU64, EncBytes, EncVarI64, Sized;
    SmallNumbers(4);
    SmallAmounts(-5);
    SizedBytes(2, [8, 9]);
    SizedBytes(1, [7]);
  }

  // ----- what is refused -----

  /** A transaction begins with the version and its kind, a block with the version, a log entry with its
      kind; anything else is refused. */
  lemma TxBegins(s: seq<byte>)
    requires TakeTx(s).Parsed?
    ensures |s| >= 3 && s[..3] == [0, 0, TypeTag(TakeTx(s).value)]
  {
    hide TakeSigs, TakeU32, TakeU64, TakeAsset, TakePayload;
    TwoBytes(s);
    var (head, t) := (TakeHeader(s).value, TakeHeader(s).rest);
    KindBytes(t, head.0, head.1);
  }

  lemma KindBytes(s: seq<byte>, tag: byte, base: Tx)
    requires tag <= 4 && TakePayload(s, tag, base).Parsed?
    ensures TypeTag(TakePayload(s, tag, base).value) == tag
  {
    hide TakeU64, TakeAsset, TakeBytes, TakeAccount, TakeOptional, TakeKey, TakeU8;
  }

  lemma TwoBytes(s: seq<byte>)
    requires TakeU16(s).Parsed? && TakeU16(s).value == 0
    ensures |s| >= 2 && s[..2] == [0, 0] && TakeU16(s).rest == s[2..]
  {
    var b := s[..2];
    assert b[..1] == [b[0]] && b[..1][..0] == [];
    assert DecBE(b[..1]) == b[0];
  }

  lemma BlockBegins(s: seq<byte>)
    requires TakeBlock(s).Parsed?
    ensures |s| >= 2 && s[..2] == [0, 0]
  {
    hide TakeU64, TakeDigest, TakeSigPair, TakeAsset, TakeReceipts;
    TwoBytes(s);
  }

  lemma EntryBegins(s: seq<byte>)
    requires TakeLogEntry(s).Parsed?
    ensures s != [] && s[0] == if TakeLogEntry(s).value.Transfer? then 0 else 1
  {
    hide TakeU64, TakeAsset;
  }

  // ----- logs and blocks -----

  lemma LogBytes()
    ensures EncLogEntry(Transfer(4, 5)) == [0] + (Eight(4) + [10])
    ensures EncLogEntry(Destroy(4)) == [1] + Eight(4)
  {
    hide EncU64, EncVarI64;
    SmallNumbers(4);
    SmallAmounts(5);
  }

  /** A receipt: its transaction, and its log behind a count of two bytes. */
  lemma ReceiptBytes(tx: TxVariant)
    ensures EncReceipt(Receipt(tx, [])) == EncTx(tx) + [0, 0]
    ensures EncReceipt(Receipt(tx, [Destroy(4)])) == EncTx(tx) + ([0, 1] + ([1] + Eight(4)))
  {
    hide EncTx, EncLogEntry, Enc16;
    LogBytes();
    NoneListed(EncLogEntry);
    OneListed(Destroy(4), EncLogEntry);
  }

  /** A block: version, previous hash, height, time and receipt root; signer, rewards, and the receipts
      behind a count of four bytes. */
  lemma BlockBytes(prev: Digest, root: Digest, k: PublicKey, g: Signature, r: Receipt)
    ensures var header := BlockHeader(prev, 4, 5, root);
            EncBlock(Block(header, Some(SigPair(k, g)), 6, [r]))
            == [0, 0] + (prev + (Eight(4) + (Eight(5) + root))) + (k + g + ([12] + ([0, 0, 0, 1] + EncReceipt(r))))
  {
    hide EncU64, EncU16, EncVarI64, Enc32, EncReceipt;
    SmallNumbers(0);
    SmallNumbers(4);
    SmallNumbers(5);
    SmallAmounts(6);
    OneListed(r, EncReceipt);
  }

  // ----- scripts -----

  lemma FirstEncoded(op: OpFrame, rest: seq<OpFrame>)
    ensures EncodeOps([op] + rest) == EncodeOp(op) + EncodeOps(rest)
  {
    hide EncodeOp;
    assert ([op] + rest)[1..] == rest;
  }

  lemma PlainBytes()
    ensures EncodeOp(OpCheckPerms) == [0x50] && EncodeOp(OpCheckPermsFastFail) == [0x51]
    ensures EncodeOp(OpTransfer) == [0x10] && EncodeOp(OpTrue) == [0x21]
    ensures EncodeOp(OpAccountId(0)) == [0x22] + Eight(0)
  {
    hide EncU64;
    SmallNumbers(0);
  }

  lemma DefinitionBytes()
    ensures EncodeOp(OpDefine([])) == [0x00, 0]
    ensures EncodeOp(OpDefine([ArgAccountId, ArgAsset])) == [0x00, 2, 0x00, 0x01]
  {
    var args := [ArgAccountId, ArgAsset];
    assert args[1..] == [ArgAsset] && args[1..][1..] == [] && ArgTags(args) == [0x00, 0x01];
  }

  function Checking(): seq<byte> {
    [0x00, 0] + ([0x22] + Eight(0) + [0x50])
  }

  function Sending(): seq<byte> {
    [0x00, 2, 0x00, 0x01] + ([0x22] + Eight(0) + ([0x51] + ([0x10] + [0x21])))
  }

  lemma CheckingBytes()
    ensures EncodeOps(Frames(GenesisFns()[0])) == Checking() && |Checking()| == 12
  {
    hide EncodeOp, EncodeOps;
    assert Frames(GenesisFns()[0]) == [OpDefine([])] + ([OpAccountId(0)] + [OpCheckPerms]);
    FirstEncoded(OpDefine([]), [OpAccountId(0)] + [OpCheckPerms]);
    FirstEncoded(OpAccountId(0), [OpCheckPerms]);
    EncodeOne(OpCheckPerms);
    PlainBytes();
    DefinitionBytes();
  }

  lemma SendingBytes()
    ensures EncodeOps(Frames(GenesisFns()[1])) == Sending() && |Sending()| == 16
  {
    hide EncodeOp, EncodeOps;
    var define, account, check := OpDefine([ArgAccountId, ArgAsset]), OpAccountId(0), OpCheckPermsFastFail;
    assert Frames(GenesisFns()[1]) == [define] + ([account] + ([check] + ([OpTransfer] + [OpTrue])));
    FirstEncoded(define, [account] + ([check] + ([OpTransfer] + [OpTrue])));
    FirstEncoded(account, [check] + ([OpTransfer] + [OpTrue]));
    FirstEncoded(check, [OpTransfer] + [OpTrue]);
    FirstEncoded(OpTransfer, [OpTrue]);
    EncodeOne(OpTrue);
    PlainBytes();
    DefinitionBytes();
  }

  lemma TwoFunctions(f: FnDef, g: FnDef)
    ensures AllFrames([f, g]) == Frames(f) + Frames(g) && AllFrames([f]) == Frames(f) && AllFrames([]) == []
  {
    hide Frames;
    assert [f, g][1..] == [g] && [g][1..] == [] && [f][1..] == [];
    assert AllFrames([]) == [];
    assert AllFrames([g]) == Frames(g) + [] && AllFrames([f]) == Frames(f) + [];
  }

  lemma GenesisBodies()
    ensures Body(GenesisFns()[..0]) == [] && Body(GenesisFns()[..1]) == Checking()
    ensures Body(GenesisFns()) == Checking() + Sending() && |Checking()| == 12 && |Sending()| == 16
  {
    hide EncodeOps, Checking, Sending, Frames, AllFrames;
    var fns := GenesisFns();
    TwoFunctions(fns[0], fns[1]);
    CheckingBytes();
    SendingBytes();
    EncodeOpsAppend(Frames(fns[0]), Frames(fns[1]));
    NothingEncoded();
    assert fns[..1] == [fns[0]] && fns[..0] == [] && fns == [fns[0], fns[1]];
  }

  lemma NothingEncoded()
    ensures EncodeOps([]) == []
  {
  }

  lemma GenesisTable()
    ensures Table(GenesisFns(), 11, 2) == [0, 0, 0, 0, 11] + [1, 0, 0, 0, 23]
  {
    hide Body, EncU32, Checking, Sending;
    GenesisBodies();
    SmallNumbers(11);
    SmallNumbers(23);
    var fns := GenesisFns();
    assert Table(fns, 11, 0) == [];
    assert Table(fns, 11, 1) == [0, 0, 0, 0, 11];
    assert Table(fns, 11, 2) == Table(fns, 11, 1) + Entry(1, 11, 12);
  }

  /** The script the owner's wallet is born with: the number of functions, two identifiers with their
      pointers, and both bodies. */
  lemma GenesisScriptBytes()
    ensures BuildScript(GenesisFns()) == Ok([2] + ([0, 0, 0, 0, 11] + [1, 0, 0, 0, 23]) + (Checking() + Sending()))
  {
    hide Body, Table, Checking, Sending, GenesisFns;
    GenesisBodies();
    GenesisTable();
    TwoAtGenesis();
  }

  lemma TwoAtGenesis()
    ensures |GenesisFns()| == 2
  {
  }
}
