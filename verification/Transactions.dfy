// The five transaction kinds, their byte form and their identifiers: tx/mod.rs.

module Transactions {
  import opened Wrappers
  import opened Numbers
  import opened Assets
  import opened Serializer
  import opened Crypto
  import opened Accounts

  /** The main network's identifier, hashed in front of every transaction. */
  const CHAIN_ID: seq<byte> := [0x00, 0x00]

  /** What every transaction carries. */
  datatype Tx = Tx(nonce: u32, expiry: u64, fee: Asset, sigs: seq<SigPair>)

  datatype TxVariant =
    | OwnerTx(base: Tx, minter: PublicKey, wallet: AccountId)
    | MintTx(base: Tx, to: AccountId, amount: Asset, attachment: seq<byte>, attachmentName: Utf8)
    | CreateAccountTx(base: Tx, creator: AccountId, account: Account)
    | UpdateAccountTx(base: Tx, accountId: AccountId, newScript: Option<seq<byte>>,
                      newPermissions: Option<Permissions>)
    | TransferTx(base: Tx, from: AccountId, callFn: byte, args: seq<byte>, amount: Asset, memo: seq<byte>)

  // ----- text in transactions -----

  predicate Continuation(b: byte) {
    0x80 <= b <= 0xBF
  }

  /** Well-formed UTF-8 byte sequences (Unicode Standard, section 3.9, table 3-7). */
  predicate IsUtf8(s: seq<byte>) {
    if s == [] then true
    else if s[0] <= 0x7F then IsUtf8(s[1..])
    else if |s| < 2 || !Continuation(s[1]) then false
    else if 0xC2 <= s[0] <= 0xDF then IsUtf8(s[2..])
    else if |s| < 3 || !Continuation(s[2]) then false
    else if 0xE0 <= s[0] <= 0xEF then
      (s[0] == 0xE0 ==> s[1] >= 0xA0) && (s[0] == 0xED ==> s[1] <= 0x9F) && IsUtf8(s[3..])
    else if |s| < 4 || !Continuation(s[3]) then false
    else
      && 0xF0 <= s[0] <= 0xF4
      && (s[0] == 0xF0 ==> s[1] >= 0x90) && (s[0] == 0xF4 ==> s[1] <= 0x8F) && IsUtf8(s[4..])
  }

  type Utf8 = s: seq<byte> | IsUtf8(s)

  // ----- encoding -----

  function TypeTag(tx: TxVariant): byte {
    match tx
    case OwnerTx(_, _, _) => 0x00
    case MintTx(_, _, _, _, _) => 0x01
    case CreateAccountTx(_, _, _) => 0x02
    case UpdateAccountTx(_, _, _, _) => 0x03
    case TransferTx(_, _, _, _, _, _) => 0x04
  }

  /** Version, type tag and the common header. */
  function EncHeader(tx: TxVariant): seq<byte> {
    EncU16(0) + ([TypeTag(tx)] + (EncU32(tx.base.nonce) + (EncU64(tx.base.expiry) + EncVarI64(tx.base.fee))))
  }

  function EncOptional<T>(o: Option<T>, enc: T -> seq<byte>): seq<byte> {
    match o
    case None => [0x00]
    case Some(x) => [0x01] + enc(x)
  }

  function EncPayload(tx: TxVariant): seq<byte> {
    match tx
    case OwnerTx(_, minter, wallet) => minter + EncU64(wallet)
    case MintTx(_, to, amount, attachment, name) =>
      EncU64(to) + (EncVarI64(amount) + (EncBytes(attachment) + EncBytes(name)))
    case CreateAccountTx(_, creator, account) => EncU64(creator) + EncAccount(account)
    case UpdateAccountTx(_, id, script, perms) =>
      EncU64(id) + (EncOptional(script, EncBytes) + EncOptional(perms, EncPermissions))
    case TransferTx(_, from, callFn, args, amount, memo) =>
      EncU64(from) + ([callFn] + (EncBytes(args) + (EncVarI64(amount) + EncBytes(memo))))
  }

  function EncUnsigned(tx: TxVariant): seq<byte> {
    EncHeader(tx) + EncPayload(tx)
  }

  /** The number of signatures is cast to one byte. */
  function EncSigs(sigs: seq<SigPair>): seq<byte> {
    Enc8(sigs, EncSigPair)
  }

  function EncTx(tx: TxVariant): seq<byte> {
    EncUnsigned(tx) + EncSigs(tx.base.sigs)
  }

  type TxId = Digest

  /** The identifier leaves the signatures out. */
  function TxIdOf(o: Oracles, tx: TxVariant): TxId {
    o.sha(CHAIN_ID + EncUnsigned(tx))
  }

  // ----- decoding -----

  function TakeHeader(s0: seq<byte>): Parsed<(byte, Tx)> {
    var (version, s) :- TakeU16(s0);
    if version != 0 then NotParsed else
    var (tag, t) :- TakeU8(s);
    if tag > 0x04 then NotParsed else
      var (nonce, u) :- TakeU32(t);
      var (expiry, v) :- TakeU64(u);
      var (fee, w) :- TakeAsset(v);
      Parsed((tag, Tx(nonce, expiry, fee, [])), w)
  }

  function TakeOptional<T>(s: seq<byte>, take: seq<byte> -> Parsed<T>): Parsed<Option<T>> {
    var (tag, t) :- TakeU8(s);
    if tag == 0x01 then
      var (x, u) :- take(t);
      Parsed(Some(x), u)
    else if tag == 0x00 then Parsed(None, t)
    else NotParsed
  }

  function TakeOwner(s: seq<byte>, base: Tx): Parsed<TxVariant> {
    var (minter, t) :- TakeKey(s);
    var (wallet, u) :- TakeU64(t);
    Parsed(OwnerTx(base, minter, wallet), u)
  }

  function TakeMint(s: seq<byte>, base: Tx): Parsed<TxVariant> {
    var (to, t) :- TakeU64(s);
    var (amount, u) :- TakeAsset(t);
    var (attachment, v) :- TakeBytes(u);
    var (name, w) :- TakeBytes(v);
    if IsUtf8(name) then Parsed(MintTx(base, to, amount, attachment, name), w) else NotParsed
  }

  function TakeCreateAccount(s: seq<byte>, base: Tx): Parsed<TxVariant> {
    var (creator, t) :- TakeU64(s);
    var (account, u) :- TakeAccount(t);
    Parsed(CreateAccountTx(base, creator, account), u)
  }

  function TakeUpdateAccount(s: seq<byte>, base: Tx): Parsed<TxVariant> {
    var (id, t) :- TakeU64(s);
    var (script, u) :- TakeOptional(t, TakeBytes);
    var (perms, v) :- TakeOptional(u, TakePermissions);
    Parsed(UpdateAccountTx(base, id, script, perms), v)
  }

  function TakeTransfer(s: seq<byte>, base: Tx): Parsed<TxVariant> {
    var (from, t) :- TakeU64(s);
    var (callFn, u) :- TakeU8(t);
    var (args, v) :- TakeBytes(u);
    var (amount, w) :- TakeAsset(v);
    var (memo, x) :- TakeBytes(w);
    Parsed(TransferTx(base, from, callFn, args, amount, memo), x)
  }

  function TakePayload(s: seq<byte>, tag: byte, base: Tx): Parsed<TxVariant> {
    match tag
    case 0x00 => TakeOwner(s, base)
    case 0x01 => TakeMint(s, base)
    case 0x02 => TakeCreateAccount(s, base)
    case 0x03 => TakeUpdateAccount(s, base)
    case _ => TakeTransfer(s, base)
  }

  function WithBase(tx: TxVariant, base: Tx): TxVariant {
    tx.(base := base)
  }

  function WithSigs(tx: TxVariant, sigs: seq<SigPair>): TxVariant {
    WithBase(tx, tx.base.(sigs := sigs))
  }

  function TakeSigs(s: seq<byte>): Parsed<seq<SigPair>> {
    Take8(s, TakeSigPair)
  }

  function TakeTx(s: seq<byte>): Parsed<TxVariant> {
    var (header, t) :- TakeHeader(s);
    var (tx, u) :- TakePayload(t, header.0, header.1);
    var (sigs, v) :- TakeSigs(u);
    Parsed(WithSigs(tx, sigs), v)
  }

  // ----- round trip -----

  predicate Short(b: seq<byte>) {
    |b| < 0x1_0000_0000
  }

  /** Every vector of the transaction fits its length prefix. */
  predicate TxFits(tx: TxVariant) {
    && |tx.base.sigs| < 256
    && match tx
       case OwnerTx(_, _, _) => true
       case MintTx(_, _, _, attachment, name) => Short(attachment) && Short(name)
       case CreateAccountTx(_, _, account) => AccountFits(account)
       case UpdateAccountTx(_, _, script, perms) =>
         (script.Some? ==> Short(script.value)) && (perms.Some? ==> PermissionsFit(perms.value))
       case TransferTx(_, _, _, args, _, memo) => Short(args) && Short(memo)
  }

  lemma TakeHeaderOf(tx: TxVariant, rest: seq<byte>)
    ensures TakeHeader(EncHeader(tx) + rest) == Parsed((TypeTag(tx), tx.base.(sigs := [])), rest)
  {
    var s3 := EncVarI64(tx.base.fee) + rest;
    var s2 := EncU64(tx.base.expiry) + s3;
    var s1 := EncU32(tx.base.nonce) + s2;
    var s0 := [TypeTag(tx)] + s1;
    assert EncHeader(tx) + rest == EncU16(0) + s0;
    TakeU16Of(0, s0);
    TakeU8Of(TypeTag(tx), s1);
    TakeU32Of(tx.base.nonce, s2);
    TakeU64Of(tx.base.expiry, s3);
    TakeAssetOf(tx.base.fee, rest);
  }

  lemma TakeOptionalOf<T>(o: Option<T>, enc: T -> seq<byte>, take: seq<byte> -> Parsed<T>, rest: seq<byte>)
    requires o.Some? ==> take(enc(o.value) + rest) == Parsed(o.value, rest)
    ensures TakeOptional(EncOptional(o, enc) + rest, take) == Parsed(o, rest)
  {
    match o
    case None => TakeU8Of(0x00, rest);
    case Some(x) =>
      assert EncOptional(o, enc) + rest == [0x01] + (enc(x) + rest);
      TakeU8Of(0x01, enc(x) + rest);
  }

  lemma TakeMintOf(tx: TxVariant, base: Tx, rest: seq<byte>)
    requires tx.MintTx? && TxFits(tx)
    ensures TakeMint(EncPayload(tx) + rest, base) == Parsed(WithBase(tx, base), rest)
  {
    hide EncU64, EncVarI64, EncBytes, TakeU64, TakeAsset, TakeBytes, IsUtf8;
    var s3 := EncBytes(tx.attachmentName) + rest;
    var s2 := EncBytes(tx.attachment) + s3;
    var s1 := EncVarI64(tx.amount) + s2;
    assert EncPayload(tx) + rest == EncU64(tx.to) + s1;
    TakeU64Of(tx.to, s1);
    TakeAssetOf(tx.amount, s2);
    TakeBytesOf(tx.attachment, s3);
    TakeBytesOf(tx.attachmentName, rest);
  }

  lemma TakeUpdateAccountOf(tx: TxVariant, base: Tx, rest: seq<byte>)
    requires tx.UpdateAccountTx? && TxFits(tx)
    ensures TakeUpdateAccount(EncPayload(tx) + rest, base) == Parsed(WithBase(tx, base), rest)
  {
    var s2 := EncOptional(tx.newPermissions, EncPermissions) + rest;
    var s1 := EncOptional(tx.newScript, EncBytes) + s2;
    assert EncPayload(tx) + rest == EncU64(tx.accountId) + s1;
    TakeU64Of(tx.accountId, s1);
    if tx.newScript.Some? {
      TakeBytesOf(tx.newScript.value, s2);
    }
    if tx.newPermissions.Some? {
      TakePermissionsOf(tx.newPermissions.value, rest);
    }
    TakeOptionalOf(tx.newScript, EncBytes, TakeBytes, s2);
    TakeOptionalOf(tx.newPermissions, EncPermissions, TakePermissions, rest);
  }

  lemma TakeTransferOf(tx: TxVariant, base: Tx, rest: seq<byte>)
    requires tx.TransferTx? && TxFits(tx)
    ensures TakeTransfer(EncPayload(tx) + rest, base) == Parsed(WithBase(tx, base), rest)
  {
    hide EncU64, EncVarI64, EncBytes, TakeU64, TakeAsset, TakeBytes;
    var s4 := EncBytes(tx.memo) + rest;
    var s3 := EncVarI64(tx.amount) + s4;
    var s2 := EncBytes(tx.args) + s3;
    var s1 := [tx.callFn] + s2;
    assert EncPayload(tx) + rest == EncU64(tx.from) + s1;
    TakeU64Of(tx.from, s1);
    TakeU8Of(tx.callFn, s2);
    TakeBytesOf(tx.args, s3);
    TakeAssetOf(tx.amount, s4);
    TakeBytesOf(tx.memo, rest);
  }

  lemma TakeOwnerOf(tx: TxVariant, base: Tx, rest: seq<byte>)
    requires tx.OwnerTx?
    ensures TakeOwner(EncPayload(tx) + rest, base) == Parsed(WithBase(tx, base), rest)
  {
    var s1 := EncU64(tx.wallet) + rest;
    assert EncPayload(tx) + rest == tx.minter + s1;
    TakeNOf(tx.minter, s1);
    TakeU64Of(tx.wallet, rest);
  }

  lemma TakeCreateAccountOf(tx: TxVariant, base: Tx, rest: seq<byte>)
    requires tx.CreateAccountTx? && TxFits(tx)
    ensures TakeCreateAccount(EncPayload(tx) + rest, base) == Parsed(WithBase(tx, base), rest)
  {
    var s1 := EncAccount(tx.account) + rest;
    assert EncPayload(tx) + rest == EncU64(tx.creator) + s1;
    TakeU64Of(tx.creator, s1);
    TakeAccountOf(tx.account, rest);
  }

  lemma TakePayloadOf(tx: TxVariant, base: Tx, rest: seq<byte>)
    requires TxFits(tx)
    ensures TakePayload(EncPayload(tx) + rest, TypeTag(tx), base) == Parsed(WithBase(tx, base), rest)
  {
    match tx
    case OwnerTx(_, _, _) => TakeOwnerOf(tx, base, rest);
    case MintTx(_, _, _, _, _) => TakeMintOf(tx, base, rest);
    case CreateAccountTx(_, _, _) => TakeCreateAccountOf(tx, base, rest);
    case UpdateAccountTx(_, _, _, _) => TakeUpdateAccountOf(tx, base, rest);
    case TransferTx(_, _, _, _, _, _) => TakeTransferOf(tx, base, rest);
  }

  lemma TakeSigsOf(sigs: seq<SigPair>, rest: seq<byte>)
    requires |sigs| < 256
    ensures TakeSigs(EncSigs(sigs) + rest) == Parsed(sigs, rest)
  {
    forall i, r | 0 <= i < |sigs| ensures TakeSigPair(EncSigPair(sigs[i]) + r) == Parsed(sigs[i], r) {
      TakeSigPairOf(sigs[i], r);
    }
    Take8Of(sigs, EncSigPair, TakeSigPair, rest);
  }

  lemma WithSigsRestored(tx: TxVariant)
    ensures WithSigs(WithBase(tx, tx.base.(sigs := [])), tx.base.sigs) == tx
  {
  }

  lemma TakeTxOf(tx: TxVariant, rest: seq<byte>)
    requires TxFits(tx)
    ensures TakeTx(EncTx(tx) + rest) == Parsed(tx, rest)
  {
    hide EncHeader, EncPayload, EncSigs, TakeHeader, TakePayload, TakeSigs;
    var base := tx.base.(sigs := []);
    var s2 := EncSigs(tx.base.sigs) + rest;
    var s1 := EncPayload(tx) + s2;
    assert EncTx(tx) + rest == EncHeader(tx) + s1;
    assert TakeHeader(EncTx(tx) + rest) == Parsed((TypeTag(tx), base), s1) by {
      TakeHeaderOf(tx, s1);
    }
    assert TakePayload(s1, TypeTag(tx), base) == Parsed(WithBase(tx, base), s2) by {
      TakePayloadOf(tx, base, s2);
    }
    TakeSigsOf(tx.base.sigs, rest);
    WithSigsRestored(tx);
  }

  /** The bytes behind the identifier name the transaction up to its signatures. */
  lemma UnsignedInjective(a: TxVariant, b: TxVariant)
    requires TxFits(a) && TxFits(b) && EncUnsigned(a) == EncUnsigned(b)
    ensures WithSigs(a, []) == WithSigs(b, [])
  {
    TakeHeaderOf(a, EncPayload(a));
    TakeHeaderOf(b, EncPayload(b));
    assert EncPayload(a) + [] == EncPayload(a) && EncPayload(b) + [] == EncPayload(b);
    TakePayloadOf(a, a.base.(sigs := []), []);
    TakePayloadOf(b, b.base.(sigs := []), []);
  }
}
