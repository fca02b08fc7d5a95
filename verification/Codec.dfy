// Writing to a buffer and reading from a cursor, type by type: the `serialize` and `deserialize`
// methods of account.rs, tx/mod.rs, blockchain/receipt.rs and blockchain/block.rs, proved against
// the byte forms that the round trips are about.

module Codecs {
  import opened Wrappers
  import opened Numbers
  import opened Assets
  import opened Serializer
  import opened Crypto
  import opened Accounts
  import opened Transactions
  import opened Blocks

  // ----- lists -----

  lemma {:induction false} EncAllSnoc<T>(xs: seq<T>, i: nat, enc: T -> seq<byte>)
    requires i < |xs|
    ensures EncAll(xs[..i + 1], enc) == EncAll(xs[..i], enc) + enc(xs[i])
  {
    if i == 0 {
      assert xs[..1] == [xs[0]] && xs[..0] == [];
      assert enc(xs[0]) + EncAll([], enc) == enc(xs[0]);
      assert [] + enc(xs[0]) == enc(xs[0]);
    } else {
      assert xs[..i + 1][1..] == xs[1..][..i] && xs[..i][1..] == xs[1..][..i - 1];
      EncAllSnoc(xs[1..], i - 1, enc);
    }
  }

  lemma EncAllEnds<T>(xs: seq<T>, enc: T -> seq<byte>)
    ensures EncAll(xs[..0], enc) == [] && xs[..|xs|] == xs
  {
  }

  /** A list of which `xs` has been read and `p` is what reading the others gives. */
  function Prepend<T>(xs: seq<T>, p: Parsed<seq<T>>): Parsed<seq<T>> {
    if p.NotParsed? then NotParsed else Parsed(xs + p.value, p.rest)
  }

  lemma TakeAllStart<T>(s: seq<byte>, n: nat, take: seq<byte> -> Parsed<T>)
    ensures Prepend([], TakeAll(s, n, take)) == TakeAll(s, n, take)
  {
    var p := TakeAll(s, n, take);
    if p.Parsed? {
      assert [] + p.value == p.value;
    }
  }

  lemma TakeAllStep<T>(xs: seq<T>, s: seq<byte>, n: nat, take: seq<byte> -> Parsed<T>)
    requires n > 0
    ensures Prepend(xs, TakeAll(s, n, take))
         == if take(s).Parsed? then Prepend(xs + [take(s).value], TakeAll(take(s).rest, n - 1, take)) else NotParsed
  {
    if take(s).Parsed? {
      var p := TakeAll(take(s).rest, n - 1, take);
      if p.Parsed? {
        assert xs + ([take(s).value] + p.value) == xs + [take(s).value] + p.value;
      }
    }
  }

  lemma TakeAllEnd<T>(xs: seq<T>, s: seq<byte>, take: seq<byte> -> Parsed<T>)
    ensures Prepend(xs, TakeAll(s, 0, take)) == Parsed(xs, s)
  {
    assert xs + [] == xs;
  }

  // ----- writing -----

  method PushSigPair(buf: Buffer, p: SigPair)
    modifies buf
    ensures buf.data == old(buf.data) + EncSigPair(p)
  {
    buf.Extend(p.pubKey);
    buf.Extend(p.signature);
  }

  method SerializePermissions(p: Permissions, buf: Buffer)
    modifies buf
    ensures buf.data == old(buf.data) + EncPermissions(p)
  {
    buf.Push(p.threshold);
    buf.Push(|p.keys| % 0x100);
    EncAllEnds(p.keys, EncKey);
    for i := 0 to |p.keys|
      invariant buf.data == old(buf.data) + ([p.threshold] + ([|p.keys| % 0x100] + EncAll(p.keys[..i], EncKey)))
    {
      EncAllSnoc(p.keys, i, EncKey);
      buf.Extend(p.keys[i]);
    }
  }

  method SerializeAccount(a: Account, buf: Buffer)
    modifies buf
    ensures buf.data == old(buf.data) + EncAccount(a)
  {
    hide EncU64, EncVarI64, EncBytes, EncPermissions;
    buf.Extend(EncU64(a.id));
    buf.PushVarI64(a.balance);
    buf.PushBytes(a.script);
    SerializePermissions(a.permissions, buf);
    buf.Push(if a.destroyed then 1 else 0);
  }

  method SerializeHeader(tx: TxVariant, buf: Buffer)
    modifies buf
    ensures buf.data == old(buf.data) + EncHeader(tx)
  {
    hide EncU16, EncU32, EncU64, EncVarI64;
    buf.Extend(EncU16(0));
    buf.Push(TypeTag(tx));
    buf.Extend(EncU32(tx.base.nonce));
    buf.Extend(EncU64(tx.base.expiry));
    buf.PushVarI64(tx.base.fee);
  }

  method SerializeNewScript(script: Option<seq<byte>>, buf: Buffer)
    modifies buf
    ensures buf.data == old(buf.data) + EncOptional(script, EncBytes)
  {
    hide EncBytes;
    if script.Some? {
      buf.Push(0x01);
      buf.PushBytes(script.value);
    } else {
      buf.Push(0x00);
    }
  }

  method SerializeNewPermissions(perms: Option<Permissions>, buf: Buffer)
    modifies buf
    ensures buf.data == old(buf.data) + EncOptional(perms, EncPermissions)
  {
    hide EncPermissions;
    if perms.Some? {
      buf.Push(0x01);
      SerializePermissions(perms.value, buf);
    } else {
      buf.Push(0x00);
    }
  }

  method SerializeMint(to: AccountId, amount: Asset, attachment: seq<byte>, name: seq<byte>, buf: Buffer)
    modifies buf
    ensures buf.data == old(buf.data) + (EncU64(to) + (EncVarI64(amount) + (EncBytes(attachment) + EncBytes(name))))
  {
    hide EncU64, EncVarI64, EncBytes;
    buf.Extend(EncU64(to));
    buf.PushVarI64(amount);
    buf.PushBytes(attachment);
    buf.PushBytes(name);
  }

  method SerializeUpdate(id: AccountId, script: Option<seq<byte>>, perms: Option<Permissions>, buf: Buffer)
    modifies buf
    ensures buf.data
         == old(buf.data) + (EncU64(id) + (EncOptional(script, EncBytes) + EncOptional(perms, EncPermissions)))
  {
    hide EncU64, EncOptional;
    buf.Extend(EncU64(id));
    SerializeNewScript(script, buf);
    SerializeNewPermissions(perms, buf);
  }

  method SerializeTransfer(from: AccountId, callFn: byte, args: seq<byte>, amount: Asset, memo: seq<byte>, buf: Buffer)
    modifies buf
    ensures buf.data
         == old(buf.data) + (EncU64(from) + ([callFn] + (EncBytes(args) + (EncVarI64(amount) + EncBytes(memo)))))
  {
    hide EncU64, EncVarI64, EncBytes;
    buf.Extend(EncU64(from));
    buf.Push(callFn);
    buf.PushBytes(args);
    buf.PushVarI64(amount);
    buf.PushBytes(memo);
  }

  method SerializePayload(tx: TxVariant, buf: Buffer)
    modifies buf
    ensures buf.data == old(buf.data) + EncPayload(tx)
  {
    hide EncU64, EncVarI64, EncBytes, EncPermissions, EncAccount, EncOptional;
    match tx
    case OwnerTx(_, minter, wallet) =>
      buf.Extend(minter);
      buf.Extend(EncU64(wallet));
    case MintTx(_, to, amount, attachment, name) =>
      SerializeMint(to, amount, attachment, name, buf);
    case CreateAccountTx(_, creator, account) =>
      buf.Extend(EncU64(creator));
      SerializeAccount(account, buf);
    case UpdateAccountTx(_, id, script, perms) =>
      SerializeUpdate(id, script, perms, buf);
    case TransferTx(_, from, callFn, args, amount, memo) =>
      SerializeTransfer(from, callFn, args, amount, memo, buf);
  }

  method SerializeWithoutSigs(tx: TxVariant, buf: Buffer)
    modifies buf
    ensures buf.data == old(buf.data) + EncUnsigned(tx)
  {
    hide EncHeader, EncPayload;
    SerializeHeader(tx, buf);
    SerializePayload(tx, buf);
  }

  method SerializeTx(tx: TxVariant, buf: Buffer)
    modifies buf
    ensures buf.data == old(buf.data) + EncTx(tx)
  {
    hide EncUnsigned, EncSigPair;
    SerializeWithoutSigs(tx, buf);
    var sigs := tx.base.sigs;
    buf.Push(|sigs| % 0x100);
    EncAllEnds(sigs, EncSigPair);
    for i := 0 to |sigs|
      invariant buf.data == old(buf.data) + (EncUnsigned(tx) + ([|sigs| % 0x100] + EncAll(sigs[..i], EncSigPair)))
    {
      EncAllSnoc(sigs, i, EncSigPair);
      PushSigPair(buf, sigs[i]);
    }
  }

  method SerializeLogEntry(e: LogEntry, buf: Buffer)
    modifies buf
    ensures buf.data == old(buf.data) + EncLogEntry(e)
  {
    hide EncU64, EncVarI64;
    match e
    case Transfer(to, amount) =>
      buf.Push(0x00);
      buf.Extend(EncU64(to));
      buf.PushVarI64(amount);
    case Destroy(to) =>
      buf.Push(0x01);
      buf.Extend(EncU64(to));
  }

  method SerializeReceipt(r: Receipt, buf: Buffer)
    modifies buf
    ensures buf.data == old(buf.data) + EncReceipt(r)
  {
    hide EncTx, EncLogEntry, EncU16;
    SerializeTx(r.tx, buf);
    var count := EncU16(|r.log| % 0x1_0000);
    buf.Extend(count);
    EncAllEnds(r.log, EncLogEntry);
    for i := 0 to |r.log|
      invariant buf.data == old(buf.data) + (EncTx(r.tx) + (count + EncAll(r.log[..i], EncLogEntry)))
    {
      EncAllSnoc(r.log, i, EncLogEntry);
      SerializeLogEntry(r.log[i], buf);
    }
  }

  method SerializeBlockHeader(h: BlockHeader, buf: Buffer)
    modifies buf
    ensures buf.data == old(buf.data) + EncBlockHeader(h)
  {
    hide EncU16, EncU64;
    buf.Extend(EncU16(0));
    buf.Extend(h.previousHash);
    buf.Extend(EncU64(h.height));
    buf.Extend(EncU64(h.timestamp));
    buf.Extend(h.receiptRoot);
  }

  method SerializeBlock(b: Block, buf: Buffer)
    requires b.signer.Some?
    modifies buf
    ensures buf.data == old(buf.data) + EncBlock(b)
  {
    hide EncBlockHeader, EncSigPair, EncVarI64, EncReceipt, EncU32;
    SerializeBlockHeader(b.header, buf);
    PushSigPair(buf, b.signer.value);
    buf.PushVarI64(b.rewards);
    var count := EncU32(|b.receipts| % 0x1_0000_0000);
    buf.Extend(count);
    ghost var front := EncBlockHeader(b.header) + (EncSigPair(b.signer.value) + EncVarI64(b.rewards));
    EncAllEnds(b.receipts, EncReceipt);
    for i := 0 to |b.receipts|
      invariant buf.data == old(buf.data) + (front + (count + EncAll(b.receipts[..i], EncReceipt)))
    {
      EncAllSnoc(b.receipts, i, EncReceipt);
      SerializeReceipt(b.receipts[i], buf);
    }
  }

  /** The identifier of a transaction, from its bytes without signatures. */
  method CalcTxid(o: Oracles, tx: TxVariant) returns (id: TxId)
    ensures id == TxIdOf(o, tx)
  {
    var buf := new Buffer();
    SerializeWithoutSigs(tx, buf);
    assert [] + EncUnsigned(tx) == EncUnsigned(tx);
    id := o.sha(CHAIN_ID + buf.data);
  }

  /** One hash that is fed the bytes of each receipt in turn. */
  method CalcReceiptRoot(o: Oracles, receipts: seq<Receipt>) returns (root: Digest)
    ensures root == ReceiptRoot(o, receipts)
  {
    hide EncReceipt;
    var hashed: seq<byte> := [];
    EncAllEnds(receipts, EncReceipt);
    for i := 0 to |receipts|
      invariant hashed == EncAll(receipts[..i], EncReceipt)
    {
      EncAllSnoc(receipts, i, EncReceipt);
      var buf := new Buffer();
      SerializeReceipt(receipts[i], buf);
      assert [] + EncReceipt(receipts[i]) == EncReceipt(receipts[i]);
      hashed := hashed + buf.data;
    }
    root := o.sha(hashed);
  }

  // ----- reading -----

  /** The value read and the bytes left are those of the byte form; without one, nothing is read. */
  ghost predicate Took<T(!new)>(r: Option<T>, p: Parsed<T>, rest: seq<byte>) {
    if p.Parsed? then r == Some(p.value) && rest == p.rest else r == None
  }

  method ReadU8(cur: Cursor) returns (r: Option<byte>)
    requires cur.Valid()
    modifies cur`pos
    ensures cur.Valid() && Took(r, TakeU8(old(cur.Rest())), cur.Rest())
  {
    var b :- cur.ReadExact(1);
    r := Some(b[0]);
  }

  method ReadU16(cur: Cursor) returns (r: Option<u16>)
    requires cur.Valid()
    modifies cur`pos
    ensures cur.Valid() && Took(r, TakeU16(old(cur.Rest())), cur.Rest())
  {
    var b :- cur.ReadExact(2);
    r := Some(DecU16(b));
  }

  method ReadU32(cur: Cursor) returns (r: Option<u32>)
    requires cur.Valid()
    modifies cur`pos
    ensures cur.Valid() && Took(r, TakeU32(old(cur.Rest())), cur.Rest())
  {
    var b :- cur.ReadExact(4);
    r := Some(DecU32(b));
  }

  method ReadU64(cur: Cursor) returns (r: Option<u64>)
    requires cur.Valid()
    modifies cur`pos
    ensures cur.Valid() && Took(r, TakeU64(old(cur.Rest())), cur.Rest())
  {
    var b :- cur.ReadExact(8);
    r := Some(DecU64(b));
  }

  method ReadBytes(cur: Cursor) returns (r: Option<seq<byte>>)
    requires cur.Valid()
    modifies cur`pos
    ensures cur.Valid() && Took(r, TakeBytes(old(cur.Rest())), cur.Rest())
  {
    hide TakeU32;
    var n :- ReadU32(cur);
    r := cur.ReadExact(n);
  }

  method ReadKey(cur: Cursor) returns (r: Option<PublicKey>)
    requires cur.Valid()
    modifies cur`pos
    ensures cur.Valid() && Took(r, TakeKey(old(cur.Rest())), cur.Rest())
  {
    var k :- cur.ReadExact(32);
    r := Some(k);
  }

  method ReadDigest(cur: Cursor) returns (r: Option<Digest>)
    requires cur.Valid()
    modifies cur`pos
    ensures cur.Valid() && Took(r, TakeDigest(old(cur.Rest())), cur.Rest())
  {
    var k :- cur.ReadExact(32);
    r := Some(k);
  }

  method ReadSigPair(cur: Cursor) returns (r: Option<SigPair>)
    requires cur.Valid()
    modifies cur`pos
    ensures cur.Valid() && Took(r, TakeSigPair(old(cur.Rest())), cur.Rest())
  {
    var k :- cur.ReadExact(32);
    var s :- cur.ReadExact(64);
    r := Some(SigPair(k, s));
  }

  method DeserializePermissions(cur: Cursor) returns (r: Option<Permissions>)
    requires cur.Valid()
    modifies cur`pos
    ensures cur.Valid() && Took(r, TakePermissions(old(cur.Rest())), cur.Rest())
  {
    hide TakeU8, TakeKey;
    var threshold :- ReadU8(cur);
    var n :- ReadU8(cur);
    var keys: seq<PublicKey> := [];
    ghost var all := TakeAll(cur.Rest(), n, TakeKey);
    TakeAllStart(cur.Rest(), n, TakeKey);
    for i := 0 to n
      invariant cur.Valid() && Prepend(keys, TakeAll(cur.Rest(), n - i, TakeKey)) == all
    {
      TakeAllStep(keys, cur.Rest(), n - i, TakeKey);
      var key :- ReadKey(cur);
      keys := keys + [key];
    }
    TakeAllEnd(keys, cur.Rest(), TakeKey);
    r := Some(Permissions(threshold, keys));
  }

  method DeserializeAccount(cur: Cursor) returns (r: Option<Account>)
    requires cur.Valid()
    modifies cur`pos
    ensures cur.Valid() && Took(r, TakeAccount(old(cur.Rest())), cur.Rest())
  {
    hide TakeU8, TakeU64, TakeBytes, TakePermissions, TakeAsset;
    var id :- ReadU64(cur);
    var balance :- cur.TakeVarI64();
    var script :- ReadBytes(cur);
    var permissions :- DeserializePermissions(cur);
    var destroyed :- ReadU8(cur);
    r := Some(Account(id, balance, script, permissions, destroyed != 0));
  }

  method DeserializeHeader(cur: Cursor) returns (r: Option<(byte, Tx)>)
    requires cur.Valid()
    modifies cur`pos
    ensures cur.Valid() && Took(r, TakeHeader(old(cur.Rest())), cur.Rest())
  {
    hide TakeU8, TakeU16, TakeU32, TakeU64, TakeAsset;
    var version :- ReadU16(cur);
    if version != 0 {
      return None;
    }
    var tag :- ReadU8(cur);
    if tag > 0x04 {
      return None;
    }
    var nonce :- ReadU32(cur);
    var expiry :- ReadU64(cur);
    var fee :- cur.TakeVarI64();
    r := Some((tag, Tx(nonce, expiry, fee, [])));
  }

  method DeserializeMint(cur: Cursor, base: Tx) returns (r: Option<TxVariant>)
    requires cur.Valid()
    modifies cur`pos
    ensures cur.Valid() && Took(r, TakeMint(old(cur.Rest()), base), cur.Rest())
  {
    hide TakeU64, TakeBytes, TakeAsset, IsUtf8;
    var to :- ReadU64(cur);
    var amount :- cur.TakeVarI64();
    var attachment :- ReadBytes(cur);
    var name :- ReadBytes(cur);
    r := if IsUtf8(name) then Some(MintTx(base, to, amount, attachment, name)) else None;
  }

  method DeserializeUpdate(cur: Cursor, base: Tx) returns (r: Option<TxVariant>)
    requires cur.Valid()
    modifies cur`pos
    ensures cur.Valid() && Took(r, TakeUpdateAccount(old(cur.Rest()), base), cur.Rest())
  {
    hide TakeU8, TakeU64, TakeBytes, TakePermissions;
    var id :- ReadU64(cur);
    var script: Option<seq<byte>> := None;
    var tag :- ReadU8(cur);
    if tag == 0x01 {
      var bytes :- ReadBytes(cur);
      script := Some(bytes);
    } else if tag != 0x00 {
      return None;
    }
    var perms: Option<Permissions> := None;
    var tag2 :- ReadU8(cur);
    if tag2 == 0x01 {
      var p :- DeserializePermissions(cur);
      perms := Some(p);
    } else if tag2 != 0x00 {
      return None;
    }
    r := Some(UpdateAccountTx(base, id, script, perms));
  }

  method DeserializeTransfer(cur: Cursor, base: Tx) returns (r: Option<TxVariant>)
    requires cur.Valid()
    modifies cur`pos
    ensures cur.Valid() && Took(r, TakeTransfer(old(cur.Rest()), base), cur.Rest())
  {
    hide TakeU8, TakeU64, TakeBytes, TakeAsset;
    var from :- ReadU64(cur);
    var callFn :- ReadU8(cur);
    var args :- ReadBytes(cur);
    var amount :- cur.TakeVarI64();
    var memo :- ReadBytes(cur);
    r := Some(TransferTx(base, from, callFn, args, amount, memo));
  }

  method DeserializePayload(cur: Cursor, tag: byte, base: Tx) returns (r: Option<TxVariant>)
    requires cur.Valid()
    modifies cur`pos
    ensures cur.Valid() && Took(r, TakePayload(old(cur.Rest()), tag, base), cur.Rest())
  {
    hide TakeKey, TakeU64, TakeMint, TakeAccount, TakeUpdateAccount, TakeTransfer;
    if tag == 0x00 {
      var minter :- ReadKey(cur);
      var wallet :- ReadU64(cur);
      r := Some(OwnerTx(base, minter, wallet));
    } else if tag == 0x01 {
      r := DeserializeMint(cur, base);
    } else if tag == 0x02 {
      var creator :- ReadU64(cur);
      var account :- DeserializeAccount(cur);
      r := Some(CreateAccountTx(base, creator, account));
    } else if tag == 0x03 {
      r := DeserializeUpdate(cur, base);
    } else {
      r := DeserializeTransfer(cur, base);
    }
  }

  method DeserializeTx(cur: Cursor) returns (r: Option<TxVariant>)
    requires cur.Valid()
    modifies cur`pos
    ensures cur.Valid() && Took(r, TakeTx(old(cur.Rest())), cur.Rest())
  {
    hide TakeHeader, TakePayload, TakeU8, TakeSigPair, WithSigs;
    var header :- DeserializeHeader(cur);
    var tx :- DeserializePayload(cur, header.0, header.1);
    var n :- ReadU8(cur);
    var sigs: seq<SigPair> := [];
    ghost var all := TakeAll(cur.Rest(), n, TakeSigPair);
    TakeAllStart(cur.Rest(), n, TakeSigPair);
    for i := 0 to n
      invariant cur.Valid() && Prepend(sigs, TakeAll(cur.Rest(), n - i, TakeSigPair)) == all
    {
      TakeAllStep(sigs, cur.Rest(), n - i, TakeSigPair);
      var pair :- ReadSigPair(cur);
      sigs := sigs + [pair];
    }
    TakeAllEnd(sigs, cur.Rest(), TakeSigPair);
    r := Some(WithSigs(tx, sigs));
  }

  method DeserializeLogEntry(cur: Cursor) returns (r: Option<LogEntry>)
    requires cur.Valid()
    modifies cur`pos
    ensures cur.Valid() && Took(r, TakeLogEntry(old(cur.Rest())), cur.Rest())
  {
    hide TakeU8, TakeU64, TakeAsset;
    var tag :- ReadU8(cur);
    if tag == 0x00 {
      var to :- ReadU64(cur);
      var amount :- cur.TakeVarI64();
      r := Some(Transfer(to, amount));
    } else if tag == 0x01 {
      var to :- ReadU64(cur);
      r := Some(Destroy(to));
    } else {
      r := None;
    }
  }

  method DeserializeReceipt(cur: Cursor) returns (r: Option<Receipt>)
    requires cur.Valid()
    modifies cur`pos
    ensures cur.Valid() && Took(r, TakeReceipt(old(cur.Rest())), cur.Rest())
  {
    hide TakeTx, TakeU16, TakeLogEntry;
    var tx :- DeserializeTx(cur);
    var n :- ReadU16(cur);
    var log: seq<LogEntry> := [];
    ghost var all := TakeAll(cur.Rest(), n, TakeLogEntry);
    TakeAllStart(cur.Rest(), n, TakeLogEntry);
    for i := 0 to n
      invariant cur.Valid() && Prepend(log, TakeAll(cur.Rest(), n - i, TakeLogEntry)) == all
    {
      TakeAllStep(log, cur.Rest(), n - i, TakeLogEntry);
      var entry :- DeserializeLogEntry(cur);
      log := log + [entry];
    }
    TakeAllEnd(log, cur.Rest(), TakeLogEntry);
    r := Some(Receipt(tx, log));
  }

  method DeserializeBlockHeader(cur: Cursor) returns (r: Option<BlockHeader>)
    requires cur.Valid()
    modifies cur`pos
    ensures cur.Valid() && Took(r, TakeBlockHeader(old(cur.Rest())), cur.Rest())
  {
    hide TakeU16, TakeU64, TakeDigest;
    var version :- ReadU16(cur);
    if version != 0 {
      return None;
    }
    var previousHash :- ReadDigest(cur);
    var height :- ReadU64(cur);
    var timestamp :- ReadU64(cur);
    var receiptRoot :- ReadDigest(cur);
    r := Some(BlockHeader(previousHash, height, timestamp, receiptRoot));
  }

  method DeserializeBlock(cur: Cursor) returns (r: Option<Block>)
    requires cur.Valid()
    modifies cur`pos
    ensures cur.Valid() && Took(r, TakeBlock(old(cur.Rest())), cur.Rest())
  {
    hide TakeBlockHeader, TakeSigPair, TakeAsset, TakeU32, TakeReceipt;
    var header :- DeserializeBlockHeader(cur);
    var signer :- ReadSigPair(cur);
    var rewards :- cur.TakeVarI64();
    var n :- ReadU32(cur);
    var receipts: seq<Receipt> := [];
    ghost var all := TakeAll(cur.Rest(), n, TakeReceipt);
    TakeAllStart(cur.Rest(), n, TakeReceipt);
    for i := 0 to n
      invariant cur.Valid() && Prepend(receipts, TakeAll(cur.Rest(), n - i, TakeReceipt)) == all
    {
      TakeAllStep(receipts, cur.Rest(), n - i, TakeReceipt);
      var receipt :- DeserializeReceipt(cur);
      receipts := receipts + [receipt];
    }
    TakeAllEnd(receipts, cur.Rest(), TakeReceipt);
    r := Some(Block(header, Some(signer), rewards, receipts));
  }
}
