// Receipts, blocks and their byte form: blockchain/receipt.rs and blockchain/block.rs.

module Blocks {
  import opened Wrappers
  import opened Numbers
  import opened Assets
  import opened Serializer
  import opened Crypto
  import opened Accounts
  import opened Transactions

  datatype LogEntry =
    | Transfer(to: AccountId, amount: Asset)  // sends tokens to the account
    | Destroy(to: AccountId)                  // destroys the sender, sending what is left to the account

  /** A transaction that has been executed, with what its script did. */
  datatype Receipt = Receipt(tx: TxVariant, log: seq<LogEntry>)

  datatype BlockHeader = BlockHeader(previousHash: Digest, height: u64, timestamp: u64, receiptRoot: Digest)

  datatype Block = Block(header: BlockHeader, signer: Option<SigPair>, rewards: Asset, receipts: seq<Receipt>)

  // ----- byte form -----

  function EncLogEntry(e: LogEntry): seq<byte> {
    match e
    case Transfer(to, amount) => [0x00] + (EncU64(to) + EncVarI64(amount))
    case Destroy(to) => [0x01] + EncU64(to)
  }

  function TakeLogEntry(s: seq<byte>): Parsed<LogEntry> {
    var (tag, t) :- TakeU8(s);
    if tag == 0x00 then
      var (to, u) :- TakeU64(t);
      var (amount, v) :- TakeAsset(u);
      Parsed(Transfer(to, amount), v)
    else if tag == 0x01 then
      var (to, u) :- TakeU64(t);
      Parsed(Destroy(to), u)
    else NotParsed
  }

  /** The number of log entries is cast to 16 bits. */
  function EncReceipt(r: Receipt): seq<byte> {
    EncTx(r.tx) + Enc16(r.log, EncLogEntry)
  }

  function TakeReceipt(s: seq<byte>): Parsed<Receipt> {
    var (tx, t) :- TakeTx(s);
    var (log, u) :- Take16(t, TakeLogEntry);
    Parsed(Receipt(tx, log), u)
  }

  function EncBlockHeader(h: BlockHeader): seq<byte> {
    EncU16(0) + (h.previousHash + (EncU64(h.height) + (EncU64(h.timestamp) + h.receiptRoot)))
  }

  function TakeBlockHeader(s: seq<byte>): Parsed<BlockHeader> {
    var (version, t) :- TakeU16(s);
    if version != 0 then NotParsed else
      var (previousHash, u) :- TakeDigest(t);
      var (height, v) :- TakeU64(u);
      var (timestamp, w) :- TakeU64(v);
      var (receiptRoot, x) :- TakeDigest(w);
      Parsed(BlockHeader(previousHash, height, timestamp, receiptRoot), x)
  }

  /** The number of receipts is cast to 32 bits. */
  function EncReceipts(rs: seq<Receipt>): seq<byte> {
    Enc32(rs, EncReceipt)
  }

  function TakeReceipts(s: seq<byte>): Parsed<seq<Receipt>> {
    Take32(s, TakeReceipt)
  }

  /** Only a signed block has a byte form. */
  function EncBlock(b: Block): seq<byte>
    requires b.signer.Some?
  {
    EncBlockHeader(b.header) + (EncSigPair(b.signer.value) + (EncVarI64(b.rewards) + EncReceipts(b.receipts)))
  }

  function TakeBlock(s: seq<byte>): Parsed<Block> {
    var (header, t) :- TakeBlockHeader(s);
    var (signer, u) :- TakeSigPair(t);
    var (rewards, v) :- TakeAsset(u);
    var (receipts, w) :- TakeReceipts(v);
    Parsed(Block(header, Some(signer), rewards, receipts), w)
  }

  // ----- round trip -----

  predicate ReceiptFits(r: Receipt) {
    TxFits(r.tx) && |r.log| < 0x1_0000
  }

  /** A signed block whose vectors all fit their length prefixes. */
  predicate BlockFits(b: Block) {
    && b.signer.Some?
    && |b.receipts| < 0x1_0000_0000
    && forall r | r in b.receipts :: ReceiptFits(r)
  }

  lemma TakeLogEntryOf(e: LogEntry, rest: seq<byte>)
    ensures TakeLogEntry(EncLogEntry(e) + rest) == Parsed(e, rest)
  {
    match e
    case Transfer(to, amount) =>
      var s2 := EncVarI64(amount) + rest;
      var s1 := EncU64(to) + s2;
      assert EncLogEntry(e) + rest == [0x00] + s1;
      TakeU8Of(0x00, s1);
      TakeU64Of(to, s2);
      TakeAssetOf(amount, rest);
    case Destroy(to) =>
      assert EncLogEntry(e) + rest == [0x01] + (EncU64(to) + rest);
      TakeU8Of(0x01, EncU64(to) + rest);
      TakeU64Of(to, rest);
  }

  lemma TakeReceiptOf(r: Receipt, rest: seq<byte>)
    requires ReceiptFits(r)
    ensures TakeReceipt(EncReceipt(r) + rest) == Parsed(r, rest)
  {
    Assoc(EncTx(r.tx), Enc16(r.log, EncLogEntry), rest);
    TakeTxOf(r.tx, Enc16(r.log, EncLogEntry) + rest);
    forall i, t | 0 <= i < |r.log| ensures TakeLogEntry(EncLogEntry(r.log[i]) + t) == Parsed(r.log[i], t) {
      TakeLogEntryOf(r.log[i], t);
    }
    Take16Of(r.log, EncLogEntry, TakeLogEntry, rest);
  }

  lemma TakeBlockHeaderOf(h: BlockHeader, rest: seq<byte>)
    ensures TakeBlockHeader(EncBlockHeader(h) + rest) == Parsed(h, rest)
  {
    var s4 := h.receiptRoot + rest;
    var s3 := EncU64(h.timestamp) + s4;
    var s2 := EncU64(h.height) + s3;
    var s1 := h.previousHash + s2;
    assert EncBlockHeader(h) + rest == EncU16(0) + s1;
    TakeU16Of(0, s1);
    TakeNOf(h.previousHash, s2);
    TakeU64Of(h.height, s3);
    TakeU64Of(h.timestamp, s4);
    TakeNOf(h.receiptRoot, rest);
  }

  lemma TakeReceiptsOf(rs: seq<Receipt>, rest: seq<byte>)
    requires |rs| < 0x1_0000_0000 && forall r | r in rs :: ReceiptFits(r)
    ensures TakeReceipts(EncReceipts(rs) + rest) == Parsed(rs, rest)
  {
    ReceiptsInvert(rs);
    Take32Of(rs, EncReceipt, TakeReceipt, rest);
  }

  lemma ReceiptsInvert(rs: seq<Receipt>)
    requires forall r | r in rs :: ReceiptFits(r)
    ensures Inverts(rs, EncReceipt, TakeReceipt)
  {
    forall i, r | 0 <= i < |rs|
      ensures TakeReceipt(EncReceipt(rs[i]) + r) == Parsed(rs[i], r)
    {
      TakeReceiptOf(rs[i], r);
    }
  }

  /** Decoding the bytes of a block, followed by anything at all, gives the block back and stops
      where the rest begins. */
  lemma TakeBlockOf(b: Block, rest: seq<byte>)
    requires BlockFits(b)
    ensures TakeBlock(EncBlock(b) + rest) == Parsed(b, rest)
  {
    hide EncBlockHeader, EncSigPair, EncReceipts, TakeBlockHeader, TakeSigPair, TakeReceipts, EncVarI64, TakeAsset;
    var s3 := EncReceipts(b.receipts) + rest;
    var s2 := EncVarI64(b.rewards) + s3;
    var s1 := EncSigPair(b.signer.value) + s2;
    assert EncBlock(b) + rest == EncBlockHeader(b.header) + s1;
    TakeBlockHeaderOf(b.header, s1);
    TakeSigPairOf(b.signer.value, s2);
    TakeAssetOf(b.rewards, s3);
    TakeReceiptsOf(b.receipts, rest);
  }

  // ----- linking -----

  function HeaderHash(o: Oracles, b: Block): Digest {
    o.sha(EncBlockHeader(b.header))
  }

  /** One hash over the receipts' bytes in order. */
  function ReceiptRoot(o: Oracles, receipts: seq<Receipt>): Digest {
    o.sha(EncAll(receipts, EncReceipt))
  }

  /** The total of the fees; there is none when a partial total overflows. */
  function FeeTotal(receipts: seq<Receipt>): Option<Asset> {
    if receipts == [] then Some(0)
    else
      var acc :- FeeTotal(receipts[..|receipts| - 1]);
      CheckedAdd(acc, receipts[|receipts| - 1].tx.base.fee)
  }

  /** The unsigned successor of a block. Its rewards are the receipts' fees. */
  function NewChild(o: Oracles, parent: Block, receipts: seq<Receipt>, now: u64): Option<Block> {
    var rewards :- FeeTotal(receipts);
    if parent.header.height + 1 >= TWO_64 then None else
      Some(Block(BlockHeader(HeaderHash(o, parent), parent.header.height + 1, now, ReceiptRoot(o, receipts)),
                 None, rewards, receipts))
  }

  function Sign(o: Oracles, b: Block, kp: KeyPair): Block {
    b.(signer := Some(SignWith(o, kp, HeaderHash(o, b))))
  }
}
