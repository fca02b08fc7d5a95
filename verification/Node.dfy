// The ledger as one state machine: the receipt pool (blockchain/receipt.rs), the minter
// (server/minter.rs), restarts and reindexing, over whole runs.

module Nodes {
  import opened Wrappers
  import opened Numbers
  import opened Crypto
  import opened Accounts
  import opened Transactions
  import opened Blocks
  import opened Ops
  import opened Builders
  import opened Ledgers
  import opened Chains

  const TX_MAX_EXPIRY_TIME: u64 := 60 * 60 * 24 * 30
  const TX_EXPIRY_ADJUSTMENT: u64 := 30

  /** Epoch seconds; the purge subtracts `TX_EXPIRY_ADJUSTMENT` from a reading. */
  type Clock = t: u64 | t >= TX_EXPIRY_ADJUSTMENT witness TX_EXPIRY_ADJUSTMENT

  /** The stored state (chain and transaction identifiers with their expiries) and the pool, which
      lives in memory. */
  datatype Node = Node(chain: Chain, txids: map<TxId, u64>, pool: seq<Receipt>)

  // ----- pushing a transaction -----

  /** The checks before execution: not expired, not too far ahead, not seen. */
  function Gate(txids: map<TxId, u64>, txid: TxId, expiry: u64, now: Clock): Result<(), TxErr> {
    if expiry <= now || expiry - now > TX_MAX_EXPIRY_TIME then Err(TxExpired)
    else if txid in txids then Err(TxDupe)
    else Ok(())
  }

  datatype PushResult = Pushed | PushRefused(e: TxErr) | PushPanicked

  /** A panic ends the process; what was in memory is lost. */
  function Crash(n: Node): Node {
    n.(pool := [])
  }

  function PushTx(o: Oracles, n: Node, tx: TxVariant, now: Clock): (Node, PushResult)
    requires n.chain.blocks != []
  {
    var txid := TxIdOf(o, tx);
    match Gate(n.txids, txid, tx.base.expiry, now)
    case Err(e) => (n, PushRefused(e))
    case Ok(_) =>
      match Execute(o, n.chain, tx, n.pool)
      case Refused(e) => (n, PushRefused(e))
      case Panicked => (Crash(n), PushPanicked)
      case Executed(log) =>
        (n.(txids := n.txids[txid := tx.base.expiry], pool := n.pool + [Receipt(tx, log)]), Pushed)
  }

  // ----- producing a block -----

  function Purge(txids: map<TxId, u64>, now: Clock): map<TxId, u64> {
    map id | id in txids && txids[id] >= now - TX_EXPIRY_ADJUSTMENT :: txids[id]
  }

  /** `flush`: the pool is emptied and expired identifiers are forgotten. */
  function Flush(n: Node, now: Clock): Node {
    n.(pool := [], txids := Purge(n.txids, now))
  }

  datatype ProduceResult = Produced | Idle | ProduceFailed(e: BlockErr) | ProducePanicked

  /** `insert_block`: verified, indexed and appended, or nothing at all. */
  function InsertBlock(o: Oracles, ch: Chain, b: Block): (Chain, ProduceResult)
    requires ch.blocks != []
  {
    match VerifyBlock(o, ch, b)
    case Rejected(e) => (ch, ProduceFailed(e))
    case CheckPanicked => (ch, ProducePanicked)
    case Accepted =>
      match ApplyBlock(ch.ledger, b)
      case None => (ch, ProducePanicked)
      case Some(l) => (Chain(l, ch.blocks + [b]), Produced)
  }

  /** `produce`, with the reading of the clock by the purge and the one in the new block. */
  function Produce(o: Oracles, kp: KeyPair, n: Node, stale: bool, purgeNow: Clock, blockNow: Clock): (Node, ProduceResult)
    requires n.chain.blocks != []
  {
    var n1 := Flush(n, purgeNow);
    if !stale && n.pool == [] && Head(n.chain).receipts == [] then (n1, Idle)
    else
      match NewChild(o, Head(n.chain), n.pool, blockNow)
      case None => (n1, ProducePanicked)
      case Some(b) =>
        var (chain, r) := InsertBlock(o, n.chain, Sign(o, b, kp));
        (n1.(chain := chain), r)
  }

  // ----- rebuilding the index -----

  /** The accounts that reindexing puts in place before it starts. */
  function PreIndexed(genesis: Block): Ledger {
    Ledger(CreatedAccounts(genesis.receipts), None, 0)
  }

  function CreatedAccounts(rs: seq<Receipt>): map<AccountId, Account> {
    if rs == [] then map[]
    else
      var m := CreatedAccounts(rs[..|rs| - 1]);
      var tx := rs[|rs| - 1].tx;
      if tx.CreateAccountTx? then m[tx.account.id := tx.account] else m
  }

  /** Every block in order, from the state `l`. */
  function ApplyBlocks(l: Ledger, blocks: seq<Block>): Option<Ledger> {
    if blocks == [] then Some(l)
    else
      var l1 :- ApplyBlocks(l, blocks[..|blocks| - 1]);
      ApplyBlock(l1, blocks[|blocks| - 1])
  }

  function Replay(blocks: seq<Block>): Option<Ledger>
    requires blocks != []
  {
    if |blocks[0].receipts| != 2 then None else ApplyBlocks(PreIndexed(blocks[0]), blocks)
  }

  /** The identifiers in a block that have not expired. */
  function LiveTxids(o: Oracles, rs: seq<Receipt>, now: u64): map<TxId, u64> {
    if rs == [] then map[]
    else
      var m := LiveTxids(o, rs[..|rs| - 1], now);
      var tx := rs[|rs| - 1].tx;
      if tx.base.expiry > now then m[TxIdOf(o, tx) := tx.base.expiry] else m
  }

  /** The rebuild of the identifiers from the newest of the first `k` blocks backwards, which stops
      at the first block older than the longest expiry. Ages are unsigned. */
  function RebuildTxids(o: Oracles, blocks: seq<Block>, k: nat, now: u64): map<TxId, u64>
    requires k <= |blocks|
  {
    if k == 0 then map[]
    else
      var b := blocks[k - 1];
      if (now - b.header.timestamp) % TWO_64 > TX_MAX_EXPIRY_TIME then map[]
      else LiveTxids(o, b.receipts, now) + RebuildTxids(o, blocks, k - 1, now)
  }

  /** `reindex` on a deleted index: accounts, owner and supply from the log, identifiers anew. */
  function Reindexed(o: Oracles, n: Node, now: Clock): Node
    requires n.chain.blocks != []
  {
    match Replay(n.chain.blocks)
    case None => Crash(n)
    case Some(l) => Node(Chain(l, n.chain.blocks), RebuildTxids(o, n.chain.blocks, |n.chain.blocks|, now), [])
  }

  // ----- runs -----

  /** The key may differ from block to block, as after a restart with another. */
  datatype Event =
    | PushEvent(tx: TxVariant, now: Clock)
    | ProduceEvent(kp: KeyPair, stale: bool, purgeNow: Clock, blockNow: Clock)
    | RestartEvent
    | ReindexEvent(now: Clock)

  function Step(o: Oracles, n: Node, e: Event): (n': Node)
    requires n.chain.blocks != []
    ensures n'.chain.blocks != []
  {
    match e
    case PushEvent(tx, now) => PushTx(o, n, tx, now).0
    case ProduceEvent(kp, stale, purgeNow, blockNow) => Produce(o, kp, n, stale, purgeNow, blockNow).0
    case RestartEvent => Crash(n)
    case ReindexEvent(now) => Reindexed(o, n, now)
  }

  function Run(o: Oracles, n: Node, events: seq<Event>): (n': Node)
    requires n.chain.blocks != []
    ensures n'.chain.blocks != []
  {
    if events == [] then n
    else Step(o, Run(o, n, events[..|events| - 1]), events[|events| - 1])
  }

  // ----- genesis -----

  const OWNER_ID: AccountId := 0

  function GenesisFns(): seq<FnDef> {
    [FnDef(0, [], [OpAccountId(OWNER_ID), OpCheckPerms]),
     FnDef(1, [ArgAccountId, ArgAsset], [OpAccountId(OWNER_ID), OpCheckPermsFastFail, OpTransfer, OpTrue])]
  }

  function GenesisScript(): seq<byte> {
    var r := BuildScript(GenesisFns());
    if r.Ok? then r.value else []
  }

  function GenesisBase(now: Clock): Tx
    requires now + 1 < TWO_64
  {
    Tx(0, now + 1, 0, [])
  }

  function GenesisWallet(keys: seq<PublicKey>): Account {
    Account(OWNER_ID, 0, GenesisScript(), Permissions(2, keys), false)
  }

  function GenesisOwner(kp: KeyPair, now: Clock): TxVariant
    requires now + 1 < TWO_64
  {
    OwnerTx(GenesisBase(now), kp.pub, OWNER_ID)
  }

  function GenesisReceipts(kp: KeyPair, keys: seq<PublicKey>, now: Clock): seq<Receipt>
    requires now + 1 < TWO_64
  {
    [Receipt(CreateAccountTx(GenesisBase(now), 0, GenesisWallet(keys)), []),
     Receipt(GenesisOwner(kp, now), [])]
  }

  function GenesisBlock(o: Oracles, kp: KeyPair, keys: seq<PublicKey>, now: Clock): Block
    requires now + 1 < TWO_64
  {
    var rs := GenesisReceipts(kp, keys, now);
    Sign(o, Block(BlockHeader(seq(32, _ => 0), 0, now, ReceiptRoot(o, rs)), None, 0, rs), kp)
  }

  /** `create_genesis_block`: the wallet and the owner are indexed directly. */
  function Genesis(o: Oracles, kp: KeyPair, keys: seq<PublicKey>, now: Clock): Node
    requires now + 1 < TWO_64
  {
    Node(Chain(Ledger(map[OWNER_ID := GenesisWallet(keys)], Some(GenesisOwner(kp, now)), 0),
               [GenesisBlock(o, kp, keys, now)]), map[], [])
  }
}
