// The pool of executed transactions and the minter that makes blocks of it: blockchain/receipt.rs
// and server/minter.rs. The lock around the pool makes each method one step.

module Pools {
  import opened Crypto
  import opened Transactions
  import opened Blocks
  import opened Ledgers
  import opened Chains
  import opened Nodes
  import opened Runs
  import opened Frames
  import opened Caches
  import opened Indexes
  import opened Stores
  import opened Blockchains

  class ReceiptPool {
    const chain: Blockchain
    const indexer: Indexer
    var receipts: seq<Receipt>

    ghost predicate Valid()
      reads this, chain, chain.store, chain.indexer
    {
      indexer == chain.indexer && chain.Valid()
    }

    /** The stored state and the pool, as a value. */
    ghost function State(): Node
      reads this, chain, chain.store, chain.indexer
    {
      Node(chain.View(), chain.indexer.txids, receipts)
    }

    constructor (chain: Blockchain)
      requires chain.Valid()
      ensures this.chain == chain && Valid() && receipts == []
    {
      this.chain, indexer, receipts := chain, chain.indexer, [];
    }

    /** Checks and executes a transaction; when it succeeds its identifier is stored and its receipt
        is kept for the next block. A panic loses the pool. */
    method Push(tx: TxVariant, now: Clock) returns (r: PushResult)
      requires Valid()
      modifies this, indexer`txids
      ensures Valid() && State().chain == old(State()).chain
      ensures old(chain.Recorded()) ==> chain.Recorded()
      ensures old(State()).chain.blocks != [] && (State(), r) == PushTx(chain.o, old(State()), tx, now)
    {
      hide Execute, StoredBelow, StoredAt, CacheOf, Cached, TxIdOf, FileOf, WrittenAt;
      var txid, expiry := TxIdOf(chain.o, tx), tx.base.expiry;
      if expiry <= now || expiry - now > TX_MAX_EXPIRY_TIME {
        return PushRefused(TxExpired);
      } else if txid in indexer.txids {
        return PushRefused(TxDupe);
      }
      var outcome := chain.ExecuteTx(tx, receipts);
      match outcome
      case Refused(e) => r := PushRefused(e);
      case Panicked =>
        receipts := [];
        r := PushPanicked;
      case Executed(log) =>
        indexer.InsertTxid(txid, expiry);
        receipts := receipts + [Receipt(tx, log)];
        r := Pushed;
    }

    /** Empties the pool and forgets the identifiers that are over. */
    method Flush(now: Clock) returns (taken: seq<Receipt>)
      requires Valid()
      modifies this, indexer`txids
      ensures Valid() && taken == old(receipts)
      ensures old(chain.Recorded()) ==> chain.Recorded()
      ensures State() == Nodes.Flush(old(State()), now)
    {
      hide Purge, StoredBelow, StoredAt, CacheOf, Cached, FileOf, WrittenAt;
      taken := receipts;
      receipts := [];
      indexer.PurgeExpiredTxids(now);
    }
  }

  lemma InsertedIsHead(o: Oracles, ch: Chain, b: Block)
    requires ch.blocks != []
    ensures var (ch', r) := Nodes.InsertBlock(o, ch, b); ch'.blocks != [] && (r == Produced ==> Head(ch') == b)
  {
    hide VerifyBlock, ApplyBlock;
  }

  class Minter {
    const chain: Blockchain
    const minterKey: KeyPair
    const receiptPool: ReceiptPool
    const enableStaleProduction: bool

    ghost predicate Valid()
      reads this, receiptPool, chain, chain.store, chain.indexer
    {
      receiptPool.chain == chain && receiptPool.Valid()
    }

    ghost function State(): Node
      reads this, receiptPool, chain, chain.store, chain.indexer
      requires receiptPool.chain == chain
    {
      receiptPool.State()
    }

    /** The minter's key must be the owner's. */
    constructor (chain: Blockchain, minterKey: KeyPair, enableStaleProduction: bool)
      requires chain.Valid() && chain.indexer.owner.Some? && chain.indexer.owner.value.OwnerTx?
      requires chain.indexer.owner.value.minter == minterKey.pub
      ensures this.chain == chain && this.minterKey == minterKey && fresh(receiptPool)
      ensures this.enableStaleProduction == enableStaleProduction
      ensures Valid() && State() == Node(chain.View(), chain.indexer.txids, [])
    {
      this.chain, this.minterKey, this.enableStaleProduction := chain, minterKey, enableStaleProduction;
      receiptPool := new ReceiptPool(chain);
    }

    method PushTx(tx: TxVariant, now: Clock) returns (r: PushResult)
      requires Valid()
      modifies receiptPool, chain.indexer`txids
      ensures Valid() && (old(chain.Recorded()) ==> chain.Recorded())
      ensures old(State()).chain.blocks != [] && (State(), r) == Nodes.PushTx(chain.o, old(State()), tx, now)
    {
      r := receiptPool.Push(tx, now);
    }

    /** Takes the whole pool and makes the next block of it. File and positions stay those of the
        log. A block that does not fit the prefixes of its byte form cannot be read back later. */
    method Produce(force: bool, purgeNow: Clock, blockNow: Clock) returns (r: ProduceResult)
      requires Valid()
      modifies receiptPool, chain.store, chain.indexer
      ensures chain.indexer.status == old(chain.indexer.status)
      ensures old(chain.Recorded()) ==> chain.Recorded()
      ensures old(State()).chain.blocks != [] && State().chain.blocks != []
      ensures r != Produced || Writable(Head(State().chain)) ==> Valid()
      ensures r == Idle <==> !force && !enableStaleProduction && old(receiptPool.receipts) == []
                             && Head(old(State()).chain).receipts == []
      ensures (State(), r)
           == Nodes.Produce(chain.o, minterKey, old(State()), force || enableStaleProduction, purgeNow, blockNow)
    {
      hide NewChild, Sign, Purge, Writable, StoredBelow, StoredAt, CacheOf, Cached, FileOf, WrittenAt, VerifyBlock,
           ApplyBlock, Nodes.InsertBlock, Blockchain.Recorded, BlockStore.Sound, BlockStore.Loaded, BlockStore.Synced;
      ghost var before := State();
      var receipts := receiptPool.Flush(purgeNow);
      var head := chain.GetChainHead();
      RestsIff(chain.o, minterKey, before, force || enableStaleProduction, purgeNow, blockNow);
      if !force && !enableStaleProduction && receipts == [] && head.receipts == [] {
        return Idle;
      }
      var child := NewChild(chain.o, head, receipts, blockNow);
      if child.None? {
        return ProducePanicked;
      }
      InsertedIsHead(chain.o, chain.View(), Sign(chain.o, child.value, minterKey));
      r := chain.InsertBlock(Sign(chain.o, child.value, minterKey));
    }
  }
}
