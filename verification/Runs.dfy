// What every run of the ledger keeps.

module Runs {
  import opened Wrappers
  import opened Numbers
  import opened Crypto
  import opened Accounts
  import opened Transactions
  import opened Blocks
  import opened Ledgers
  import opened FeePolicy
  import opened Conservation
  import opened Chains
  import opened Nodes
  import opened Permitted

  // ----- the invariant -----

  /** No account has more than 47 payments in its window and the pool together. */
  ghost predicate FeeCapped(n: Node) {
    forall id: AccountId :: FeeCount(n.chain.blocks, id, n.pool) <= 47
  }

  ghost predicate NodeInv(o: Oracles, n: Node) {
    && n.chain.blocks != []
    && LedgerInv(n.chain.ledger)
    && AllExecuted(o, n.chain, n.pool)
    && Replay(n.chain.blocks) == Some(n.chain.ledger)
    && FeeCapped(n)
  }

  // ----- genesis -----

  lemma GenesisReplays(o: Oracles, kp: KeyPair, keys: seq<PublicKey>, now: Clock)
    requires now + 1 < TWO_64
    ensures Replay(Genesis(o, kp, keys, now).chain.blocks) == Some(Genesis(o, kp, keys, now).chain.ledger)
  {
    hide GenesisWallet;
    var n := Genesis(o, kp, keys, now);
    var b := n.chain.blocks[0];
    var rs := b.receipts;
    var wallet := GenesisWallet(keys);
    GenesisWalletEmpty(keys);
    assert rs[..1] == [rs[0]] && rs[..0] == [] && rs[..1][..0] == [];
    assert CreatedAccounts(rs[..1]) == map[OWNER_ID := wallet];
    assert CreatedAccounts(rs) == map[OWNER_ID := wallet];
    var l0 := PreIndexed(b);
    assert l0.accounts[OWNER_ID := wallet] == l0.accounts;
    assert ApplyReceipts(l0, rs[..1]) == Some(l0) by {
      assert ApplyReceipts(l0, []) == Some(l0);
      assert wallet.(balance := 0) == wallet;
    }
    assert ApplyReceipts(l0, rs) == Some(n.chain.ledger);
    assert n.chain.ledger.accounts[OWNER_ID := wallet] == n.chain.ledger.accounts;
    assert ApplyBlock(l0, b) == Some(n.chain.ledger);
    assert n.chain.blocks[..0] == [];
    assert ApplyBlocks(l0, []) == Some(l0);
  }

  lemma GenesisWalletEmpty(keys: seq<PublicKey>)
    ensures GenesisWallet(keys).balance == 0 && GenesisWallet(keys).id == OWNER_ID
  {
  }

  lemma GenesisLedgerInv(kp: KeyPair, keys: seq<PublicKey>, now: Clock)
    requires now + 1 < TWO_64
    ensures LedgerInv(Ledger(map[OWNER_ID := GenesisWallet(keys)], Some(GenesisOwner(kp, now)), 0))
  {
    GenesisWalletEmpty(keys);
    hide GenesisWallet;
    var m := map[OWNER_ID := GenesisWallet(keys)];
    TotalWithout(m, OWNER_ID);
    assert m - {OWNER_ID} == map[];
  }

  lemma GenesisFeeCapped(n: Node)
    requires |n.chain.blocks| == 1 && |n.chain.blocks[0].receipts| == 2 && n.pool == []
    ensures FeeCapped(n)
  {
    forall id: AccountId
      ensures FeeCount(n.chain.blocks, id, n.pool) <= 47
    {
      assert CountPaid(n.chain.blocks[0].receipts, id) <= 2;
      assert WindowCount(n.chain.blocks, id, 1, 0) <= 2;
    }
  }

  lemma GenesisInv(o: Oracles, kp: KeyPair, keys: seq<PublicKey>, now: Clock)
    requires now + 1 < TWO_64
    ensures NodeInv(o, Genesis(o, kp, keys, now))
  {
    GenesisReplays(o, kp, keys, now);
    GenesisLedgerInv(kp, keys, now);
    hide Replay, Execute, GenesisWallet, LedgerInv, FeeCapped, Sign, ReceiptRoot;
    GenesisFeeCapped(Genesis(o, kp, keys, now));
  }

  // ----- steps -----

  lemma CrashKeeps(o: Oracles, n: Node)
    requires NodeInv(o, n)
    ensures NodeInv(o, Crash(n))
  {
    hide Execute, Replay, LedgerInv, WindowCount;
    forall id: AccountId
      ensures FeeCount(n.chain.blocks, id, []) <= 47
    {
      assert FeeCount(n.chain.blocks, id, n.pool) <= 47;
    }
  }

  /** Whoever pays for a transaction that executes had at most 46 payments counted. */
  lemma PayerBelowCap(o: Oracles, ch: Chain, tx: TxVariant, rs: seq<Receipt>, log: seq<LogEntry>, id: AccountId)
    requires ch.blocks != [] && Execute(o, ch, tx, rs) == Executed(log) && PaidBy(Receipt(tx, log), id)
    ensures FeeCount(ch.blocks, id, rs) % 0x1_0000 <= 46
  {
    FeesCharged(ch, id, rs);
    hide GetAccountInfo, FeeCount, RunScript, Signed, IsValidPermissions;
  }

  lemma ExecutedSnoc(o: Oracles, ch: Chain, rs: seq<Receipt>, r: Receipt)
    requires ch.blocks != [] && AllExecuted(o, ch, rs) && Execute(o, ch, r.tx, rs) == Executed(r.log)
    ensures AllExecuted(o, ch, rs + [r])
  {
    hide Execute;
    var more := rs + [r];
    forall i | 0 <= i < |more| ensures Execute(o, ch, more[i].tx, more[..i]) == Executed(more[i].log) {
      assert more[..i] == rs[..i];
      assert rs[..|rs|] == rs;
    }
  }

  lemma CappedSnoc(o: Oracles, n: Node, r: Receipt)
    requires n.chain.blocks != [] && FeeCapped(n) && Execute(o, n.chain, r.tx, n.pool) == Executed(r.log)
    ensures FeeCapped(n.(pool := n.pool + [r]))
  {
    hide FeeCount, Execute, PaidBy;
    forall id: AccountId
      ensures FeeCount(n.chain.blocks, id, n.pool + [r]) <= 47
    {
      FeeCountSnoc(n.chain.blocks, id, n.pool, r);
      if PaidBy(r, id) {
        PayerBelowCap(o, n.chain, r.tx, n.pool, r.log, id);
      }
    }
  }

  lemma PushAdds(o: Oracles, n: Node, tx: TxVariant, now: Clock)
    requires n.chain.blocks != []
    ensures var (n', r) := PushTx(o, n, tx, now);
            && n'.chain == n.chain
            && if r == Pushed
               then exists log: seq<LogEntry> ::
                 Execute(o, n.chain, tx, n.pool) == Executed(log) && n'.pool == n.pool + [Receipt(tx, log)]
               else n'.pool == n.pool || n'.pool == []
  {
    hide Execute, Gate, TxIdOf;
  }

  lemma PushKeeps(o: Oracles, n: Node, tx: TxVariant, now: Clock)
    requires NodeInv(o, n)
    ensures NodeInv(o, PushTx(o, n, tx, now).0)
  {
    hide Replay, LedgerInv, FeeCapped, AllExecuted, Execute, PushTx;
    CrashKeeps(o, n);
    PushAdds(o, n, tx, now);
    var (n', r) := PushTx(o, n, tx, now);
    if r == Pushed {
      var log: seq<LogEntry> :|
        Execute(o, n.chain, tx, n.pool) == Executed(log) && n'.pool == n.pool + [Receipt(tx, log)];
      ExecutedSnoc(o, n.chain, n.pool, Receipt(tx, log));
      CappedSnoc(o, n, Receipt(tx, log));
      SameCap(n.(pool := n.pool + [Receipt(tx, log)]), n');
    } else if n'.pool == n.pool {
      SameCap(n, n');
    } else {
      SameCap(Crash(n), n');
    }
  }

  lemma SameCap(n: Node, n': Node)
    requires FeeCapped(n) && n'.chain.blocks == n.chain.blocks && n'.pool == n.pool
    ensures FeeCapped(n')
  {
    hide FeeCount;
    forall id: AccountId ensures FeeCount(n'.chain.blocks, id, n'.pool) <= 47 {
      assert FeeCount(n.chain.blocks, id, n.pool) <= 47;
    }
  }

  /** The block that `produce` builds, before its signature is looked at. */
  function Child(o: Oracles, kp: KeyPair, n: Node, now: Clock): Option<Block>
    requires n.chain.blocks != []
  {
    var b :- NewChild(o, Head(n.chain), n.pool, now);
    Some(Sign(o, b, kp))
  }

  lemma ChildPaysFees(o: Oracles, kp: KeyPair, n: Node, now: Clock)
    requires n.chain.blocks != [] && Child(o, kp, n, now).Some?
    ensures var b := Child(o, kp, n, now).value;
            b.receipts == n.pool && FeeTotal(b.receipts) == Some(b.rewards) && b.header.timestamp == now
  {
  }

  lemma ApplyBlocksSnoc(l: Ledger, blocks: seq<Block>, b: Block)
    ensures ApplyBlocks(l, blocks + [b])
         == if ApplyBlocks(l, blocks).Some? then ApplyBlock(ApplyBlocks(l, blocks).value, b) else None
  {
    assert (blocks + [b])[..|blocks + [b]| - 1] == blocks;
  }

  /** A block of the whole pool that was indexed: the new chain holds all the money again, replays
      to the new ledger, and has no longer a window than before. */
  lemma BlockKeeps(o: Oracles, n: Node, b: Block, txids: map<TxId, u64>)
    requires NodeInv(o, n) && b.receipts == n.pool && FeeTotal(b.receipts) == Some(b.rewards)
    requires ApplyBlock(n.chain.ledger, b).Some?
    ensures NodeInv(o, Node(Chain(ApplyBlock(n.chain.ledger, b).value, n.chain.blocks + [b]), txids, []))
  {
    hide Execute, FeeTotal, ApplyBlock, WindowCount;
    ExecutedAreAdmissible(o, n.chain, n.pool);
    BlockConserves(n.chain.ledger, b);
    ApplyBlocksSnoc(PreIndexed(n.chain.blocks[0]), n.chain.blocks, b);
    forall id: AccountId
      ensures FeeCount(n.chain.blocks + [b], id, []) <= 47
    {
      hide FeeCount;
      ProducingNeverRaises(n.chain.blocks, b, id);
    }
  }

  lemma FlushKeeps(o: Oracles, n: Node, now: Clock)
    requires NodeInv(o, n)
    ensures NodeInv(o, Flush(n, now))
  {
    CrashKeeps(o, n);
    hide Execute, Replay, LedgerInv, FeeCount;
  }

  lemma ProduceKeeps(o: Oracles, kp: KeyPair, n: Node, stale: bool, purgeNow: Clock, blockNow: Clock)
    requires NodeInv(o, n)
    ensures NodeInv(o, Produce(o, kp, n, stale, purgeNow, blockNow).0)
  {
    FlushKeeps(o, n, purgeNow);
    hide VerifyBlock, ApplyBlock, NodeInv, NewChild, Sign;
    NodeInvChain(o, n);
    var (n', r) := Produce(o, kp, n, stale, purgeNow, blockNow);
    if r == Produced {
      var b := Child(o, kp, n, blockNow).value;
      ChildPaysFees(o, kp, n, blockNow);
      BlockKeeps(o, n, b, Purge(n.txids, purgeNow));
      assert n' == Node(Chain(ApplyBlock(n.chain.ledger, b).value, n.chain.blocks + [b]), Purge(n.txids, purgeNow), []);
    } else {
      assert n' == Flush(n, purgeNow);
    }
  }

  lemma NodeInvChain(o: Oracles, n: Node)
    requires NodeInv(o, n)
    ensures n.chain.blocks != []
  {
  }

  /** Reindexing finds the ledger that block by block indexing had stored. */
  lemma ReindexKeeps(o: Oracles, n: Node, now: Clock)
    requires NodeInv(o, n)
    ensures Reindexed(o, n, now).chain == n.chain
    ensures NodeInv(o, Reindexed(o, n, now))
  {
    CrashKeeps(o, n);
    hide Execute, LedgerInv, FeeCount, RebuildTxids, Replay;
  }

  lemma StepKeeps(o: Oracles, n: Node, e: Event)
    requires NodeInv(o, n)
    ensures NodeInv(o, Step(o, n, e))
  {
    hide NodeInv, PushTx, Produce, Reindexed;
    NodeInvChain(o, n);
    match e
    case PushEvent(tx, now) => PushKeeps(o, n, tx, now);
    case ProduceEvent(kp, stale, purgeNow, blockNow) => ProduceKeeps(o, kp, n, stale, purgeNow, blockNow);
    case RestartEvent => CrashKeeps(o, n);
    case ReindexEvent(now) => ReindexKeeps(o, n, now);
  }

  lemma {:induction false} RunKeeps(o: Oracles, n: Node, events: seq<Event>)
    requires n.chain.blocks != [] && NodeInv(o, n)
    ensures NodeInv(o, Run(o, n, events))
  {
    if events != [] {
      hide NodeInv, Step;
      RunKeeps(o, n, events[..|events| - 1]);
      StepKeeps(o, Run(o, n, events[..|events| - 1]), events[|events| - 1]);
    }
  }

  // ----- the main results -----

  /** The state after genesis and any events. */
  ghost predicate Reachable(o: Oracles, n: Node) {
    exists owner: KeyPair, keys: seq<PublicKey>, now: Clock, events: seq<Event> ::
      now + 1 < TWO_64 && n == Run(o, Genesis(o, owner, keys, now), events)
  }

  lemma ReachableInv(o: Oracles, n: Node)
    requires Reachable(o, n)
    ensures NodeInv(o, n)
  {
    hide NodeInv;
    var owner: KeyPair, keys: seq<PublicKey>, now: Clock, events: seq<Event> :|
      now + 1 < TWO_64 && n == Run(o, Genesis(o, owner, keys, now), events);
    GenesisInv(o, owner, keys, now);
    RunKeeps(o, Genesis(o, owner, keys, now), events);
  }

  /** Conservation: after any run, crashes and reindexing included, the balances add up to the
      token supply, none is negative, and the owner's wallet exists. */
  lemma SupplyIsConserved(o: Oracles, n: Node)
    requires Reachable(o, n)
    ensures Total(n.chain.ledger.accounts) == n.chain.ledger.supply
    ensures forall id | id in n.chain.ledger.accounts :: 0 <= n.chain.ledger.accounts[id].balance <= n.chain.ledger.supply
    ensures OwnerKnown(n.chain.ledger, n.chain.ledger.owner)
  {
    ReachableInv(o, n);
    hide AllExecuted, Replay, FeeCapped;
    TotalBounds(n.chain.ledger.accounts);
  }

  /** Replay equivalence: reindexing the log of any run gives back accounts, owner and supply. */
  lemma ReindexIsExact(o: Oracles, n: Node, now: Clock)
    requires Reachable(o, n)
    ensures n.chain.blocks != [] && Reindexed(o, n, now).chain == n.chain
  {
    ReachableInv(o, n);
    ReindexKeeps(o, n, now);
  }

  lemma ProduceInserts(o: Oracles, kp: KeyPair, n: Node, stale: bool, purgeNow: Clock, blockNow: Clock)
    requires n.chain.blocks != []
    requires stale || n.pool != [] || Head(n.chain).receipts != []
    ensures Produce(o, kp, n, stale, purgeNow, blockNow).1
         == match Child(o, kp, n, blockNow)
            case None => ProducePanicked
            case Some(b) => InsertBlock(o, n.chain, b).1
  {
    hide InsertBlock, NewChild, Sign;
  }

  /** The state a produced block leaves. */
  lemma ProducedIs(o: Oracles, kp: KeyPair, n: Node, stale: bool, purgeNow: Clock, blockNow: Clock)
    requires n.chain.blocks != [] && Produce(o, kp, n, stale, purgeNow, blockNow).1 == Produced
    ensures var n' := Produce(o, kp, n, stale, purgeNow, blockNow).0;
            && Child(o, kp, n, blockNow).Some?
            && n'.chain.blocks == n.chain.blocks + [Child(o, kp, n, blockNow).value]
            && ApplyBlock(n.chain.ledger, Child(o, kp, n, blockNow).value) == Some(n'.chain.ledger)
            && n'.txids == Purge(n.txids, purgeNow) && n'.pool == []
  {
    hide VerifyBlock, ApplyBlock, NewChild, Sign, Purge;
  }

  /** The minter rests exactly if production is not forced, nothing is pending and the newest block
      holds no receipts. The chain is then as it was, and only identifiers whose expiry is more than
      30 seconds past are forgotten. */
  lemma RestsIff(o: Oracles, kp: KeyPair, n: Node, stale: bool, purgeNow: Clock, blockNow: Clock)
    requires n.chain.blocks != []
    ensures Produce(o, kp, n, stale, purgeNow, blockNow).1 == Idle
       <==> !stale && n.pool == [] && n.chain.blocks[|n.chain.blocks| - 1].receipts == []
    ensures var (n', r) := Produce(o, kp, n, stale, purgeNow, blockNow);
            r == Idle ==>
              && n'.chain == n.chain && n'.pool == n.pool
              && forall txid: TxId ::
                   && (txid in n'.txids <==> txid in n.txids && n.txids[txid] + 30 >= purgeNow)
                   && (txid in n'.txids ==> n'.txids[txid] == n.txids[txid])
  {
    hide VerifyBlock, ApplyBlock, NewChild, Sign;
  }

  /** The indexed owner's minter is the key at hand. */
  predicate IsMinter(l: Ledger, kp: KeyPair) {
    l.owner.Some? && l.owner.value.OwnerTx? && l.owner.value.minter == kp.pub
  }

  lemma ChildOutcome(o: Oracles, kp: KeyPair, n: Node, now: Clock)
    requires NodeInv(o, n) && Genuine(o, kp) && Child(o, kp, n, now).Some?
    ensures InsertBlock(o, n.chain, Child(o, kp, n, now).value).1
         == if !IsMinter(n.chain.ledger, kp) then ProduceFailed(InvalidSignature)
            else if MintsOk(n.chain.ledger, n.pool) then Produced
            else ProducePanicked
  {
    ExecutedAreAdmissible(o, n.chain, n.pool);
    var b := Child(o, kp, n, now).value;
    ChildPaysFees(o, kp, n, now);
    ProducedBlockVerifies(o, n.chain, n.pool, kp, now);
    hide Execute, VerifyBlock, ApplyBlock, FeeTotal, MintsOk, Replay, FeeCapped, NewChild, Sign, AllAdmissible;
    BlockConserves(n.chain.ledger, b);
  }

  /** What the next block comes to, as can be read off pool, owner and key beforehand. */
  function Outcome(l: Ledger, pool: seq<Receipt>, kp: KeyPair): ProduceResult {
    if FeeTotal(pool).None? then ProducePanicked
    else if !IsMinter(l, kp) then ProduceFailed(InvalidSignature)
    else if MintsOk(l, pool) then Produced
    else ProducePanicked
  }

  /** Pool soundness: unless the minter rests, a block is made of any reachable pool if and only if its
      mints are in order and the key is the owner's minter's. Another key is refused for its signature,
      and mints out of order make an unwrap fail; the fold over the fees can only fail with mints out
      of order. */
  lemma ProduceOutcome(o: Oracles, kp: KeyPair, n: Node, stale: bool, purgeNow: Clock, blockNow: Clock)
    requires Reachable(o, n) && Genuine(o, kp)
    requires n.chain.blocks != [] && Head(n.chain).header.height + 1 < TWO_64
    ensures Produce(o, kp, n, stale, purgeNow, blockNow).1
         == if !stale && n.pool == [] && Head(n.chain).receipts == [] then Idle
            else Outcome(n.chain.ledger, n.pool, kp)
    ensures MintsOk(n.chain.ledger, n.pool) ==> FeeTotal(n.pool).Some?
  {
    ReachableInv(o, n);
    RestsIff(o, kp, n, stale, purgeNow, blockNow);
    if stale || n.pool != [] || Head(n.chain).receipts != [] {
      ProduceInserts(o, kp, n, stale, purgeNow, blockNow);
    }
    if MintsOk(n.chain.ledger, n.pool) {
      ChildExists(o, kp, n, blockNow);
    }
    ChildNeedsFees(o, kp, n, blockNow);
    hide NodeInv, Produce, MintsOk, InsertBlock, IsMinter, Child, FeeTotal;
    if Child(o, kp, n, blockNow).Some? {
      ChildOutcome(o, kp, n, blockNow);
    }
  }

  // ----- blocks without receipts -----

  /** No two blocks in a row are both without receipts. */
  predicate NoneEmptyTwice(blocks: seq<Block>) {
    forall i | 0 < i < |blocks| :: blocks[i - 1].receipts != [] || blocks[i].receipts != []
  }

  predicate Unforced(e: Event) {
    e.ProduceEvent? ==> !e.stale
  }

  lemma PushLeavesChain(o: Oracles, n: Node, tx: TxVariant, now: Clock)
    requires n.chain.blocks != []
    ensures PushTx(o, n, tx, now).0.chain == n.chain
  {
    hide Gate, Execute, TxIdOf;
  }

  lemma ReindexLeavesBlocks(o: Oracles, n: Node, now: Clock)
    requires n.chain.blocks != []
    ensures Reindexed(o, n, now).chain.blocks == n.chain.blocks
  {
    hide Replay, RebuildTxids;
  }

  lemma NothingProduced(o: Oracles, kp: KeyPair, n: Node, stale: bool, purgeNow: Clock, blockNow: Clock)
    requires n.chain.blocks != [] && Produce(o, kp, n, stale, purgeNow, blockNow).1 != Produced
    ensures Produce(o, kp, n, stale, purgeNow, blockNow).0 == Flush(n, purgeNow)
  {
    hide NewChild, Sign, VerifyBlock, ApplyBlock, Purge;
  }

  /** The event makes a block of the whole pool. */
  predicate Makes(o: Oracles, n: Node, e: Event, b: Block)
    requires n.chain.blocks != []
  {
    && e.ProduceEvent? && Child(o, e.kp, n, e.blockNow) == Some(b)
    && (e.stale || n.pool != [] || Head(n.chain).receipts != [])
  }

  /** The blocks stay as they are, or one more is made. */
  lemma StepMakesBlocks(o: Oracles, n: Node, e: Event)
    requires n.chain.blocks != []
    ensures var blocks := Step(o, n, e).chain.blocks;
            blocks == n.chain.blocks
            || exists b :: Makes(o, n, e, b) && blocks == n.chain.blocks + [b]
  {
    hide PushTx, Produce, Reindexed, Child;
    match e
    case PushEvent(tx, now) => PushLeavesChain(o, n, tx, now);
    case RestartEvent =>
    case ReindexEvent(now) => ReindexLeavesBlocks(o, n, now);
    case ProduceEvent(kp, stale, purgeNow, blockNow) =>
      if Produce(o, kp, n, stale, purgeNow, blockNow).1 == Produced {
        ProducedIs(o, kp, n, stale, purgeNow, blockNow);
        RestsIff(o, kp, n, stale, purgeNow, blockNow);
        assert Makes(o, n, e, Child(o, kp, n, blockNow).value);
      } else {
        NothingProduced(o, kp, n, stale, purgeNow, blockNow);
      }
  }

  /** As long as production is never forced, a block without receipts is made only behind one that
      has some, whatever is pushed, refused, restarted or rebuilt in between. */
  lemma {:induction false} NoneEmptyTwiceInRun(o: Oracles, owner: KeyPair, keys: seq<PublicKey>, now: Clock,
      events: seq<Event>)
    requires now + 1 < TWO_64 && forall e | e in events :: Unforced(e)
    ensures NoneEmptyTwice(Run(o, Genesis(o, owner, keys, now), events).chain.blocks)
  {
    hide Genesis, Step;
    var g := Genesis(o, owner, keys, now);
    OneBlockAtGenesis(o, owner, keys, now);
    if events != [] {
      var before, e := events[..|events| - 1], events[|events| - 1];
      NoneEmptyTwiceInRun(o, owner, keys, now, before);
      assert e in events;
      StepAddsOne(o, Run(o, g, before), e);
    }
  }

  lemma OneBlockAtGenesis(o: Oracles, owner: KeyPair, keys: seq<PublicKey>, now: Clock)
    requires now + 1 < TWO_64
    ensures |Genesis(o, owner, keys, now).chain.blocks| == 1
  {
    hide GenesisBlock, GenesisWallet, GenesisOwner;
  }

  lemma StepAddsOne(o: Oracles, n: Node, e: Event)
    requires n.chain.blocks != [] && Unforced(e) && NoneEmptyTwice(n.chain.blocks)
    ensures NoneEmptyTwice(Step(o, n, e).chain.blocks)
  {
    hide Step, NewChild, Sign, FeeTotal;
    StepMakesBlocks(o, n, e);
    if Step(o, n, e).chain.blocks != n.chain.blocks {
      ChildPaysFees(o, e.kp, n, e.blockNow);
    }
  }

  lemma ChildNeedsFees(o: Oracles, kp: KeyPair, n: Node, now: Clock)
    requires n.chain.blocks != [] && Head(n.chain).header.height + 1 < TWO_64
    ensures Child(o, kp, n, now).Some? <==> FeeTotal(n.pool).Some?
  {
    hide FeeTotal;
  }

  lemma ChildExists(o: Oracles, kp: KeyPair, n: Node, now: Clock)
    requires NodeInv(o, n) && MintsOk(n.chain.ledger, n.pool) && Head(n.chain).header.height + 1 < TWO_64
    ensures Child(o, kp, n, now).Some?
  {
    hide Execute, MintsOk, Replay, FeeCapped;
    ExecutedAreAdmissible(o, n.chain, n.pool);
    FeeTotalSucceeds(n.chain.ledger, n.pool, |n.pool|);
    assert n.pool[..|n.pool|] == n.pool;
  }

  /** The pending balance of every account, at any time: never negative, and what the next block
      will hold at least, so that no admitted transaction is an overdraft. */
  lemma PoolIsSolvent(o: Oracles, n: Node, id: AccountId)
    requires Reachable(o, n) && MintsOk(n.chain.ledger, n.pool) && id in n.chain.ledger.accounts
    ensures var p, after := GetAccount(n.chain.ledger, id, n.pool), ApplyReceipts(n.chain.ledger, n.pool);
            && p.Some? && after.Some? && id in after.value.accounts
            && 0 <= p.value.balance <= after.value.accounts[id].balance
            && p.value.destroyed == after.value.accounts[id].destroyed
            && (!Named(n.pool, id) ==> p.value.balance == after.value.accounts[id].balance)
  {
    ReachableInv(o, n);
    ExecutedAreAdmissible(o, n.chain, n.pool);
    hide Execute, Replay, FeeCapped, MintsOk, ApplyReceipts, Named, AllAdmissible, GetAccount;
    IndexingSucceedsIff(n.chain.ledger, n.pool);
    PendingIsConservative(n.chain.ledger, n.pool, id);
  }

  /** The cast of the payment count to 16 bits is lossless in every reachable state, so the fee is
      the doubling it is meant to be. */
  lemma AccountFeeIsExact(o: Oracles, n: Node, id: AccountId)
    requires Reachable(o, n)
    ensures n.chain.blocks != []
    ensures var count := FeeCount(n.chain.blocks, id, n.pool);
            && 1 <= count <= 47
            && AccountFee(n.chain.blocks, id, n.pool) == if count <= 46 then Some(25 * Pow(2, count)) else None
  {
    ReachableInv(o, n);
    assert FeeCount(n.chain.blocks, id, n.pool) <= 47;
    AccountFeeDoubles(n.chain.blocks, id, n.pool);
  }

  /** Exactly when pushing a transaction stops the process, in any reachable state. With the pending
      mints in order the owner's wallet has a pending balance, so that only a function table that
      points past its script is left. */
  lemma PushPanicsIff(o: Oracles, n: Node, tx: TxVariant, now: Clock)
    requires Reachable(o, n)
    ensures n.chain.blocks != []
    ensures PushTx(o, n, tx, now).1 == PushPanicked
       <==> Gate(n.txids, TxIdOf(o, tx), tx.base.expiry, now).Ok? && TxPanics(n.chain, tx, n.pool)
    ensures MintsOk(n.chain.ledger, n.pool) ==> OwnerWallet(n.chain, n.pool).Some?
  {
    ReachableInv(o, n);
    NodeInvChain(o, n);
    if MintsOk(n.chain.ledger, n.pool) {
      SolventOwner(o, n);
    }
    hide *;
    PushPanics(o, n, tx, now);
  }

  lemma SolventOwner(o: Oracles, n: Node)
    requires Reachable(o, n) && MintsOk(n.chain.ledger, n.pool)
    ensures OwnerWallet(n.chain, n.pool).Some?
  {
    SupplyIsConserved(o, n);
    hide Reachable, MintsOk, GetAccount;
    PoolIsSolvent(o, n, n.chain.ledger.owner.value.wallet);
  }

  lemma PushPanics(o: Oracles, n: Node, tx: TxVariant, now: Clock)
    requires n.chain.blocks != []
    ensures PushTx(o, n, tx, now).1 == PushPanicked
       <==> Gate(n.txids, TxIdOf(o, tx), tx.base.expiry, now).Ok? && TxPanics(n.chain, tx, n.pool)
  {
    ExecutePanicsIff(o, n.chain, tx, n.pool);
    hide Execute, Gate, TxPanics, TxIdOf;
  }
}
