// Every block a run makes is linked to the one before and survives being written and read back:
// what ties the ledger's runs to the byte form of the log.

module WellFormed {
  import opened Wrappers
  import opened Numbers
  import opened Assets
  import opened Crypto
  import opened Accounts
  import opened Transactions
  import opened Blocks
  import opened Builders
  import Engine
  import opened FeePolicy
  import opened Conservation
  import opened Accounting
  import opened Ledgers
  import opened Chains
  import opened Nodes
  import opened Runs

  // ----- scripts stay small -----

  predicate SmallScript(s: seq<byte>) {
    |s| <= MAX_SCRIPT_BYTE_SIZE
  }

  /** The scripts that the transaction would put in place are no longer than allowed. */
  predicate SmallTx(tx: TxVariant) {
    match tx
    case CreateAccountTx(_, _, account) => SmallScript(account.script)
    case UpdateAccountTx(_, _, newScript, _) => newScript.Some? ==> SmallScript(newScript.value)
    case OwnerTx(_, _, _) => true
    case MintTx(_, _, _, _, _) => true
    case TransferTx(_, _, _, _, _, _) => true
  }

  predicate SmallReceipts(rs: seq<Receipt>) {
    forall r | r in rs :: SmallTx(r.tx)
  }

  predicate SmallLedger(l: Ledger) {
    forall id | id in l.accounts :: SmallScript(l.accounts[id].script)
  }

  lemma {:induction false} PendLogSmall(acc: Account, id: AccountId, from: AccountId, log: seq<LogEntry>)
    ensures var r := PendLog(acc, id, from, log); r.Some? ==> r.value.script == acc.script
  {
    if log != [] {
      PendLogSmall(acc, id, from, log[..|log| - 1]);
    }
  }

  lemma PendReceiptSmall(acc: Account, id: AccountId, r: Receipt)
    requires SmallScript(acc.script) && SmallTx(r.tx)
    ensures var a := PendReceipt(acc, id, r); a.Some? ==> SmallScript(a.value.script)
  {
    hide PendLog;
    match r.tx
    case TransferTx(base, from, _, _, amount, _) =>
      var a := if from == id then Debit(acc, base.fee, amount) else Some(acc);
      if a.Some? {
        PendLogSmall(a.value, id, from, r.log);
      }
    case OwnerTx(_, _, _) | MintTx(_, _, _, _, _) | CreateAccountTx(_, _, _) | UpdateAccountTx(_, _, _, _) =>
  }

  lemma {:induction false} GetAccountSmall(l: Ledger, id: AccountId, rs: seq<Receipt>)
    requires SmallLedger(l) && SmallReceipts(rs)
    ensures var a := GetAccount(l, id, rs); a.Some? ==> SmallScript(a.value.script)
  {
    if rs != [] {
      hide PendReceipt, SmallScript;
      var front := rs[..|rs| - 1];
      GetAccountSmall(l, id, front);
      if GetAccount(l, id, front).Some? {
        assert rs[|rs| - 1] in rs;
        PendReceiptSmall(GetAccount(l, id, front).value, id, rs[|rs| - 1]);
      }
    }
  }

  lemma {:induction false} ApplyLogSmall(l: Ledger, from: AccountId, log: seq<LogEntry>)
    requires SmallLedger(l)
    ensures var r := ApplyLog(l, from, log); r.Some? ==> SmallLedger(r.value)
  {
    hide SmallScript, CheckedAdd;
    if log != [] {
      ApplyLogSmall(l, from, log[..|log| - 1]);
    }
  }

  lemma ApplyReceiptSmall(l: Ledger, r: Receipt)
    requires SmallLedger(l) && SmallTx(r.tx)
    ensures var l1 := ApplyReceipt(l, r); l1.Some? ==> SmallLedger(l1.value)
  {
    hide SmallScript, CheckedAdd, CheckedSub, ApplyLog;
    match r.tx
    case TransferTx(base, from, _, _, amount, _) =>
      var cost := CheckedAdd(base.fee, amount);
      if cost.Some? && SubBal(l, from, cost.value).Some? {
        ApplyLogSmall(SubBal(l, from, cost.value).value, from, r.log);
      }
    case OwnerTx(_, _, _) | MintTx(_, _, _, _, _) | CreateAccountTx(_, _, _) | UpdateAccountTx(_, _, _, _) =>
  }

  lemma {:induction false} ApplyReceiptsSmall(l: Ledger, rs: seq<Receipt>)
    requires SmallLedger(l) && SmallReceipts(rs)
    ensures var l1 := ApplyReceipts(l, rs); l1.Some? ==> SmallLedger(l1.value)
  {
    if rs != [] {
      hide SmallLedger, SmallTx, ApplyReceipt;
      var front := rs[..|rs| - 1];
      assert rs[|rs| - 1] in rs;
      ApplyReceiptsSmall(l, front);
      if ApplyReceipts(l, front).Some? {
        ApplyReceiptSmall(ApplyReceipts(l, front).value, rs[|rs| - 1]);
      }
    }
  }

  lemma ApplyBlockSmall(l: Ledger, b: Block)
    requires SmallLedger(l) && SmallReceipts(b.receipts)
    ensures var l1 := ApplyBlock(l, b); l1.Some? ==> SmallLedger(l1.value)
  {
    ApplyReceiptsSmall(l, b.receipts);
    hide SmallScript, CheckedAdd, ApplyReceipts;
  }

  // ----- what execution bounds -----

  lemma TransferLogBound(o: Oracles, ch: Chain, tx: TxVariant, rs: seq<Receipt>, log: seq<LogEntry>)
    requires ch.blocks != [] && tx.TransferTx? && CheckTransfer(ch, tx, rs).Ok?
    requires RunScript(o, ch, tx, rs, CheckTransfer(ch, tx, rs).value.script) == Executed(log)
    requires SmallLedger(ch.ledger) && SmallReceipts(rs)
    ensures |log| <= MAX_SCRIPT_BYTE_SIZE + 1
  {
    GetAccountSmall(ch.ledger, tx.from, rs);
    FeesCharged(ch, tx.from, rs);
    SuccessAccountsForAmount(ScriptData(o, ch, tx, rs, CheckTransfer(ch, tx, rs).value.script));
    hide Engine.Eval, GetAccount, NetworkFee, AccountFee, Transferred, LogShape, GetAccountInfo, SmallReceipts,
         SmallLedger;
  }

  /** What executes installs no long script, has few signatures, and has a log no longer than the
      longest script can write. */
  lemma ExecutedIsSmall(o: Oracles, ch: Chain, tx: TxVariant, rs: seq<Receipt>, log: seq<LogEntry>)
    requires ch.blocks != [] && Execute(o, ch, tx, rs) == Executed(log)
    requires SmallLedger(ch.ledger) && SmallReceipts(rs)
    ensures SmallTx(tx) && |tx.base.sigs| <= MAX_TX_SIGNATURES && |log| <= MAX_SCRIPT_BYTE_SIZE + 1
  {
    hide GetAccountInfo, TotalFee, CheckTransfer, Engine.Eval, SmallReceipts, SmallLedger, IsValidPermissions, Signed,
         CheckedMul;
    if tx.TransferTx? {
      TransferLogBound(o, ch, tx, rs, log);
    }
  }

  // ----- linked chains -----

  /** The block, before the number of its receipts is looked at, fits its length prefixes. */
  predicate ContentFits(b: Block) {
    b.signer.Some? && forall r | r in b.receipts :: ReceiptFits(r)
  }

  /** Heights count up from 0, every header holds the hash of the one before and of its receipts. */
  predicate Linked(o: Oracles, blocks: seq<Block>) {
    forall h | 0 <= h < |blocks| ::
      && blocks[h].header.height == h
      && blocks[h].header.receiptRoot == ReceiptRoot(o, blocks[h].receipts)
      && (h > 0 ==> blocks[h].header.previousHash == HeaderHash(o, blocks[h - 1]))
  }

  predicate ChainOk(o: Oracles, n: Node)
  {
    && Linked(o, n.chain.blocks)
    && (forall b | b in n.chain.blocks :: ContentFits(b))
    && SmallLedger(n.chain.ledger)
    && SmallReceipts(n.pool)
    && (forall r | r in n.pool :: ReceiptFits(r))
  }

  lemma GenesisScriptSmall()
    ensures SmallScript(GenesisScript())
  {
    hide Body, Table;
  }

  lemma GenesisIsOk(o: Oracles, kp: KeyPair, keys: seq<PublicKey>, now: Clock)
    requires now + 1 < TWO_64 && |keys| < 256
    ensures ChainOk(o, Genesis(o, kp, keys, now))
  {
    GenesisScriptSmall();
    hide GenesisScript, ReceiptRoot;
    var n := Genesis(o, kp, keys, now);
    var b := n.chain.blocks[0];
    assert forall r | r in b.receipts :: ReceiptFits(r);
  }

  lemma AcceptedIsLinked(o: Oracles, ch: Chain, b: Block)
    requires ch.blocks != [] && Linked(o, ch.blocks) && VerifyBlock(o, ch, b) == Accepted
    ensures Linked(o, ch.blocks + [b])
  {
    hide VerifyReceipts, ReceiptRoot, HeaderHash;
    var bs := ch.blocks + [b];
    forall h | 0 <= h < |bs|
      ensures && bs[h].header.height == h
              && bs[h].header.receiptRoot == ReceiptRoot(o, bs[h].receipts)
              && (h > 0 ==> bs[h].header.previousHash == HeaderHash(o, bs[h - 1]))
    {
      if h < |ch.blocks| {
        assert bs[h] == ch.blocks[h];
      }
    }
  }

  lemma CrashIsOk(o: Oracles, n: Node)
    requires ChainOk(o, n)
    ensures ChainOk(o, Crash(n))
  {
    hide Linked, ContentFits, SmallLedger;
  }

  lemma PushIsOk(o: Oracles, n: Node, tx: TxVariant, now: Clock)
    requires n.chain.blocks != [] && ChainOk(o, n) && TxFits(tx)
    ensures ChainOk(o, PushTx(o, n, tx, now).0)
  {
    CrashIsOk(o, n);
    hide Linked, ContentFits, SmallLedger, SmallTx, Execute, Gate, TxFits, TxIdOf;
    var (n', r) := PushTx(o, n, tx, now);
    if r == Pushed {
      var rec := n'.pool[|n.pool|];
      ExecutedIsSmall(o, n.chain, tx, n.pool, rec.log);
      assert n'.pool == n.pool + [rec];
    }
  }

  lemma ProduceAccepts(o: Oracles, kp: KeyPair, n: Node, stale: bool, purgeNow: Clock, blockNow: Clock) returns (b: Block)
    requires n.chain.blocks != []
    ensures var n' := Produce(o, kp, n, stale, purgeNow, blockNow).0;
            n' != Flush(n, purgeNow) ==>
              && b.receipts == n.pool && b.signer.Some?
              && VerifyBlock(o, n.chain, b) == Accepted
              && Some(n'.chain.ledger) == ApplyBlock(n.chain.ledger, b)
              && n'.chain.blocks == n.chain.blocks + [b] && n'.pool == []
  {
    hide VerifyBlock, ApplyBlock, FeeTotal, Purge;
    var child := NewChild(o, Head(n.chain), n.pool, blockNow);
    b := if child.Some? then Sign(o, child.value, kp) else Head(n.chain);
  }

  lemma ProduceIsOk(o: Oracles, kp: KeyPair, n: Node, stale: bool, purgeNow: Clock, blockNow: Clock)
    requires n.chain.blocks != [] && ChainOk(o, n)
    ensures ChainOk(o, Produce(o, kp, n, stale, purgeNow, blockNow).0)
  {
    hide Linked, SmallLedger, SmallReceipts, ReceiptFits, Produce, VerifyBlock, ApplyBlock, Purge;
    var b := ProduceAccepts(o, kp, n, stale, purgeNow, blockNow);
    var n' := Produce(o, kp, n, stale, purgeNow, blockNow).0;
    if n' == Flush(n, purgeNow) {
      CrashIsOk(o, n);
    } else {
      AcceptedIsLinked(o, n.chain, b);
      ApplyBlockSmall(n.chain.ledger, b);
      CrashIsOk(o, n);
    }
  }

  predicate PushFits(e: Event) {
    e.PushEvent? ==> TxFits(e.tx)
  }

  lemma StepIsOk(o: Oracles, n: Node, e: Event)
    requires NodeInv(o, n) && ChainOk(o, n) && PushFits(e)
    ensures n.chain.blocks != [] && ChainOk(o, Step(o, n, e))
  {
    hide PushTx, Produce, TxFits, Replay, LedgerInv, FeeCapped, AllExecuted, Linked, ContentFits, SmallLedger,
         SmallReceipts;
    match e
    case PushEvent(tx, now) => PushIsOk(o, n, tx, now);
    case ProduceEvent(kp, stale, purgeNow, blockNow) => ProduceIsOk(o, kp, n, stale, purgeNow, blockNow);
    case RestartEvent => CrashIsOk(o, n);
    case ReindexEvent(now) =>
      CrashIsOk(o, n);
      ReindexKeeps(o, n, now);
  }

  lemma {:induction false} RunIsOk(o: Oracles, n: Node, events: seq<Event>)
    requires n.chain.blocks != [] && NodeInv(o, n) && ChainOk(o, n)
    requires forall e | e in events :: PushFits(e)
    ensures ChainOk(o, Run(o, n, events))
  {
    if events != [] {
      hide NodeInv, ChainOk, Step, PushFits;
      var before, e := events[..|events| - 1], events[|events| - 1];
      assert e in events;
      RunIsOk(o, n, before);
      Runs.RunKeeps(o, n, before);
      StepIsOk(o, Run(o, n, before), e);
    }
  }

  lemma StepIsLinked(o: Oracles, n: Node, e: Event)
    requires n.chain.blocks != [] && Linked(o, n.chain.blocks)
    ensures Linked(o, Nodes.Step(o, n, e).chain.blocks)
  {
    hide Linked, Execute, TxIdOf, Produce, VerifyBlock, ApplyBlock, Purge, Replay, RebuildTxids;
    if e.ProduceEvent? {
      var b := ProduceAccepts(o, e.kp, n, e.stale, e.purgeNow, e.blockNow);
      if Produce(o, e.kp, n, e.stale, e.purgeNow, e.blockNow).0 != Flush(n, e.purgeNow) {
        AcceptedIsLinked(o, n.chain, b);
      }
    }
  }

  lemma {:induction false} RunIsLinked(o: Oracles, n: Node, events: seq<Event>)
    requires n.chain.blocks != [] && Linked(o, n.chain.blocks)
    ensures Linked(o, Run(o, n, events).chain.blocks)
  {
    if events != [] {
      hide Linked, Nodes.Step;
      var front := events[..|events| - 1];
      RunIsLinked(o, n, front);
      StepIsLinked(o, Run(o, n, front), events[|events| - 1]);
    }
  }

  lemma GenesisIsLinked(o: Oracles, kp: KeyPair, keys: seq<PublicKey>, now: Clock)
    requires now + 1 < TWO_64
    ensures Linked(o, Genesis(o, kp, keys, now).chain.blocks)
  {
    hide GenesisWallet, GenesisOwner, ReceiptRoot;
  }

  /** The chain after genesis and any run: heights count up, every block is linked to the one
      before, and it fits its byte form unless its receipts are too many for the count. */
  lemma RunsAreLinked(o: Oracles, owner: KeyPair, keys: seq<PublicKey>, now: Clock, events: seq<Event>)
    requires now + 1 < TWO_64 && |keys| < 256
    requires forall e | e in events :: PushFits(e)
    ensures var blocks := Run(o, Genesis(o, owner, keys, now), events).chain.blocks;
            && Linked(o, blocks)
            && forall b | b in blocks :: BlockFits(b) <==> |b.receipts| < 0x1_0000_0000
  {
    GenesisInv(o, owner, keys, now);
    GenesisIsOk(o, owner, keys, now);
    hide NodeInv, Genesis, PushFits, ReceiptFits, Linked;
    var g := Genesis(o, owner, keys, now);
    assert g.chain.blocks != [] by { NodeInvChain(o, g); }
    RunIsOk(o, g, events);
    var blocks := Run(o, g, events).chain.blocks;
    forall b | b in blocks ensures BlockFits(b) <==> |b.receipts| < 0x1_0000_0000 {
      assert ContentFits(b);
    }
  }
}
