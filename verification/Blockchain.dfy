// The chain as an object over its store and its index: blockchain/mod.rs. Every method is proved
// against the function that the results about whole runs are about.

module Blockchains {
  import opened Wrappers
  import opened Numbers
  import opened Assets
  import opened Crypto
  import opened Accounts
  import opened Transactions
  import opened Blocks
  import opened Engine
  import opened Interpreter
  import opened Ledgers
  import opened FeePolicy
  import opened Tariffs
  import opened Payments
  import opened Chains
  import opened Nodes
  import opened Frames
  import opened Caches
  import opened Filters
  import opened Indexes
  import opened Stores

  // ----- loops over values -----

  /** The log of one receipt on the pending view of account `id`. */
  method PendingLog(account: Account, id: AccountId, from: AccountId, log: seq<LogEntry>) returns (r: Option<Account>)
    ensures r == PendLog(account, id, from, log)
    ensures r.Some? && !(from == id && Closes(log)) ==> r.value.balance == account.balance + PaidTo(log, id)
  {
    hide CheckedAdd;
    var acc := account;
    var i := 0;
    assert log[..0] == [];
    while i < |log|
      invariant 0 <= i <= |log|
      invariant PendLog(account, id, from, log[..i]) == Some(acc)
    {
      assert log[..i + 1][..i] == log[..i];
      match log[i] {
        case Transfer(to, amount) =>
          if to == id {
            var bal := CheckedAdd(acc.balance, amount);
            if bal.None? {
              PendLogFails(account, id, from, log, i + 1);
              return None;
            }
            acc := acc.(balance := bal.value);
          }
        case Destroy(_) =>
          if from == id {
            acc := acc.(destroyed := true, balance := 0);
          }
      }
      i := i + 1;
    }
    assert log[..|log|] == log;
    PendLogPays(account, id, from, log);
    r := Some(acc);
  }

  lemma {:induction false} PendLogFails(acc: Account, id: AccountId, from: AccountId, log: seq<LogEntry>, k: nat)
    requires k <= |log| && PendLog(acc, id, from, log[..k]).None?
    ensures PendLog(acc, id, from, log).None?
    decreases |log| - k
  {
    if k == |log| {
      assert log[..k] == log;
    } else {
      assert log[..k + 1][..k] == log[..k];
      PendLogFails(acc, id, from, log, k + 1);
    }
  }

  /** One receipt on the pending view of account `id`. */
  method PendingReceipt(account: Account, id: AccountId, receipt: Receipt) returns (r: Option<Account>)
    ensures r == PendReceipt(account, id, receipt)
  {
    hide CheckedAdd, CheckedSub, PendLog;
    var acc := account;
    match receipt.tx {
      case OwnerTx(_, _, _) =>
      case MintTx(_, to, amount, _, _) =>
        if to == id {
          var bal := CheckedAdd(acc.balance, amount);
          if bal.None? {
            return None;
          }
          acc := acc.(balance := bal.value);
        }
      case CreateAccountTx(base, creator, created) =>
        if creator == id {
          return Debit(acc, created.balance, base.fee);
        }
      case UpdateAccountTx(base, accountId, newScript, newPermissions) =>
        if accountId == id {
          var bal := CheckedSub(acc.balance, base.fee);
          if bal.None? {
            return None;
          }
          acc := acc.(balance := bal.value);
        }
        if newScript.Some? {
          acc := acc.(script := newScript.value);
        }
        if newPermissions.Some? {
          acc := acc.(permissions := newPermissions.value);
        }
      case TransferTx(base, from, _, _, amount, _) =>
        if from == id {
          var debited := Debit(acc, base.fee, amount);
          if debited.None? {
            return None;
          }
          acc := debited.value;
        }
        r := PendingLog(acc, id, from, receipt.log);
        return;
    }
    r := Some(acc);
  }

  lemma {:induction false} GetAccountFails(l: Ledger, id: AccountId, rs: seq<Receipt>, k: nat)
    requires k <= |rs| && Ledgers.GetAccount(l, id, rs[..k]).None?
    ensures Ledgers.GetAccount(l, id, rs).None?
    decreases |rs| - k
  {
    if k == |rs| {
      assert rs[..k] == rs;
    } else {
      assert rs[..k + 1][..k] == rs[..k];
      GetAccountFails(l, id, rs, k + 1);
    }
  }

  /** The receipts that the account pays for. */
  method CountPayments(rs: seq<Receipt>, id: AccountId) returns (n: nat)
    ensures n == CountPaid(rs, id)
  {
    n := 0;
    assert rs[..0] == [];
    for i := 0 to |rs|
      invariant n == CountPaid(rs[..i], id)
    {
      assert rs[..i + 1][..i] == rs[..i];
      if PaidBy(rs[i], id) {
        n := n + 1;
      }
    }
    assert rs[..|rs|] == rs;
  }

  // ----- the chain -----

  class Blockchain {
    const o: Oracles
    const indexer: Indexer
    const store: BlockStore

    ghost predicate Valid()
      reads this, store, indexer
    {
      store.o == o && store.indexer == indexer && store.Valid() && store.Synced()
    }

    /** The indexed state and the blocks, as a value. */
    ghost function View(): Chain
      reads store, indexer
    {
      Chain(indexer.Funds(), store.log)
    }

    /** The file is the log of the blocks and the index knows where each of them was written. */
    ghost predicate Recorded()
      reads this, store, indexer
    {
      store.file == FileOf(o, store.log) && indexer.bytePos == WrittenAt(o, store.log)
    }

    constructor (o: Oracles, indexer: Indexer, store: BlockStore)
      ensures this.o == o && this.indexer == indexer && this.store == store
    {
      this.o, this.indexer, this.store := o, indexer, store;
    }

    method GetBlock(h: u64) returns (b: Block)
      requires Valid() && h < |View().blocks|
      ensures b == View().blocks[h]
    {
      hide StoredBelow, StoredAt, CacheOf, Cached;
      var r := store.Get(h);
      b := r.block;
    }

    method GetChainHead() returns (b: Block)
      requires Valid()
      ensures View().blocks != [] && b == Head(View())
    {
      hide StoredBelow, StoredAt, CacheOf, Cached;
      b := GetBlock(store.height);
    }

    method GetAccount(id: AccountId, rs: seq<Receipt>) returns (r: Option<Account>)
      ensures r == Ledgers.GetAccount(indexer.Funds(), id, rs)
    {
      hide PendReceipt;
      r := indexer.GetAccount(id);
      assert rs[..0] == [];
      if r.None? {
        GetAccountFails(indexer.Funds(), id, rs, 0);
        return;
      }
      for i := 0 to |rs|
        invariant r.Some? && r == Ledgers.GetAccount(indexer.Funds(), id, rs[..i])
      {
        assert rs[..i + 1][..i] == rs[..i];
        r := PendingReceipt(r.value, id, rs[i]);
        if r.None? {
          GetAccountFails(indexer.Funds(), id, rs, i + 1);
          return;
        }
      }
      assert rs[..|rs|] == rs;
    }

    /** Walks back over the blocks until four in a row hold no payment by the account. */
    method GetAccountFee(id: AccountId, rs: seq<Receipt>) returns (r: Option<Asset>)
      requires Valid()
      ensures r == AccountFee(View().blocks, id, rs)
    {
      hide CheckedPow, CheckedMul, CountPaid, StoredBelow, StoredAt, CacheOf, Cached;
      ghost var blocks := View().blocks;
      var pending := CountPayments(rs, id);
      var count, delta := 1 + pending, 0;
      var i := store.height + 1;
      while i > 0
        invariant 0 <= i <= |blocks| && 0 <= delta
        invariant count + WindowCount(blocks, id, i, delta) == FeeCount(blocks, id, rs)
      {
        i := i - 1;
        delta := delta + 1;
        var block := GetBlock(i);
        var paid := CountPayments(block.receipts, id);
        count := count + paid;
        if paid > 0 {
          delta := 0;
        }
        if delta == FEE_RESET_WINDOW {
          break;
        }
      }
      assert count == FeeCount(blocks, id, rs);
      var p := CheckedPow(GRAEL_FEE_MULT, count % 0x1_0000);
      if p.None? {
        return None;
      }
      r := CheckedMul(GRAEL_FEE_MIN, p.value);
    }

    method GetNetworkFee() returns (r: Option<Asset>)
      requires Valid()
      ensures View().blocks != [] && r == NetworkFee(View().blocks) == FeeFor(Recent(View().blocks))
    {
      hide CheckedPow, CheckedMul, StoredBelow, StoredAt, CacheOf, Cached, FeeFor, Recent;
      ghost var blocks := View().blocks;
      NetworkFeeIs(blocks);
      var maxHeight := store.height - store.height % 5;
      var minHeight := if maxHeight > NETWORK_FEE_AVG_WINDOW then maxHeight - NETWORK_FEE_AVG_WINDOW else 0;
      var count := 1;
      var i := minHeight;
      while i <= maxHeight
        invariant minHeight <= i <= maxHeight + 1
        invariant count == 1 + ReceiptsIn(blocks, minHeight, i - 1)
      {
        var block := GetBlock(i);
        count := count + |block.receipts|;
        i := i + 1;
      }
      count := count / NETWORK_FEE_AVG_WINDOW;
      if count > 0xFFFF {
        return None;
      }
      var p := CheckedPow(GRAEL_FEE_NET_MULT, count);
      if p.None? {
        return None;
      }
      r := CheckedMul(GRAEL_FEE_MIN, p.value);
    }

    method GetAccountInfo(id: AccountId, rs: seq<Receipt>) returns (r: Option<AccountInfo>)
      requires Valid()
      ensures View().blocks != [] && r == Chains.GetAccountInfo(View(), id, rs)
    {
      hide Ledgers.GetAccount, NetworkFee, AccountFee;
      var account := GetAccount(id, rs);
      if account.None? {
        return None;
      }
      var netFee := GetNetworkFee();
      if netFee.None? {
        return None;
      }
      var accountFee := GetAccountFee(id, rs);
      if accountFee.None? {
        return None;
      }
      r := Some(AccountInfo(account.value, netFee.value, accountFee.value));
    }

    /** The engine sees the chain through a snapshot of the accounts, as nothing writes meanwhile. */
    method EvalScript(tx: TxVariant, rs: seq<Receipt>, script: seq<byte>) returns (r: ExecResult)
      requires Valid() && |tx.base.sigs| <= MAX_TX_SIGNATURES
      ensures View().blocks != [] && r == RunScript(o, View(), tx, rs, script)
    {
      hide Engine.Eval, Lookup;
      var head := GetChainHead();
      var funds := Ledger(indexer.accounts, indexer.owner, indexer.supply);
      var engine := new ScriptEngine(EngineData(o, script, tx, Lookup(funds, rs), head.header.timestamp));
      var verdict := engine.Eval();
      r := ScriptOutcome(tx, verdict);
    }

    /** The owner's wallet with its pending changes; none ends the process. */
    method GetOwnerWallet(rs: seq<Receipt>) returns (r: Option<Account>)
      requires Valid()
      ensures r == OwnerWallet(View(), rs)
    {
      if indexer.owner.None? || !indexer.owner.value.OwnerTx? {
        return None;
      }
      r := GetAccount(indexer.owner.value.wallet, rs);
    }

    method ExecuteTx(tx: TxVariant, rs: seq<Receipt>) returns (r: ExecResult)
      requires Valid()
      ensures View().blocks != [] && r == Execute(o, View(), tx, rs)
    {
      hide Ledgers.GetAccount, Chains.GetAccountInfo, RunScript, OwnerWallet, DecideCreate, DecideUpdate, DecideTransfer,
           CheckedAdd;
      if |tx.base.sigs| > MAX_TX_SIGNATURES {
        return Refused(TooManySignatures);
      }
      match tx
      case OwnerTx(base, _, wallet) =>
        if base.fee != 0 {
          return Refused(InvalidFeeAmount);
        }
        var newWallet := GetAccount(wallet, rs);
        if newWallet.None? {
          return Refused(TxErr.AccountNotFound);
        }
        var prev := GetOwnerWallet(rs);
        if prev.None? {
          return Panicked;
        }
        r := EvalScript(tx, rs, prev.value.script);
      case MintTx(base, _, amount, _, _) =>
        if base.fee != 0 {
          return Refused(InvalidFeeAmount);
        } else if amount < 0 {
          return Refused(TxErr.InvalidAmount);
        }
        var owner := GetOwnerWallet(rs);
        if owner.None? {
          return Panicked;
        }
        r := EvalScript(tx, rs, owner.value.script);
        if r.Executed? && CheckedAdd(indexer.supply, amount).None? {
          return Refused(TxErr.Arithmetic);
        }
      case CreateAccountTx(_, creator, account) =>
        var info := GetAccountInfo(creator, rs);
        r := FromCheck(DecideCreate(o, tx, account.id in indexer.accounts, rs, info));
      case UpdateAccountTx(_, accountId, _, _) =>
        var info := GetAccountInfo(accountId, rs);
        r := FromCheck(DecideUpdate(o, tx, info));
      case TransferTx(_, from, _, _, _, _) =>
        var info := GetAccountInfo(from, rs);
        var sender := DecideTransfer(tx, info);
        if sender.Err? {
          return Refused(sender.error);
        }
        r := EvalScript(tx, rs, sender.value.script);
    }

    method VerifyReceipts(rs: seq<Receipt>) returns (r: BlockCheck)
      requires Valid()
      ensures View().blocks != [] && r == Chains.VerifyReceipts(o, View(), rs, 0)
    {
      hide Execute;
      var i := 0;
      while i < |rs|
        invariant 0 <= i <= |rs|
        invariant Chains.VerifyReceipts(o, View(), rs, i) == Chains.VerifyReceipts(o, View(), rs, 0)
      {
        var outcome := ExecuteTx(rs[i].tx, rs[..i]);
        match outcome
        case Executed(_) => i := i + 1;
        case Refused(e) => return Rejected(BadTx(e));
        case Panicked => return CheckPanicked;
      }
      r := Accepted;
    }

    method VerifyBlock(b: Block) returns (r: BlockCheck)
      requires Valid()
      ensures View().blocks != [] && r == Chains.VerifyBlock(o, View(), b)
    {
      hide Chains.VerifyReceipts, ReceiptRoot, HeaderHash;
      var prev := GetChainHead();
      if prev.header.height + 1 != b.header.height {
        return Rejected(InvalidBlockHeight);
      } else if ReceiptRoot(o, b.receipts) != b.header.receiptRoot {
        return Rejected(InvalidReceiptRoot);
      } else if b.header.previousHash != HeaderHash(o, prev) {
        return Rejected(InvalidPrevHash);
      }
      if b.signer.None? {
        return Rejected(InvalidSignature);
      }
      if indexer.owner.None? || !indexer.owner.value.OwnerTx? {
        return CheckPanicked;
      }
      if b.signer.value.pubKey != indexer.owner.value.minter {
        return Rejected(InvalidSignature);
      }
      if !o.verify(b.signer.value.pubKey, HeaderHash(o, b), b.signer.value.signature) {
        return Rejected(InvalidSignature);
      }
      r := VerifyReceipts(b.receipts);
    }

    /** The indexed block goes to the log and everything is committed. */
    method Append(batch: WriteBatch, b: Block)
      requires Valid() && b.header.height == store.height + 1 && b.signer.Some?
      requires batch.indexer == indexer && batch.bytePos == map[] && batch.height == None
      modifies store, indexer, batch
      ensures Writable(b) ==> Valid()
      ensures View() == Chain(old(batch.View()), old(store.log) + [b])
      ensures store.file == old(store.file) + Frame(o, b)
      ensures indexer.bytePos == old(indexer.bytePos)[b.header.height := old(|store.file|)]
      ensures indexer.txids == old(indexer.txids) && indexer.status == old(indexer.status)
    {
      hide Writable, Frame, StoredBelow, CacheOf, Cached, ReadsAs, Numbered;
      ghost var pos := |store.file|;
      store.Insert(batch, b);
      if Writable(b) {
        Committed(o, store.file, indexer.bytePos, store.log, pos);
      }
      batch.Commit();
      assert old(indexer.bytePos) + map[b.header.height := pos] == old(indexer.bytePos)[b.header.height := pos];
      if Writable(b) {
        store.SyncedIsValid();
      }
    }

    /** Verified, indexed into a batch, appended to the log and committed; or nothing at all. */
    method InsertBlock(b: Block) returns (r: ProduceResult)
      requires Valid()
      modifies store, indexer
      ensures r != Produced || Writable(b) ==> Valid()
      ensures indexer.txids == old(indexer.txids) && indexer.status == old(indexer.status)
      ensures old(Recorded()) ==> Recorded()
      ensures if r == Produced
              then store.file == old(store.file) + Frame(o, b)
                   && indexer.bytePos == old(indexer.bytePos)[b.header.height := old(|store.file|)]
              else store.file == old(store.file) && indexer.bytePos == old(indexer.bytePos)
      ensures old(View()).blocks != [] && (View(), r) == Nodes.InsertBlock(o, old(View()), b)
    {
      hide Chains.VerifyBlock, ApplyBlock, Writable, Frame, StoredBelow, StoredAt, CacheOf, Cached, FileOf, WrittenAt;
      var check := VerifyBlock(b);
      match check
      case Rejected(e) => return ProduceFailed(e);
      case CheckPanicked => return ProducePanicked;
      case Accepted =>
      var batch := new WriteBatch(indexer);
      var indexed := IndexBlock(batch, b);
      if !indexed {
        return ProducePanicked;
      }
      AcceptedFacts(o, View(), b);
      AppendingIsIncremental(o, store.log, b);
      Append(batch, b);
      r := Produced;
    }

    /** The whole block when one of its receipts concerns the filter, otherwise header and signer.
        Fails on a block that concerns none and has no signer. */
    method GetFilteredBlock(h: u64, filter: BlockFilter) returns (ok: bool, r: Option<FilteredBlock>)
      requires Valid()
      ensures h >= |View().blocks| ==> ok && r == None
      ensures h < |View().blocks| ==>
                var b := View().blocks[h];
                && ok == (BlockMatches(filter, b) || b.signer.Some?)
                && (ok ==> r == Some(if BlockMatches(filter, b) then Full(b) else Header(b.header, b.signer.value)))
    {
      hide StoredBelow, StoredAt, CacheOf, Cached, ReceiptMatches;
      if h > store.height {
        return true, None;
      }
      var b := GetBlock(h);
      var hit := filter != {};
      if hit {
        hit := AnyReceiptMatches(filter, b.receipts);
      }
      if hit {
        return true, Some(Full(b));
      }
      if b.signer.None? {
        return false, None;
      }
      return true, Some(Header(b.header, b.signer.value));
    }

    // ----- reindexing -----

    /** A first commit of the accounts created in the genesis block, so that the scan can start. */
    method PreIndex(genesis: Block)
      requires indexer.Funds() == Ledger(map[], None, 0)
      modifies indexer
      ensures indexer.Funds() == PreIndexed(genesis)
      ensures indexer.bytePos == old(indexer.bytePos) && indexer.height == old(indexer.height)
      ensures indexer.txids == old(indexer.txids) && indexer.status == old(indexer.status)
    {
      var rs := genesis.receipts;
      assert rs[..0] == [];
      for i := 0 to |rs|
        invariant indexer.Funds() == Ledger(CreatedAccounts(rs[..i]), None, 0)
        invariant indexer.bytePos == old(indexer.bytePos) && indexer.height == old(indexer.height)
        invariant indexer.txids == old(indexer.txids) && indexer.status == old(indexer.status)
      {
        assert rs[..i + 1][..i] == rs[..i];
        if rs[i].tx.CreateAccountTx? {
          var batch := new WriteBatch(indexer);
          batch.InsertOrUpdateAccount(rs[i].tx.account);
          batch.Commit();
          assert indexer.bytePos == old(indexer.bytePos);
        }
      }
      assert rs[..|rs|] == rs;
    }

    method InsertLive(rs: seq<Receipt>, now: u64)
      modifies indexer`txids
      ensures indexer.txids == old(indexer.txids) + LiveTxids(o, rs, now)
    {
      hide TxIdOf;
      assert rs[..0] == [];
      assert indexer.txids + map[] == indexer.txids;
      for i := 0 to |rs|
        invariant indexer.txids == old(indexer.txids) + LiveTxids(o, rs[..i], now)
      {
        assert rs[..i + 1][..i] == rs[..i];
        var tx := rs[i].tx;
        if tx.base.expiry > now {
          indexer.InsertTxid(TxIdOf(o, tx), tx.base.expiry);
        }
      }
      assert rs[..|rs|] == rs;
    }

    /** From the head back to the first block older than the longest expiry. Fails where a block
        cannot be had. */
    method RebuildTxidIndex(now: u64) returns (ok: bool)
      modifies indexer`txids
      ensures old(Valid()) ==>
                ok && Valid() && indexer.txids == old(indexer.txids) + RebuildTxids(o, store.log, |store.log|, now)
    {
      hide StoredBelow, StoredAt, CacheOf, Cached, LiveTxids, RebuildTxids;
      ghost var valid := Valid();
      ghost var before, blocks := indexer.txids, store.log;
      var i: nat := indexer.height + 1;
      while i > 0
        invariant valid ==> Valid() && store.log == blocks && i <= |blocks|
        invariant valid ==>
                    indexer.txids + RebuildTxids(o, blocks, i, now) == before + RebuildTxids(o, blocks, |blocks|, now)
        decreases i
      {
        i := i - 1;
        var r := store.Get(i);
        if !r.Found? {
          return false;
        }
        if valid {
          RebuildStep(o, blocks, i, now);
        }
        if (now - r.block.header.timestamp) % TWO_64 > TX_MAX_EXPIRY_TIME {
          assert valid ==> indexer.txids + map[] == indexer.txids;
          return true;
        }
        ghost var was := indexer.txids;
        InsertLive(r.block.receipts, now);
        if valid {
          MergeAssoc(was, LiveTxids(o, r.block.receipts, now), RebuildTxids(o, blocks, i, now));
        }
      }
      RebuildZero(o, blocks, now);
      assert indexer.txids + map[] == indexer.txids;
      ok := true;
    }

    /** `reindex` with the index deleted. Fails where the process would stop. */
    method Reindex(autoTrim: bool, now: u64) returns (ok: bool)
      requires store.o == o && store.indexer == indexer && store.Blank()
      requires indexer.Funds() == Ledger(map[], None, 0) && indexer.txids == map[]
      modifies store, indexer
      ensures Replayed(o, old(store.file), autoTrim).None? ==> !ok
      ensures var r := Replayed(o, old(store.file), autoTrim);
              r.Some? ==>
                && store.file == r.value.file && indexer.Funds() == r.value.funds
                && indexer.bytePos == r.value.positions && indexer.height == HeightOf(r.value.blocks)
                && indexer.status == Complete
                && (ok ==> CanLoad(o, r.value.file, r.value.positions, HeightOf(r.value.blocks), true))
      ensures var r := Replayed(o, old(store.file), autoTrim);
              r.Some? && OpensInOrder(o, old(store.file)) ==>
                && ok && Valid() && View() == Chain(r.value.funds, r.value.blocks)
                && indexer.txids == RebuildTxids(o, r.value.blocks, |r.value.blocks|, now)
    {
      hide RawRead, Rebuild, RebuildTxids, PreIndexed, CacheOf, StoredBelow, CanLoad, OpensInOrder;
      var genesis := RawRead(o, store.file, 0);
      if genesis.ReadPanic? {
        NoReplay(o, store.file, autoTrim);
        return false;
      }
      if genesis.ReadOk? {
        if |genesis.block.receipts| != 2 {
          return false;
        }
        PreIndex(genesis.block);
      }
      ok := store.ReindexBlocks(autoTrim);
      if !ok {
        return;
      }
      ok := RebuildTxidIndex(now);
      assert forall m: map<TxId, u64> :: map[] + m == m;
    }

    /** The first block of an empty log, with its owner and wallet indexed directly. */
    method InsertFirst(b: Block, owner: TxVariant, wallet: Account)
      requires store.o == o && store.indexer == indexer && store.Blank() && store.file == []
      requires indexer.Funds() == Ledger(map[], None, 0)
      requires b.header.height == 0 && b.signer.Some? && owner.OwnerTx?
      modifies store, indexer
      ensures Writable(b) ==> Valid()
      ensures indexer.txids == old(indexer.txids) && indexer.status == Complete
      ensures View() == Chain(Ledger(map[wallet.id := wallet], Some(owner), 0), [b])
      ensures Recorded() && store.file == Frame(o, b) && indexer.bytePos == map[0 := 0]
    {
      hide Writable, Frame, ReadsAs, CacheOf, Cached, StoredBelow, StoredAt, Numbered, FileOf, WrittenAt;
      var batch := new WriteBatch(indexer);
      store.InsertGenesis(batch, b);
      batch.SetOwner(owner);
      batch.InsertOrUpdateAccount(wallet);
      FirstIsRecorded(o, b);
      if Writable(b) {
        NoneStored(o, store.file, indexer.bytePos, b);
        Committed(o, store.file, indexer.bytePos, store.log, 0);
      }
      batch.Commit();
      assert map[] + batch.bytePos == map[0 := 0];
      indexer.status := Complete;
      if Writable(b) {
        store.SyncedIsValid();
      }
    }

    method CreateGenesisBlock(kp: KeyPair, keys: seq<PublicKey>, now: Clock)
      requires store.o == o && store.indexer == indexer && store.Blank() && store.file == []
      requires indexer.Funds() == Ledger(map[], None, 0)
      requires now + 1 < TWO_64
      modifies store, indexer
      ensures Writable(GenesisBlock(o, kp, keys, now)) ==> Valid()
      ensures indexer.txids == old(indexer.txids) && indexer.status == Complete
      ensures View() == Genesis(o, kp, keys, now).chain
      ensures Recorded() && indexer.bytePos == map[0 := 0]
    {
      GenesisFacts(o, kp, keys, now);
      hide GenesisWallet, GenesisOwner, GenesisBlock, Writable, Frame, Valid, BlockStore.Blank, FileOf, WrittenAt;
      InsertFirst(GenesisBlock(o, kp, keys, now), GenesisOwner(kp, now), GenesisWallet(keys));
    }
  }

  lemma AcceptedFacts(o: Oracles, ch: Chain, b: Block)
    requires ch.blocks != [] && Chains.VerifyBlock(o, ch, b) == Accepted
    ensures b.header.height == Head(ch).header.height + 1 && b.signer.Some?
  {
    hide Chains.VerifyReceipts, ReceiptRoot, HeaderHash;
  }

  lemma GenesisFacts(o: Oracles, kp: KeyPair, keys: seq<PublicKey>, now: Clock)
    requires now + 1 < TWO_64
    ensures GenesisBlock(o, kp, keys, now).header.height == 0 && GenesisBlock(o, kp, keys, now).signer.Some?
    ensures GenesisOwner(kp, now).OwnerTx? && GenesisWallet(keys).id == OWNER_ID
  {
    hide GenesisScript, ReceiptRoot;
  }

  lemma FirstIsRecorded(o: Oracles, b: Block)
    ensures FileOf(o, [b]) == Frame(o, b) && WrittenAt(o, [b]) == map[0 := 0]
  {
    hide Frame;
    assert [b][..0] == [] && FileOf(o, []) == [] && WrittenAt(o, []) == map[];
  }

  lemma NoneStored(o: Oracles, file: seq<byte>, bytePos: map<nat, nat>, b: Block)
    ensures StoredBelow(o, file, bytePos, [b], 0)
  {
  }

  lemma RebuildZero(o: Oracles, blocks: seq<Block>, now: u64)
    ensures RebuildTxids(o, blocks, 0, now) == map[]
  {
  }

  lemma RebuildStep(o: Oracles, blocks: seq<Block>, k: nat, now: u64)
    requires k < |blocks|
    ensures RebuildTxids(o, blocks, k + 1, now)
         == if (now - blocks[k].header.timestamp) % TWO_64 > TX_MAX_EXPIRY_TIME then map[]
            else LiveTxids(o, blocks[k].receipts, now) + RebuildTxids(o, blocks, k, now)
  {
    hide LiveTxids;
  }

  lemma MergeAssoc(a: map<TxId, u64>, b: map<TxId, u64>, c: map<TxId, u64>)
    ensures a + b + c == a + (b + c)
  {
  }

  /** What a log replays to, the accounts of its genesis block having been put in place first. */
  function Replayed(o: Oracles, file: seq<byte>, autoTrim: bool): Option<Rebuilt> {
    var genesis := RawRead(o, file, 0);
    if genesis.ReadOk? && |genesis.block.receipts| != 2 then None
    else Rebuild(o, if genesis.ReadOk? then PreIndexed(genesis.block) else Ledger(map[], None, 0), file, autoTrim)
  }

  lemma NoReplay(o: Oracles, file: seq<byte>, autoTrim: bool)
    requires RawRead(o, file, 0).ReadPanic?
    ensures Replayed(o, file, autoTrim).None?
  {
    hide RawRead;
  }
}
