// What an accepted block does to the books: `verify_block` compares neither rewards nor logs, so
// the supply is kept under a condition of its own (blockchain/mod.rs).

module Books {
  import opened Wrappers
  import opened Assets
  import opened Crypto
  import opened Accounts
  import opened Blocks
  import opened Accounting
  import opened Ledgers
  import opened Conservation
  import opened Chains
  import opened Permitted

  /** What the logs of the transfers say was sent. */
  function Logged(rs: seq<Receipt>): int {
    if rs == [] then 0
    else
      var r := rs[|rs| - 1];
      Logged(rs[..|rs| - 1]) + if r.tx.TransferTx? then Transferred(r.log) else 0
  }

  /** What the transfers themselves say is sent. */
  function Sent(rs: seq<Receipt>): int {
    if rs == [] then 0
    else
      var r := rs[|rs| - 1];
      Sent(rs[..|rs| - 1]) + if r.tx.TransferTx? then r.tx.amount else 0
  }

  /** Balances in excess of the supply. */
  ghost function Excess(l: Ledger): int {
    Total(l.accounts) - l.supply
  }

  ghost predicate Balanced(l: Ledger) {
    Total(l.accounts) == l.supply
  }

  // ----- indexing, in totals -----

  lemma AddBalTotal(l: Ledger, id: AccountId, amount: Asset)
    requires AddBal(l, id, amount).Some?
    ensures Excess(AddBal(l, id, amount).value) == Excess(l) + amount
  {
    TotalSet(l.accounts, id, AddBal(l, id, amount).value.accounts[id]);
  }

  lemma SubBalTotal(l: Ledger, id: AccountId, amount: Asset)
    requires SubBal(l, id, amount).Some?
    ensures Excess(SubBal(l, id, amount).value) == Excess(l) - amount
  {
    TotalSet(l.accounts, id, SubBal(l, id, amount).value.accounts[id]);
  }

  lemma EntryTotal(l: Ledger, from: AccountId, e: LogEntry)
    requires ApplyEntry(l, from, e).Some?
    ensures Excess(ApplyEntry(l, from, e).value) == Excess(l) + if e.Transfer? then e.amount else 0
  {
    if e.Transfer? {
      AddBalTotal(l, e.to, e.amount);
    } else {
      var acc := l.accounts[from];
      TotalSet(l.accounts, from, acc.(destroyed := true, balance := 0));
      AddBalTotal(SetAccount(l, from, acc.(destroyed := true, balance := 0)), e.to, acc.balance);
    }
  }

  lemma {:induction false} LogTotal(l: Ledger, from: AccountId, log: seq<LogEntry>)
    requires ApplyLog(l, from, log).Some?
    ensures Excess(ApplyLog(l, from, log).value) == Excess(l) + Transferred(log)
  {
    if log != [] {
      hide ApplyEntry, Excess;
      var front, e := log[..|log| - 1], log[|log| - 1];
      LogTotal(l, from, front);
      EntryTotal(ApplyLog(l, from, front).value, from, e);
      assert log == front + [e];
      TransferredSnoc(front, e);
    }
  }

  /** The owner and mints pay no fee, and a new account is new. */
  predicate Ordinary(l: Ledger, rs: seq<Receipt>, r: Receipt) {
    match r.tx
    case OwnerTx(base, _, _) => base.fee == 0
    case MintTx(base, _, _, _, _) => base.fee == 0
    case CreateAccountTx(_, _, account) => account.id !in l.accounts && !Created(rs, account.id)
    case UpdateAccountTx(_, _, _, _) => true
    case TransferTx(_, _, _, _, _, _) => true
  }

  predicate AllOrdinary(l: Ledger, rs: seq<Receipt>) {
    forall i | 0 <= i < |rs| :: Ordinary(l, rs[..i], rs[i])
  }

  lemma ReceiptTotal(l: Ledger, r: Receipt)
    requires ApplyReceipt(l, r).Some? && Ordinary(l, [], r)
    ensures Excess(ApplyReceipt(l, r).value)
         == Excess(l) - r.tx.base.fee + if r.tx.TransferTx? then Transferred(r.log) - r.tx.amount else 0
  {
    match r.tx
    case OwnerTx(_, _, _) =>
    case MintTx(_, to, amount, _, _) =>
      AddBalTotal(l.(supply := l.supply + amount), to, amount);
    case CreateAccountTx(base, creator, account) =>
      SubBalTotal(l, creator, base.fee + account.balance);
      TotalSet(SubBal(l, creator, base.fee + account.balance).value.accounts, account.id, account);
    case UpdateAccountTx(base, id, script, perms) =>
      TotalSet(l.accounts, id, ApplyReceipt(l, r).value.accounts[id]);
    case TransferTx(base, from, _, _, amount, _) =>
      hide ApplyLog;
      SubBalTotal(l, from, base.fee + amount);
      LogTotal(SubBal(l, from, base.fee + amount).value, from, r.log);
  }

  lemma {:induction false} ReceiptsTotal(l: Ledger, rs: seq<Receipt>)
    requires AllOrdinary(l, rs) && ApplyReceipts(l, rs).Some?
    ensures Excess(ApplyReceipts(l, rs).value) == Excess(l) - Fees(rs) - Sent(rs) + Logged(rs)
  {
    if rs != [] {
      hide ApplyReceipt, Excess;
      var front, r := rs[..|rs| - 1], rs[|rs| - 1];
      assert AllOrdinary(l, front) by {
        OrdinaryPrefix(l, rs);
      }
      assert Ordinary(l, front, r);
      ReceiptsTotal(l, front);
      ApplyTracks(l, front);
      ReceiptTotal(ApplyReceipts(l, front).value, r);
    }
  }

  lemma OrdinaryPrefix(l: Ledger, rs: seq<Receipt>)
    requires AllOrdinary(l, rs) && rs != []
    ensures AllOrdinary(l, rs[..|rs| - 1])
  {
    hide Ordinary;
    var front := rs[..|rs| - 1];
    forall i | 0 <= i < |front| ensures Ordinary(l, front[..i], front[i]) {
      assert front[..i] == rs[..i];
    }
  }

  /** Indexing a block of ordinary receipts, with any rewards and any logs at all, changes the excess
      of the balances over the supply by what is given out less what is taken in. */
  lemma BlockTotal(l: Ledger, b: Block)
    requires AllOrdinary(l, b.receipts) && ApplyBlock(l, b).Some?
    ensures Excess(ApplyBlock(l, b).value)
         == Excess(l) + b.rewards + Logged(b.receipts) - Fees(b.receipts) - Sent(b.receipts)
  {
    hide ApplyReceipts, Excess, AddBal, AllOrdinary;
    ReceiptsTotal(l, b.receipts);
    var l1 := ApplyReceipts(l, b.receipts).value;
    AddBalTotal(l1, l1.owner.value.wallet, b.rewards);
  }

  // ----- accepted blocks -----

  lemma AcceptedIsOrdinary(o: Oracles, ch: Chain, b: Block)
    requires ch.blocks != [] && VerifyBlock(o, ch, b) == Accepted
    ensures AllOrdinary(ch.ledger, b.receipts)
  {
    AcceptedIff(o, ch, b);
    hide VerifyBlock, GetAccountInfo, Solvent, ScriptAgrees, OwnerWallet, GetAccount, UpdatePermitted, TransferPermitted,
         Created;
    forall i | 0 <= i < |b.receipts| ensures Ordinary(ch.ledger, b.receipts[..i], b.receipts[i]) {
      assert TxPermitted(o, ch, b.receipts[i].tx, b.receipts[..i]);
    }
  }

  /** An accepted block, whoever built it and with whatever rewards and logs, keeps the balances
      equal to the supply if and only if the rewards and what the logs send come to the fees and what
      the transfers send. */
  lemma AcceptedConservesIff(o: Oracles, ch: Chain, b: Block)
    requires ch.blocks != [] && VerifyBlock(o, ch, b) == Accepted
    requires Balanced(ch.ledger) && ApplyBlock(ch.ledger, b).Some?
    ensures Balanced(ApplyBlock(ch.ledger, b).value)
       <==> b.rewards + Logged(b.receipts) == Fees(b.receipts) + Sent(b.receipts)
  {
    AcceptedIsOrdinary(o, ch, b);
    hide VerifyBlock, ApplyBlock, AllOrdinary;
    BlockTotal(ch.ledger, b);
  }

  lemma {:induction false} AdmittedLogsBalance(l: Ledger, rs: seq<Receipt>)
    requires AllAdmissible(l, rs)
    ensures AllOrdinary(l, rs) && Logged(rs) == Sent(rs)
  {
    hide Covered, LogOk, Transferred, Created;
    if rs != [] {
      var front := rs[..|rs| - 1];
      assert Admissible(l, front, rs[|rs| - 1]);
      forall i | 0 <= i < |front| ensures Admissible(l, front[..i], front[i]) {
        assert front[..i] == rs[..i];
      }
      AdmittedLogsBalance(l, front);
    }
    forall i | 0 <= i < |rs| ensures Ordinary(l, rs[..i], rs[i]) {
      assert Admissible(l, rs[..i], rs[i]);
    }
  }

  /** Where the logs are those of execution, the condition is that the rewards are the fees. */
  lemma AdmittedConservesIff(l: Ledger, b: Block)
    requires LedgerInv(l) && AllAdmissible(l, b.receipts) && ApplyBlock(l, b).Some?
    ensures Balanced(ApplyBlock(l, b).value) <==> b.rewards == Fees(b.receipts)
  {
    AdmittedLogsBalance(l, b.receipts);
    hide ApplyBlock, AllOrdinary, AllAdmissible;
    BlockTotal(l, b);
  }

  // ----- logs -----

  /** The block with other receipts, its root computed anew and its header signed again. */
  function Resealed(o: Oracles, b: Block, rs: seq<Receipt>, kp: KeyPair): Block {
    Sign(o, Block(b.header.(receiptRoot := ReceiptRoot(o, rs)), None, b.rewards, rs), kp)
  }

  function WithLastLog(rs: seq<Receipt>, log: seq<LogEntry>): seq<Receipt>
    requires rs != []
  {
    rs[..|rs| - 1] + [Receipt(rs[|rs| - 1].tx, log)]
  }

  lemma {:induction false} LastLogUnseen(o: Oracles, ch: Chain, rs: seq<Receipt>, log: seq<LogEntry>, i: nat)
    requires ch.blocks != [] && rs != [] && i <= |rs|
    ensures VerifyReceipts(o, ch, WithLastLog(rs, log), i) == VerifyReceipts(o, ch, rs, i)
    decreases |rs| - i
  {
    hide Execute;
    if i < |rs| {
      LastLogUnseen(o, ch, rs, log, i + 1);
      assert WithLastLog(rs, log)[..i] == rs[..i];
    }
  }

  /** Logs are in the receipt root but are compared with nothing: whatever the answer to a block, it
      stays the same when the log of its last receipt is replaced and the block sealed again. */
  lemma LastLogIsNotCompared(o: Oracles, ch: Chain, b: Block, log: seq<LogEntry>, kp: KeyPair)
    requires ch.blocks != [] && b.receipts != [] && Genuine(o, kp)
    ensures VerifyBlock(o, ch, Resealed(o, b, WithLastLog(b.receipts, log), kp))
         == VerifyBlock(o, ch, Resealed(o, b, b.receipts, kp))
  {
    LastLogUnseen(o, ch, b.receipts, log, 0);
    SealHolds(o, b, b.receipts, kp);
    SealHolds(o, b, WithLastLog(b.receipts, log), kp);
    hide VerifyReceipts, ReceiptRoot, HeaderHash, WithLastLog;
  }

  lemma SealHolds(o: Oracles, b: Block, rs: seq<Receipt>, kp: KeyPair)
    requires Genuine(o, kp)
    ensures var s := Resealed(o, b, rs, kp);
            && s.receipts == rs && s.header == b.header.(receiptRoot := ReceiptRoot(o, rs))
            && s.signer.Some? && s.signer.value.pubKey == kp.pub
            && o.verify(kp.pub, HeaderHash(o, s), s.signer.value.signature)
  {
    hide ReceiptRoot, EncBlockHeader;
    var plain := Block(b.header.(receiptRoot := ReceiptRoot(o, rs)), None, b.rewards, rs);
    assert HeaderHash(o, Sign(o, plain, kp)) == HeaderHash(o, plain);
  }
}
