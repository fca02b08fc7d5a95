// Answering with only the header of a block: `get_filtered_block` in blockchain/mod.rs.

module Filters {
  import opened Assets
  import opened Crypto
  import opened Accounts
  import opened Blocks
  import opened Ledgers

  type BlockFilter = set<AccountId>

  datatype FilteredBlock = Header(header: BlockHeader, signer: SigPair) | Full(block: Block)

  predicate EntryMatches(filter: BlockFilter, e: LogEntry) {
    e.to in filter
  }

  /** The receipt concerns an account in the filter. Fees and the log count for transfers only. */
  predicate ReceiptMatches(filter: BlockFilter, r: Receipt) {
    match r.tx
    case OwnerTx(_, _, wallet) => wallet in filter
    case MintTx(_, to, _, _, _) => to in filter
    case CreateAccountTx(_, creator, account) => creator in filter || account.id in filter
    case UpdateAccountTx(_, id, _, _) => id in filter
    case TransferTx(_, from, _, _, _, _) => from in filter || exists e | e in r.log :: EntryMatches(filter, e)
  }

  predicate BlockMatches(filter: BlockFilter, b: Block) {
    filter != {} && exists r | r in b.receipts :: ReceiptMatches(filter, r)
  }

  method AnyEntryMatches(filter: BlockFilter, log: seq<LogEntry>) returns (found: bool)
    ensures found == exists e | e in log :: EntryMatches(filter, e)
  {
    for i := 0 to |log|
      invariant forall k | 0 <= k < i :: !EntryMatches(filter, log[k])
    {
      if EntryMatches(filter, log[i]) {
        return true;
      }
    }
    found := false;
  }

  /** The loop over the receipts; the answer is only a header when none concerns the filter. */
  method AnyReceiptMatches(filter: BlockFilter, rs: seq<Receipt>) returns (found: bool)
    ensures found == exists r | r in rs :: ReceiptMatches(filter, r)
  {
    for i := 0 to |rs|
      invariant forall k | 0 <= k < i :: !ReceiptMatches(filter, rs[k])
    {
      var hit := false;
      match rs[i].tx {
        case OwnerTx(_, _, wallet) => hit := wallet in filter;
        case MintTx(_, to, _, _, _) => hit := to in filter;
        case CreateAccountTx(_, creator, account) => hit := creator in filter || account.id in filter;
        case UpdateAccountTx(_, id, _, _) => hit := id in filter;
        case TransferTx(_, from, _, _, _, _) =>
          hit := from in filter;
          if !hit {
            hit := AnyEntryMatches(filter, rs[i].log);
          }
      }
      assert hit == ReceiptMatches(filter, rs[i]) && rs[i] in rs;
      if hit {
        return true;
      }
    }
    found := false;
  }

  // ----- which blocks are sent whole -----

  /** Whom a receipt concerns. */
  function Parties(r: Receipt): set<AccountId> {
    match r.tx
    case OwnerTx(_, _, wallet) => {wallet}
    case MintTx(_, to, _, _, _) => {to}
    case CreateAccountTx(_, creator, account) => {creator, account.id}
    case UpdateAccountTx(_, id, _, _) => {id}
    case TransferTx(_, from, _, _, _, _) => {from} + set e | e in r.log :: e.to
  }

  lemma ReceiptMatchesIff(filter: BlockFilter, r: Receipt)
    ensures ReceiptMatches(filter, r) <==> exists id :: id in filter && id in Parties(r)
  {
    match r.tx
    case OwnerTx(_, _, wallet) => assert wallet in Parties(r);
    case MintTx(_, to, _, _, _) => assert to in Parties(r);
    case CreateAccountTx(_, creator, account) => assert creator in Parties(r) && account.id in Parties(r);
    case UpdateAccountTx(_, id, _, _) => assert id in Parties(r);
    case TransferTx(_, from, _, _, _, _) =>
      assert from in Parties(r);
      assert forall e | e in r.log :: e.to in Parties(r);
  }

  /** A block is sent whole exactly if one of its receipts concerns an account in the filter. */
  lemma SentWholeIff(filter: BlockFilter, b: Block)
    ensures BlockMatches(filter, b) <==> exists r, id :: r in b.receipts && id in filter && id in Parties(r)
  {
    hide ReceiptMatches, Parties;
    forall r | r in b.receipts
      ensures ReceiptMatches(filter, r) <==> exists id :: id in filter && id in Parties(r)
    {
      ReceiptMatchesIff(filter, r);
    }
  }

  // ----- completeness -----

  /** The accounts in the filter are the same in both states. */
  predicate SameIn(filter: BlockFilter, a: Ledger, b: Ledger) {
    forall id | id in filter ::
      && (id in a.accounts <==> id in b.accounts)
      && (id in a.accounts ==> a.accounts[id] == b.accounts[id])
  }

  lemma {:induction false} LogUnseen(filter: BlockFilter, l: Ledger, from: AccountId, log: seq<LogEntry>)
    requires from !in filter && forall e | e in log :: !EntryMatches(filter, e)
    requires ApplyLog(l, from, log).Some?
    ensures SameIn(filter, l, ApplyLog(l, from, log).value)
  {
    hide CheckedAdd;
    if log != [] {
      var front := log[..|log| - 1];
      assert !EntryMatches(filter, log[|log| - 1]);
      LogUnseen(filter, l, from, front);
    }
  }

  lemma ReceiptUnseen(filter: BlockFilter, l: Ledger, r: Receipt)
    requires !ReceiptMatches(filter, r) && ApplyReceipt(l, r).Some?
    ensures SameIn(filter, l, ApplyReceipt(l, r).value)
  {
    hide CheckedAdd, CheckedSub, ApplyLog, PendUpdate;
    if r.tx.TransferTx? {
      var cost := CheckedAdd(r.tx.base.fee, r.tx.amount);
      LogUnseen(filter, SubBal(l, r.tx.from, cost.value).value, r.tx.from, r.log);
    }
  }

  lemma {:induction false} ReceiptsUnseen(filter: BlockFilter, l: Ledger, rs: seq<Receipt>)
    requires forall r | r in rs :: !ReceiptMatches(filter, r)
    requires ApplyReceipts(l, rs).Some?
    ensures SameIn(filter, l, ApplyReceipts(l, rs).value)
  {
    if rs != [] {
      hide ReceiptMatches, ApplyReceipt;
      var front := rs[..|rs| - 1];
      assert rs[|rs| - 1] in rs;
      ReceiptsUnseen(filter, l, front);
      ReceiptUnseen(filter, ApplyReceipts(l, front).value, rs[|rs| - 1]);
    }
  }

  /** Indexing a receipt changes no account that it does not concern. */
  lemma OthersUnchanged(l: Ledger, r: Receipt, id: AccountId)
    requires id !in Parties(r) && ApplyReceipt(l, r).Some?
    ensures id in ApplyReceipt(l, r).value.accounts <==> id in l.accounts
    ensures id in l.accounts ==> ApplyReceipt(l, r).value.accounts[id] == l.accounts[id]
  {
    ReceiptMatchesIff({id}, r);
    hide ApplyReceipt, ReceiptMatches, Parties;
    ReceiptUnseen({id}, l, r);
    assert id in {id};
  }

  /** A block answered with its header alone changes no account in the filter, except that the
      wallet of the owner as of the block is given the rewards. */
  lemma HeaderAloneIsEnough(filter: BlockFilter, l: Ledger, b: Block, id: AccountId)
    requires !BlockMatches(filter, b) && id in filter && ApplyBlock(l, b).Some?
    ensures var l' := ApplyBlock(l, b).value;
            && l'.owner.Some? && l'.owner.value.OwnerTx?
            && (id in l'.accounts <==> id in l.accounts)
            && (id in l.accounts ==>
                  l'.accounts[id] == if id != l'.owner.value.wallet then l.accounts[id]
                                     else Rewarded(l.accounts[id], b.rewards))
  {
    hide ReceiptMatches;
    ReceiptsUnseen(filter, l, b.receipts);
    hide ApplyReceipts;
  }

  function Rewarded(a: Account, rewards: Asset): Account {
    var bal := CheckedAdd(a.balance, rewards);
    if bal.Some? then a.(balance := bal.value) else a
  }
}
