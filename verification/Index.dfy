// The index and the batch of writes on top of it: blockchain/index.rs, and the indexing of
// receipts and blocks into a batch, which belongs to blockchain/mod.rs.

module Indexes {
  import opened Wrappers
  import opened Numbers
  import opened Assets
  import opened Accounts
  import opened Transactions
  import opened Blocks
  import opened Ledgers
  import opened Nodes
  import opened Payments

  datatype IndexStatus = NoIndex | Partial | Complete

  /** The key-value store, by its columns. */
  class Indexer {
    var bytePos: map<nat, nat>
    var height: u64
    var owner: Option<TxVariant>
    var accounts: map<AccountId, Account>
    var supply: Asset
    var txids: map<TxId, u64>
    var status: IndexStatus

    constructor ()
      ensures bytePos == map[] && height == 0 && txids == map[] && status == NoIndex
      ensures Funds() == Ledger(map[], None, 0)
    {
      bytePos, height, owner, accounts, supply, txids, status := map[], 0, None, map[], 0, map[], NoIndex;
    }

    /** What is stored about funds. */
    ghost function Funds(): Ledger
      reads this
    {
      Ledger(accounts, owner, supply)
    }

    method GetAccount(id: AccountId) returns (r: Option<Account>)
      ensures r == if id in accounts then Some(accounts[id]) else None
    {
      r := if id in accounts then Some(accounts[id]) else None;
    }

    method InsertTxid(id: TxId, expiry: u64)
      modifies this`txids
      ensures txids == old(txids)[id := expiry]
    {
      txids := txids[id := expiry];
    }

    /** The column is walked while deletions are collected, and these are then written at once. */
    method PurgeExpiredTxids(now: Clock)
      modifies this`txids
      ensures txids == Purge(old(txids), now)
    {
      var currentTime := now - TX_EXPIRY_ADJUSTMENT;
      var deleted: set<TxId> := {};
      var rest := txids.Keys;
      while rest != {}
        invariant rest <= txids.Keys && deleted <= txids.Keys - rest
        invariant forall id | id in txids && id !in rest :: id in deleted <==> txids[id] < currentTime
        decreases |rest|
      {
        var key :| key in rest;
        if txids[key] < currentTime {
          deleted := deleted + {key};
        }
        rest := rest - {key};
      }
      txids := txids - deleted;
    }
  }

  /** Writes that are kept aside until they are committed together. */
  class WriteBatch {
    const indexer: Indexer
    var bytePos: map<nat, nat>
    var height: Option<u64>
    var owner: Option<TxVariant>
    var accounts: map<AccountId, Account>
    var supply: Option<Asset>

    constructor (indexer: Indexer)
      ensures this.indexer == indexer && bytePos == map[] && height == None
      ensures View() == indexer.Funds()
    {
      this.indexer := indexer;
      bytePos, height, owner, accounts, supply := map[], None, None, map[], None;
      new;
      assert indexer.accounts + map[] == indexer.accounts;
    }

    /** The funds as they will be stored after committing. */
    ghost function View(): Ledger
      reads this, indexer
    {
      Ledger(indexer.accounts + accounts,
             if owner.Some? then owner else indexer.owner,
             if supply.Some? then supply.value else indexer.supply)
    }

    /** Everything kept aside is written in one step; nothing else changes. */
    method Commit()
      modifies indexer
      ensures indexer.Funds() == old(View())
      ensures indexer.bytePos == old(indexer.bytePos) + bytePos
      ensures indexer.height == if height.Some? then height.value else old(indexer.height)
      ensures indexer.txids == old(indexer.txids) && indexer.status == old(indexer.status)
    {
      indexer.bytePos := indexer.bytePos + bytePos;
      if height.Some? {
        indexer.height := height.value;
      }
      if owner.Some? {
        indexer.owner := owner;
      }
      if supply.Some? {
        indexer.supply := supply.value;
      }
      indexer.accounts := indexer.accounts + accounts;
    }

    method SetBlockBytePos(h: nat, pos: nat)
      modifies this`bytePos
      ensures bytePos == old(bytePos)[h := pos]
    {
      bytePos := bytePos[h := pos];
    }

    method SetChainHeight(h: u64)
      modifies this`height
      ensures height == Some(h)
    {
      height := Some(h);
    }

    method SetOwner(tx: TxVariant)
      requires tx.OwnerTx?
      modifies this`owner
      ensures owner == Some(tx) && View() == old(View()).(owner := Some(tx))
    {
      owner := Some(tx);
    }

    /** Fails where an `unwrap` would. */
    method AddTokenSupply(amount: Asset) returns (ok: bool)
      modifies this`supply
      ensures ok == CheckedAdd(old(View()).supply, amount).Some?
      ensures ok ==> View() == old(View()).(supply := CheckedAdd(old(View()).supply, amount).value)
    {
      var sum := CheckedAdd(if supply.Some? then supply.value else indexer.supply, amount);
      ok := sum.Some?;
      if ok {
        supply := sum;
      }
    }

    /** The account is brought into the batch, from where it can be changed in place. */
    method GetAccountMut(id: AccountId) returns (ok: bool)
      modifies this`accounts
      ensures ok == (id in old(View()).accounts)
      ensures ok ==> id in accounts && accounts[id] == old(View()).accounts[id]
      ensures View() == old(View())
    {
      ok := true;
      if id !in accounts {
        var stored := indexer.GetAccount(id);
        if stored.None? {
          return false;
        }
        accounts := accounts[id := stored.value];
        assert indexer.accounts + accounts == indexer.accounts + old(accounts);
      }
    }

    method InsertOrUpdateAccount(account: Account)
      modifies this`accounts
      ensures View() == SetAccount(old(View()), account.id, account)
      ensures account.id in accounts
    {
      accounts := accounts[account.id := account];
      assert indexer.accounts + accounts == (indexer.accounts + old(accounts))[account.id := account];
    }

    /** Replaces an account that is in the batch, whatever its own identifier says. */
    method Assign(id: AccountId, account: Account)
      requires id in accounts
      modifies this`accounts
      ensures View() == SetAccount(old(View()), id, account)
    {
      accounts := accounts[id := account];
      assert indexer.accounts + accounts == (indexer.accounts + old(accounts))[id := account];
    }

    method AddBal(id: AccountId, amount: Asset) returns (ok: bool)
      modifies this`accounts
      ensures ok == Ledgers.AddBal(old(View()), id, amount).Some?
      ensures ok ==> View() == Ledgers.AddBal(old(View()), id, amount).value
    {
      ok := GetAccountMut(id);
      if ok {
        var bal := CheckedAdd(accounts[id].balance, amount);
        if bal.None? {
          return false;
        }
        Assign(id, accounts[id].(balance := bal.value));
      }
    }

    method SubBal(id: AccountId, amount: Asset) returns (ok: bool)
      modifies this`accounts
      ensures ok == Ledgers.SubBal(old(View()), id, amount).Some?
      ensures ok ==> View() == Ledgers.SubBal(old(View()), id, amount).value
    {
      ok := GetAccountMut(id);
      if ok {
        var bal := CheckedSub(accounts[id].balance, amount);
        if bal.None? {
          return false;
        }
        Assign(id, accounts[id].(balance := bal.value));
      }
    }
  }

  // ----- indexing into a batch -----

  method IndexEntry(batch: WriteBatch, from: AccountId, e: LogEntry) returns (ok: bool)
    modifies batch`accounts
    ensures ok == ApplyEntry(old(batch.View()), from, e).Some?
    ensures ok ==> batch.View() == ApplyEntry(old(batch.View()), from, e).value
  {
    match e
    case Transfer(to, amount) =>
      ok := batch.AddBal(to, amount);
    case Destroy(to) =>
      ok := batch.GetAccountMut(from);
      if ok {
        var bal := batch.accounts[from].balance;
        batch.Assign(from, batch.accounts[from].(destroyed := true, balance := 0));
        ok := batch.AddBal(to, bal);
      }
  }

  /** The transfers of one receipt; stops where an `unwrap` fails. */
  method IndexLog(batch: WriteBatch, from: AccountId, log: seq<LogEntry>) returns (ok: bool)
    modifies batch`accounts
    ensures ok == ApplyLog(old(batch.View()), from, log).Some?
    ensures ok ==> batch.View() == ApplyLog(old(batch.View()), from, log).value
    ensures ok && from in old(batch.View()).accounts ==> LogPaid(old(batch.View()), batch.View(), from, log)
  {
    hide ApplyEntry;
    var i := 0;
    assert log[..0] == [];
    while i < |log|
      invariant 0 <= i <= |log|
      invariant ApplyLog(old(batch.View()), from, log[..i]) == Some(batch.View())
      modifies batch`accounts
    {
      assert log[..i + 1][..i] == log[..i];
      ok := IndexEntry(batch, from, log[i]);
      if !ok {
        ApplyLogFails(old(batch.View()), from, log, i + 1);
        return;
      }
      i := i + 1;
    }
    assert log[..|log|] == log;
    if from in old(batch.View()).accounts {
      forall id: AccountId { LogBalance(old(batch.View()), from, log, id); }
    }
    ok := true;
  }

  lemma {:induction false} ApplyLogFails(l: Ledger, from: AccountId, log: seq<LogEntry>, k: nat)
    requires k <= |log| && ApplyLog(l, from, log[..k]).None?
    ensures ApplyLog(l, from, log).None?
    decreases |log| - k
  {
    if k == |log| {
      assert log[..k] == log;
    } else {
      assert log[..k + 1][..k] == log[..k];
      ApplyLogFails(l, from, log, k + 1);
    }
  }

  method IndexReceipt(batch: WriteBatch, r: Receipt) returns (ok: bool)
    modifies batch`accounts, batch`owner, batch`supply
    ensures ok == ApplyReceipt(old(batch.View()), r).Some?
    ensures ok ==> batch.View() == ApplyReceipt(old(batch.View()), r).value
  {
    hide ApplyLog;
    match r.tx
    case OwnerTx(_, _, _) =>
      batch.SetOwner(r.tx);
      ok := true;
    case MintTx(_, to, amount, _, _) =>
      ok := batch.AddTokenSupply(amount);
      if ok {
        ok := batch.AddBal(to, amount);
      }
    case CreateAccountTx(base, creator, account) =>
      var cost := CheckedAdd(base.fee, account.balance);
      if cost.None? {
        return false;
      }
      ok := batch.SubBal(creator, cost.value);
      if ok {
        batch.InsertOrUpdateAccount(account);
      }
    case UpdateAccountTx(base, id, script, perms) =>
      ok := batch.GetAccountMut(id);
      if ok {
        var bal := CheckedSub(batch.accounts[id].balance, base.fee);
        if bal.None? {
          return false;
        }
        var acc := batch.accounts[id].(balance := bal.value);
        if script.Some? {
          acc := acc.(script := script.value);
        }
        if perms.Some? {
          acc := acc.(permissions := perms.value);
        }
        batch.Assign(id, acc);
      }
    case TransferTx(base, from, _, _, amount, _) =>
      var cost := CheckedAdd(base.fee, amount);
      if cost.None? {
        return false;
      }
      ok := batch.SubBal(from, cost.value);
      if ok {
        ok := IndexLog(batch, from, r.log);
      }
  }

  lemma {:induction false} ApplyReceiptsFails(l: Ledger, rs: seq<Receipt>, k: nat)
    requires k <= |rs| && ApplyReceipts(l, rs[..k]).None?
    ensures ApplyReceipts(l, rs).None?
    decreases |rs| - k
  {
    if k == |rs| {
      assert rs[..k] == rs;
    } else {
      assert rs[..k + 1][..k] == rs[..k];
      ApplyReceiptsFails(l, rs, k + 1);
    }
  }

  /** The receipts in order and then the rewards, to the wallet of the owner as of this block. */
  method IndexBlock(batch: WriteBatch, b: Block) returns (ok: bool)
    modifies batch`accounts, batch`owner, batch`supply
    ensures ok == ApplyBlock(old(batch.View()), b).Some?
    ensures ok ==> batch.View() == ApplyBlock(old(batch.View()), b).value
  {
    hide ApplyReceipt, Ledgers.AddBal;
    var rs := b.receipts;
    var i := 0;
    assert rs[..0] == [];
    while i < |rs|
      invariant 0 <= i <= |rs|
      invariant ApplyReceipts(old(batch.View()), rs[..i]) == Some(batch.View())
    {
      assert rs[..i + 1][..i] == rs[..i];
      ok := IndexReceipt(batch, rs[i]);
      if !ok {
        ApplyReceiptsFails(old(batch.View()), rs, i + 1);
        return;
      }
      i := i + 1;
    }
    assert rs[..|rs|] == rs;
    var owner := if batch.owner.Some? then batch.owner else batch.indexer.owner;
    if owner.None? || !owner.value.OwnerTx? {
      return false;
    }
    ok := batch.AddBal(owner.value.wallet, b.rewards);
  }
}
