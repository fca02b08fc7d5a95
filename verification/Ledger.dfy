// Accounts as receipts change them: the pending view of `get_account` and the indexing of
// `index_receipt` in blockchain/mod.rs, side by side.

module Ledgers {
  import opened Wrappers
  import opened Numbers
  import opened Assets
  import opened Accounts
  import opened Transactions
  import opened Blocks

  /** What the index stores about funds: accounts, the current owner transaction, the supply. */
  datatype Ledger = Ledger(accounts: map<AccountId, Account>, owner: Option<TxVariant>, supply: Asset)

  // ----- the pending view -----

  function PendEntry(acc: Account, id: AccountId, from: AccountId, e: LogEntry): Option<Account> {
    match e
    case Transfer(to, amount) =>
      if to != id then Some(acc) else
        var bal :- CheckedAdd(acc.balance, amount);
        Some(acc.(balance := bal))
    case Destroy(_) =>
      // The receiving account does not see the funds until a block is produced.
      if from == id then Some(acc.(destroyed := true, balance := 0)) else Some(acc)
  }

  function PendLog(acc: Account, id: AccountId, from: AccountId, log: seq<LogEntry>): Option<Account> {
    if log == [] then Some(acc)
    else
      var a :- PendLog(acc, id, from, log[..|log| - 1]);
      PendEntry(a, id, from, log[|log| - 1])
  }

  /** Two subtractions in a row, each of which can overflow. */
  function Debit(acc: Account, first: Asset, second: Asset): Option<Account> {
    var b1 :- CheckedSub(acc.balance, first);
    var b2 :- CheckedSub(b1, second);
    Some(acc.(balance := b2))
  }

  /** An update replaces script and permissions whatever account it is for. */
  function PendUpdate(acc: Account, script: Option<seq<byte>>, perms: Option<Permissions>): Account {
    var a := if script.Some? then acc.(script := script.value) else acc;
    if perms.Some? then a.(permissions := perms.value) else a
  }

  /** One receipt's effect on the pending view of account `id`. */
  function PendReceipt(acc: Account, id: AccountId, r: Receipt): Option<Account> {
    match r.tx
    case OwnerTx(_, _, _) => Some(acc)
    case MintTx(_, to, amount, _, _) =>
      if to != id then Some(acc) else
        var bal :- CheckedAdd(acc.balance, amount);
        Some(acc.(balance := bal))
    case CreateAccountTx(base, creator, account) =>
      if creator == id then Debit(acc, account.balance, base.fee) else Some(acc)
    case UpdateAccountTx(base, accountId, script, perms) =>
      if accountId != id then Some(PendUpdate(acc, script, perms)) else
        var bal :- CheckedSub(acc.balance, base.fee);
        Some(PendUpdate(acc.(balance := bal), script, perms))
    case TransferTx(base, from, _, _, amount, _) =>
      var a :- if from == id then Debit(acc, base.fee, amount) else Some(acc);
      PendLog(a, id, from, r.log)
  }

  /** `get_account`: the indexed account with the receipts not yet in a block applied. */
  function GetAccount(l: Ledger, id: AccountId, rs: seq<Receipt>): Option<Account> {
    if rs == [] then if id in l.accounts then Some(l.accounts[id]) else None
    else
      var a :- GetAccount(l, id, rs[..|rs| - 1]);
      PendReceipt(a, id, rs[|rs| - 1])
  }

  lemma {:induction false} GetAccountIndexed(l: Ledger, id: AccountId, rs: seq<Receipt>)
    ensures GetAccount(l, id, rs).Some? ==> id in l.accounts
  {
    if rs != [] {
      GetAccountIndexed(l, id, rs[..|rs| - 1]);
    }
  }

  lemma GetAccountSnoc(l: Ledger, id: AccountId, rs: seq<Receipt>, r: Receipt)
    ensures GetAccount(l, id, rs + [r])
         == if GetAccount(l, id, rs).Some? then PendReceipt(GetAccount(l, id, rs).value, id, r) else None
  {
    assert (rs + [r])[..|rs + [r]| - 1] == rs;
  }

  // ----- indexing -----

  // No result is the failure of an `unwrap`.

  function SetAccount(l: Ledger, a: AccountId, acc: Account): Ledger {
    l.(accounts := l.accounts[a := acc])
  }

  function AddBal(l: Ledger, id: AccountId, amount: Asset): Option<Ledger> {
    if id !in l.accounts then None else
      var bal :- CheckedAdd(l.accounts[id].balance, amount);
      Some(SetAccount(l, id, l.accounts[id].(balance := bal)))
  }

  function SubBal(l: Ledger, id: AccountId, amount: Asset): Option<Ledger> {
    if id !in l.accounts then None else
      var bal :- CheckedSub(l.accounts[id].balance, amount);
      Some(SetAccount(l, id, l.accounts[id].(balance := bal)))
  }

  function ApplyEntry(l: Ledger, from: AccountId, e: LogEntry): Option<Ledger> {
    match e
    case Transfer(to, amount) => AddBal(l, to, amount)
    case Destroy(to) =>
      if from !in l.accounts then None else
        var acc := l.accounts[from];
        AddBal(SetAccount(l, from, acc.(destroyed := true, balance := 0)), to, acc.balance)
  }

  function ApplyLog(l: Ledger, from: AccountId, log: seq<LogEntry>): Option<Ledger> {
    if log == [] then Some(l)
    else
      var l1 :- ApplyLog(l, from, log[..|log| - 1]);
      ApplyEntry(l1, from, log[|log| - 1])
  }

  function ApplyReceipt(l: Ledger, r: Receipt): Option<Ledger> {
    match r.tx
    case OwnerTx(_, _, _) => Some(l.(owner := Some(r.tx)))
    case MintTx(_, to, amount, _, _) =>
      var supply :- CheckedAdd(l.supply, amount);
      AddBal(l.(supply := supply), to, amount)
    case CreateAccountTx(base, creator, account) =>
      var cost :- CheckedAdd(base.fee, account.balance);
      var l1 :- SubBal(l, creator, cost);
      Some(SetAccount(l1, account.id, account))
    case UpdateAccountTx(base, id, script, perms) =>
      if id !in l.accounts then None else
        var bal :- CheckedSub(l.accounts[id].balance, base.fee);
        Some(SetAccount(l, id, PendUpdate(l.accounts[id].(balance := bal), script, perms)))
    case TransferTx(base, from, _, _, amount, _) =>
      var cost :- CheckedAdd(base.fee, amount);
      var l1 :- SubBal(l, from, cost);
      ApplyLog(l1, from, r.log)
  }

  function ApplyReceipts(l: Ledger, rs: seq<Receipt>): Option<Ledger> {
    if rs == [] then Some(l)
    else
      var l1 :- ApplyReceipts(l, rs[..|rs| - 1]);
      ApplyReceipt(l1, rs[|rs| - 1])
  }

  /** `index_block`: the receipts in order, then the rewards to the owner's wallet. */
  function ApplyBlock(l: Ledger, b: Block): Option<Ledger> {
    var l1 :- ApplyReceipts(l, b.receipts);
    if l1.owner.None? || !l1.owner.value.OwnerTx? then None
    else AddBal(l1, l1.owner.value.wallet, b.rewards)
  }

  // ----- totals -----

  /** The sum of all balances. */
  ghost function Total(m: map<AccountId, Account>): int
    decreases |m|
  {
    if m == map[] then 0
    else
      var k :| k in m;
      m[k].balance + Total(m - {k})
  }

  lemma {:induction false} TotalWithout(m: map<AccountId, Account>, k: AccountId)
    requires k in m
    ensures Total(m) == m[k].balance + Total(m - {k})
    decreases |m|
  {
    var j :| j in m && Total(m) == m[j].balance + Total(m - {j});
    if j != k {
      TotalWithout(m - {j}, k);
      TotalWithout(m - {k}, j);
      assert m - {j} - {k} == m - {k} - {j};
    }
  }

  lemma TotalSet(m: map<AccountId, Account>, k: AccountId, a: Account)
    ensures Total(m[k := a]) == Total(m) + a.balance - if k in m then m[k].balance else 0
  {
    TotalWithout(m[k := a], k);
    if k in m {
      TotalWithout(m, k);
      assert m[k := a] - {k} == m - {k};
    } else {
      assert m[k := a] - {k} == m;
    }
  }

  predicate NonNegative(m: map<AccountId, Account>) {
    forall id | id in m :: m[id].balance >= 0
  }

  lemma {:induction false} TotalBounds(m: map<AccountId, Account>)
    requires NonNegative(m)
    ensures Total(m) >= 0
    ensures forall id | id in m :: m[id].balance <= Total(m)
    decreases |m|
  {
    if m != map[] {
      var k :| k in m;
      TotalWithout(m, k);
      TotalBounds(m - {k});
      forall id | id in m ensures m[id].balance <= Total(m) {
        if id != k {
          assert id in m - {k};
        }
      }
    }
  }
}
