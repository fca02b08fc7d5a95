// The pending view against the index: what admitting receipts one by one guarantees when they are
// indexed together.

module Conservation {
  import opened Wrappers
  import opened Numbers
  import opened Assets
  import opened Accounts
  import opened Transactions
  import opened Blocks
  import opened Ledgers
  import opened Accounting

  function Fees(rs: seq<Receipt>): int {
    if rs == [] then 0 else Fees(rs[..|rs| - 1]) + rs[|rs| - 1].tx.base.fee
  }

  function MintOf(r: Receipt): int {
    if r.tx.MintTx? then r.tx.amount else 0
  }

  function Minted(rs: seq<Receipt>): int {
    if rs == [] then 0 else Minted(rs[..|rs| - 1]) + MintOf(rs[|rs| - 1])
  }

  predicate Creates(r: Receipt, id: AccountId) {
    r.tx.CreateAccountTx? && r.tx.account.id == id
  }

  predicate Created(rs: seq<Receipt>, id: AccountId) {
    exists r | r in rs :: Creates(r, id)
  }

  /** Some Destroy entry hands its funds to the account. */
  predicate NamedIn(log: seq<LogEntry>, id: AccountId) {
    exists e | e in log :: e.Destroy? && e.to == id
  }

  predicate Names(r: Receipt, id: AccountId) {
    r.tx.TransferTx? && NamedIn(r.log, id)
  }

  predicate Named(rs: seq<Receipt>, id: AccountId) {
    exists r | r in rs :: Names(r, id)
  }

  // ----- what admission establishes -----

  /** Transfers of amounts not below zero, and no Destroy back to the sender, all to accounts
      that are indexed. */
  predicate LogOk(l: Ledger, from: AccountId, log: seq<LogEntry>) {
    forall e | e in log :: e.to in l.accounts && (e.Transfer? ==> e.amount >= 0) && (e.Destroy? ==> e.to != from)
  }

  /** The account's pending balance covers the debit. */
  predicate Covered(l: Ledger, rs: seq<Receipt>, id: AccountId, debit: int) {
    GetAccount(l, id, rs).Some? && GetAccount(l, id, rs).value.balance >= debit
  }

  /** What is known of a receipt that was executed against the index and the receipts before it. */
  predicate Admissible(l: Ledger, rs: seq<Receipt>, r: Receipt) {
    && r.tx.base.fee >= 0
    && match r.tx
       case OwnerTx(base, _, wallet) => base.fee == 0 && wallet in l.accounts
       case MintTx(base, _, amount, _, _) => base.fee == 0 && amount >= 0
       case CreateAccountTx(base, creator, account) =>
         && account.balance >= 0 && account.id !in l.accounts && !Created(rs, account.id)
         && Covered(l, rs, creator, base.fee + account.balance)
       case UpdateAccountTx(base, id, _, _) => Covered(l, rs, id, base.fee)
       case TransferTx(base, from, _, _, amount, _) =>
         && amount >= 0 && Covered(l, rs, from, base.fee + amount)
         && LogOk(l, from, r.log) && Transferred(r.log) == amount
  }

  predicate AllAdmissible(l: Ledger, rs: seq<Receipt>) {
    forall i | 0 <= i < |rs| :: Admissible(l, rs[..i], rs[i])
  }

  // ----- mints, the one thing admission does not settle -----

  /** The target is indexed or is created by an earlier receipt. */
  predicate MintTargetKnown(l: Ledger, rs: seq<Receipt>, r: Receipt) {
    r.tx.MintTx? ==> r.tx.to in l.accounts || Created(rs, r.tx.to)
  }

  /** Every mint has a known target, and together they fit the supply. */
  predicate MintsOk(l: Ledger, rs: seq<Receipt>) {
    && (forall i | 0 <= i < |rs| :: MintTargetKnown(l, rs[..i], rs[i]))
    && l.supply + Minted(rs) <= I64_MAX
  }

  // ----- the invariant -----

  /** The pending view of an account against its index entry: solvent, never above, and exact
      unless some Destroy entry names the account. */
  predicate Below(p: Option<Account>, a: Account, exact: bool) {
    && p.Some?
    && 0 <= p.value.balance <= a.balance
    && p.value.destroyed == a.destroyed
    && (exact ==> p.value.balance == a.balance)
  }

  predicate OwnerKnown(l: Ledger, owner: Option<TxVariant>) {
    owner.Some? && owner.value.OwnerTx? && owner.value.wallet in l.accounts
  }

  /** Solvent accounts that hold the whole supply but for `unpaid`. */
  ghost predicate Money(l2: Ledger, unpaid: int) {
    NonNegative(l2.accounts) && unpaid >= 0 && Total(l2.accounts) + unpaid == l2.supply
  }

  /** The accounts of `l2` are those of `l` and those the receipts create. */
  ghost predicate Known(l: Ledger, rs: seq<Receipt>, l2: Ledger) {
    forall id: AccountId :: id in l2.accounts <==> id in l.accounts || Created(rs, id)
  }

  ghost predicate BelowAt(l: Ledger, rs: seq<Receipt>, l2: Ledger, id: AccountId) {
    id in l2.accounts && Below(GetAccount(l, id, rs), l2.accounts[id], !Named(rs, id))
  }

  ghost predicate AllBelow(l: Ledger, rs: seq<Receipt>, l2: Ledger) {
    forall id | id in l.accounts :: BelowAt(l, rs, l2, id)
  }

  /** The index `l` with all of `rs` applied is `l2`: it agrees with the pending view, is solvent,
      and lacks exactly the fees, which are still to be paid out. */
  ghost predicate Agree(l: Ledger, rs: seq<Receipt>, l2: Ledger) {
    && Money(l2, Fees(rs))
    && Known(l, rs, l2)
    && AllBelow(l, rs, l2)
    && l2.supply == l.supply + Minted(rs)
    && OwnerKnown(l, l2.owner)
  }

  /** A ledger between blocks: all money is in solvent accounts. */
  ghost predicate LedgerInv(l: Ledger) {
    NonNegative(l.accounts) && Total(l.accounts) == l.supply && OwnerKnown(l, l.owner)
  }

  lemma AgreeStart(l: Ledger)
    requires LedgerInv(l)
    ensures Agree(l, [], l)
  {
  }

  // ----- indexing one receipt: the money -----

  lemma AddBalMoves(l2: Ledger, id: AccountId, amount: Asset, unpaid: int)
    requires Money(l2, unpaid) && id in l2.accounts && 0 <= amount <= unpaid
    ensures AddBal(l2, id, amount).Some? && Money(AddBal(l2, id, amount).value, unpaid - amount)
  {
    TotalBounds(l2.accounts);
    TotalSet(l2.accounts, id, l2.accounts[id].(balance := l2.accounts[id].balance + amount));
  }

  lemma SubBalMoves(l2: Ledger, id: AccountId, amount: int, unpaid: int)
    requires Money(l2, unpaid) && id in l2.accounts && 0 <= amount <= l2.accounts[id].balance
    ensures FitsI64(amount) && SubBal(l2, id, amount).Some?
    ensures Money(SubBal(l2, id, amount).value, unpaid + amount)
  {
    TotalSet(l2.accounts, id, l2.accounts[id].(balance := l2.accounts[id].balance - amount));
  }

  /** The checked addition cannot overflow: no balance exceeds the supply. */
  lemma EntryMoves(l2: Ledger, from: AccountId, e: LogEntry, unpaid: int)
    requires Money(l2, unpaid) && from in l2.accounts && e.to in l2.accounts
    requires (e.Transfer? ==> 0 <= e.amount <= unpaid) && (e.Destroy? ==> e.to != from)
    ensures var r := ApplyEntry(l2, from, e);
            && r.Some? && r.value.supply == l2.supply && r.value.owner == l2.owner
            && r.value.accounts.Keys == l2.accounts.Keys
            && Money(r.value, unpaid - if e.Transfer? then e.amount else 0)
  {
    match e
    case Transfer(to, amount) => AddBalMoves(l2, to, amount, unpaid);
    case Destroy(to) =>
      var acc := l2.accounts[from];
      var emptied := acc.(destroyed := true, balance := 0);
      TotalSet(l2.accounts, from, emptied);
      AddBalMoves(SetAccount(l2, from, emptied), to, acc.balance, unpaid + acc.balance);
  }

  lemma LogFront(l1: Ledger, from: AccountId, log: seq<LogEntry>)
    requires log != [] && LogOk(l1, from, log)
    ensures var front, e := log[..|log| - 1], log[|log| - 1];
            && LogOk(l1, from, front) && e.to in l1.accounts
            && (e.Transfer? ==> e.amount >= 0) && (e.Destroy? ==> e.to != from)
            && Transferred(log) == Transferred(front) + if e.Transfer? then e.amount else 0
  {
    assert log[|log| - 1] in log;
    assert forall e | e in log[..|log| - 1] :: e in log;
  }

  /** What indexing a log leaves. */
  ghost predicate LogApplied(l1: Ledger, from: AccountId, log: seq<LogEntry>, unpaid: int) {
    var r := ApplyLog(l1, from, log);
    && r.Some? && r.value.supply == l1.supply && r.value.owner == l1.owner
    && r.value.accounts.Keys == l1.accounts.Keys
    && Money(r.value, unpaid - Transferred(log))
  }

  lemma {:induction false} LogMoves(l1: Ledger, from: AccountId, log: seq<LogEntry>, unpaid: int)
    requires Money(l1, unpaid) && from in l1.accounts && LogOk(l1, from, log) && Transferred(log) <= unpaid
    ensures LogApplied(l1, from, log, unpaid)
  {
    if log != [] {
      hide ApplyEntry, Money, Transferred, LogOk;
      LogFront(l1, from, log);
      var front, e := log[..|log| - 1], log[|log| - 1];
      LogMoves(l1, from, front, unpaid);
      EntryMoves(ApplyLog(l1, from, front).value, from, e, unpaid - Transferred(front));
    }
  }

  /** The receipt is within the means of the index it is applied to. */
  predicate Affordable(l2: Ledger, r: Receipt) {
    && r.tx.base.fee >= 0
    && match r.tx
       case OwnerTx(base, _, _) => base.fee == 0
       case MintTx(base, to, amount, _, _) =>
         base.fee == 0 && amount >= 0 && to in l2.accounts && l2.supply + amount <= I64_MAX
       case CreateAccountTx(base, creator, account) =>
         && account.balance >= 0 && account.id !in l2.accounts
         && creator in l2.accounts && base.fee + account.balance <= l2.accounts[creator].balance
       case UpdateAccountTx(base, id, _, _) => id in l2.accounts && base.fee <= l2.accounts[id].balance
       case TransferTx(base, from, _, _, amount, _) =>
         && amount >= 0 && from in l2.accounts && base.fee + amount <= l2.accounts[from].balance
         && LogOk(l2, from, r.log) && Transferred(r.log) == amount
  }

  /** Indexing went through, put the fee aside and created only what it should. */
  ghost predicate Indexed(l2: Ledger, r: Receipt, unpaid: int) {
    var o := ApplyReceipt(l2, r);
    && o.Some?
    && Money(o.value, unpaid + r.tx.base.fee)
    && o.value.supply == l2.supply + MintOf(r)
    && o.value.owner == (if r.tx.OwnerTx? then Some(r.tx) else l2.owner)
    && forall id: AccountId :: id in o.value.accounts <==> id in l2.accounts || Creates(r, id)
  }

  lemma AffordableTransfer(l2: Ledger, r: Receipt, unpaid: int)
    requires r.tx.TransferTx? && Money(l2, unpaid) && Affordable(l2, r)
    ensures Indexed(l2, r, unpaid)
  {
    var from, cost := r.tx.from, r.tx.base.fee + r.tx.amount;
    SubBalMoves(l2, from, cost, unpaid);
    var l1 := SubBal(l2, from, cost).value;
    LogMoves(l1, from, r.log, unpaid + cost);
  }

  lemma AffordableMint(l2: Ledger, r: Receipt, unpaid: int)
    requires r.tx.MintTx? && Money(l2, unpaid) && Affordable(l2, r)
    ensures Indexed(l2, r, unpaid)
  {
    var amount := r.tx.amount;
    AddBalMoves(l2.(supply := l2.supply + amount), r.tx.to, amount, unpaid + amount);
  }

  lemma AffordableCreate(l2: Ledger, r: Receipt, unpaid: int)
    requires r.tx.CreateAccountTx? && Money(l2, unpaid) && Affordable(l2, r)
    ensures Indexed(l2, r, unpaid)
  {
    var cost := r.tx.base.fee + r.tx.account.balance;
    SubBalMoves(l2, r.tx.creator, cost, unpaid);
    TotalSet(SubBal(l2, r.tx.creator, cost).value.accounts, r.tx.account.id, r.tx.account);
  }

  lemma AffordableUpdate(l2: Ledger, r: Receipt, unpaid: int)
    requires r.tx.UpdateAccountTx? && Money(l2, unpaid) && Affordable(l2, r)
    ensures Indexed(l2, r, unpaid)
  {
    var acc := l2.accounts[r.tx.accountId];
    var paid := acc.(balance := acc.balance - r.tx.base.fee);
    TotalSet(l2.accounts, r.tx.accountId, PendUpdate(paid, r.tx.newScript, r.tx.newPermissions));
  }

  lemma AffordableIndexes(l2: Ledger, r: Receipt, unpaid: int)
    requires Money(l2, unpaid) && Affordable(l2, r)
    ensures Indexed(l2, r, unpaid)
  {
    if r.tx.MintTx? {
      AffordableMint(l2, r, unpaid);
    } else if r.tx.CreateAccountTx? {
      AffordableCreate(l2, r, unpaid);
    } else if r.tx.UpdateAccountTx? {
      AffordableUpdate(l2, r, unpaid);
    } else if r.tx.TransferTx? {
      AffordableTransfer(l2, r, unpaid);
    }
  }

  // ----- indexing one receipt: one account's pending view -----

  lemma EntryBelow(p: Account, l2: Ledger, l3: Ledger, id: AccountId, from: AccountId, e: LogEntry, exact: bool)
    requires id in l2.accounts && Below(Some(p), l2.accounts[id], exact) && NonNegative(l2.accounts)
    requires ApplyEntry(l2, from, e) == Some(l3)
    requires (e.Transfer? ==> e.amount >= 0) && (e.Destroy? ==> e.to != from)
    ensures id in l3.accounts
    ensures Below(PendEntry(p, id, from, e), l3.accounts[id], exact && !(e.Destroy? && e.to == id))
  {
  }

  lemma NamedInSnoc(log: seq<LogEntry>, e: LogEntry, id: AccountId)
    ensures NamedIn(log + [e], id) <==> NamedIn(log, id) || (e.Destroy? && e.to == id)
  {
    assert e in log + [e];
    assert forall x | x in log :: x in log + [e];
  }

  lemma LogAppliedSolvent(l1: Ledger, from: AccountId, log: seq<LogEntry>, unpaid: int)
    requires LogApplied(l1, from, log, unpaid)
    ensures NonNegative(ApplyLog(l1, from, log).value.accounts)
  {
  }

  lemma {:induction false} LogBelow(p: Account, l1: Ledger, id: AccountId, from: AccountId, log: seq<LogEntry>,
      unpaid: int, exact: bool)
    requires Money(l1, unpaid) && from in l1.accounts && LogOk(l1, from, log) && Transferred(log) <= unpaid
    requires id in l1.accounts && Below(Some(p), l1.accounts[id], exact)
    ensures ApplyLog(l1, from, log).Some? && id in ApplyLog(l1, from, log).value.accounts
    ensures Below(PendLog(p, id, from, log), ApplyLog(l1, from, log).value.accounts[id], exact && !NamedIn(log, id))
  {
    LogMoves(l1, from, log, unpaid);
    if log != [] {
      LogFront(l1, from, log);
      var front, e := log[..|log| - 1], log[|log| - 1];
      assert log == front + [e];
      LogMoves(l1, from, front, unpaid);
      LogAppliedSolvent(l1, from, front, unpaid);
      NamedInSnoc(front, e, id);
      hide ApplyEntry, PendEntry, NamedIn, Transferred, LogOk, Money, NonNegative;
      LogBelow(p, l1, id, from, front, unpaid, exact);
      EntryBelow(PendLog(p, id, from, front).value, ApplyLog(l1, from, front).value,
                 ApplyLog(l1, from, log).value, id, from, e, exact && !NamedIn(front, id));
    }
  }

  /** The account that pays, and what it pays. */
  function Payer(tx: TxVariant): Option<(AccountId, int)> {
    match tx
    case CreateAccountTx(base, creator, account) => Some((creator, base.fee + account.balance))
    case UpdateAccountTx(base, id, _, _) => Some((id, base.fee))
    case TransferTx(base, from, _, _, amount, _) => Some((from, base.fee + amount))
    case _ => None
  }

  lemma ReceiptBelow(p: Account, l2: Ledger, id: AccountId, r: Receipt, unpaid: int, exact: bool)
    requires Money(l2, unpaid) && Affordable(l2, r)
    requires id in l2.accounts && Below(Some(p), l2.accounts[id], exact)
    requires Payer(r.tx).Some? && Payer(r.tx).value.0 == id ==> p.balance >= Payer(r.tx).value.1
    requires ApplyReceipt(l2, r).Some?
    ensures var l3 := ApplyReceipt(l2, r).value;
            id in l3.accounts && Below(PendReceipt(p, id, r), l3.accounts[id], exact && !Names(r, id))
  {
    if r.tx.TransferTx? {
      TransferBelow(p, l2, id, r, unpaid, exact);
    } else {
      hide Money, LogOk, Transferred, NamedIn;
    }
  }

  lemma TransferBelow(p: Account, l2: Ledger, id: AccountId, r: Receipt, unpaid: int, exact: bool)
    requires r.tx.TransferTx? && Money(l2, unpaid) && Affordable(l2, r)
    requires id in l2.accounts && Below(Some(p), l2.accounts[id], exact)
    requires id == r.tx.from ==> p.balance >= r.tx.base.fee + r.tx.amount
    requires ApplyReceipt(l2, r).Some?
    ensures var l3 := ApplyReceipt(l2, r).value;
            id in l3.accounts && Below(PendReceipt(p, id, r), l3.accounts[id], exact && !Names(r, id))
  {
    var from, cost := r.tx.from, r.tx.base.fee + r.tx.amount;
    SubBalMoves(l2, from, cost, unpaid);
    var l1 := SubBal(l2, from, cost).value;
    var debited := if from == id then p.(balance := p.balance - cost) else p;
    hide Money, NamedIn, ApplyLog, PendLog, Transferred;
    LogBelow(debited, l1, id, from, r.log, unpaid + cost, exact);
  }

  // ----- receipt by receipt -----

  lemma CreatedSnoc(rs: seq<Receipt>, r: Receipt, id: AccountId)
    ensures Created(rs + [r], id) <==> Created(rs, id) || Creates(r, id)
  {
    assert r in rs + [r];
    assert forall x | x in rs :: x in rs + [r];
  }

  lemma NamedSnoc(rs: seq<Receipt>, r: Receipt, id: AccountId)
    ensures Named(rs + [r], id) <==> Named(rs, id) || Names(r, id)
  {
    assert r in rs + [r];
    assert forall x | x in rs :: x in rs + [r];
  }

  lemma SumsSnoc(rs: seq<Receipt>, r: Receipt)
    ensures Fees(rs + [r]) == Fees(rs) + r.tx.base.fee
    ensures Minted(rs + [r]) == Minted(rs) + MintOf(r)
  {
    assert (rs + [r])[..|rs + [r]| - 1] == rs;
  }

  /** What the pending view can pay, the index can pay. */
  lemma CoveredPays(l: Ledger, rs: seq<Receipt>, l2: Ledger, id: AccountId, debit: int)
    requires AllBelow(l, rs, l2) && Covered(l, rs, id, debit)
    ensures id in l.accounts && id in l2.accounts && debit <= l2.accounts[id].balance
  {
    GetAccountIndexed(l, id, rs);
    assert BelowAt(l, rs, l2, id);
  }

  lemma AdmissibleIsAffordable(l: Ledger, rs: seq<Receipt>, l2: Ledger, r: Receipt)
    requires Agree(l, rs, l2) && Admissible(l, rs, r)
    requires MintTargetKnown(l, rs, r) && l2.supply + MintOf(r) <= I64_MAX
    ensures Affordable(l2, r)
  {
    if Payer(r.tx).Some? {
      CoveredPays(l, rs, l2, Payer(r.tx).value.0, Payer(r.tx).value.1);
    }
  }

  lemma BelowNext(l: Ledger, rs: seq<Receipt>, l2: Ledger, r: Receipt, id: AccountId)
    requires Agree(l, rs, l2) && Admissible(l, rs, r) && Affordable(l2, r) && id in l.accounts
    requires ApplyReceipt(l2, r).Some?
    ensures BelowAt(l, rs + [r], ApplyReceipt(l2, r).value, id)
  {
    assert BelowAt(l, rs, l2, id);
    NamedSnoc(rs, r, id);
    GetAccountSnoc(l, id, rs, r);
    hide ApplyReceipt, GetAccount, Named, Names, Affordable, PendReceipt;
    ReceiptBelow(GetAccount(l, id, rs).value, l2, id, r, Fees(rs), !Named(rs, id));
  }

  /** Whatever was admitted against the pending view can be indexed, and the two still agree. */
  lemma ReceiptStep(l: Ledger, rs: seq<Receipt>, l2: Ledger, r: Receipt)
    requires Agree(l, rs, l2) && Admissible(l, rs, r)
    requires MintTargetKnown(l, rs, r) && l2.supply + MintOf(r) <= I64_MAX
    ensures ApplyReceipt(l2, r).Some?
    ensures Agree(l, rs + [r], ApplyReceipt(l2, r).value)
  {
    hide ApplyReceipt, Affordable, Covered, LogOk, Created, Creates, BelowAt, Money, Fees, Minted;
    AdmissibleIsAffordable(l, rs, l2, r);
    AffordableIndexes(l2, r, Fees(rs));
    SumsSnoc(rs, r);
    var l3 := ApplyReceipt(l2, r).value;
    assert Known(l, rs + [r], l3) by {
      forall id: AccountId
        ensures id in l3.accounts <==> id in l.accounts || Created(rs + [r], id)
      {
        CreatedSnoc(rs, r, id);
      }
    }
    assert AllBelow(l, rs + [r], l3) by {
      forall id | id in l.accounts
        ensures BelowAt(l, rs + [r], l3, id)
      {
        BelowNext(l, rs, l2, r, id);
      }
    }
  }

  // ----- lists of receipts -----

  lemma {:induction false} MintedNonNegative(rs: seq<Receipt>, l: Ledger, k: nat)
    requires AllAdmissible(l, rs) && k <= |rs|
    ensures Minted(rs[..k]) <= Minted(rs)
    decreases |rs| - k
  {
    hide Covered, Created, LogOk;
    if k < |rs| {
      assert Admissible(l, rs[..k], rs[k]);
      assert rs[..k + 1] == rs[..k] + [rs[k]];
      SumsSnoc(rs[..k], rs[k]);
      MintedNonNegative(rs, l, k + 1);
    } else {
      assert rs[..k] == rs;
    }
  }

  /** Admission receipt by receipt makes indexing succeed as far as the mints allow. */
  lemma {:induction false} ApplyAdmitted(l: Ledger, rs: seq<Receipt>, k: nat)
    requires LedgerInv(l) && AllAdmissible(l, rs) && MintsOk(l, rs) && k <= |rs|
    ensures ApplyReceipts(l, rs[..k]).Some?
    ensures Agree(l, rs[..k], ApplyReceipts(l, rs[..k]).value)
    decreases k
  {
    hide ApplyReceipt, Admissible, LedgerInv, MintTargetKnown, Money, Known, AllBelow, OwnerKnown;
    if k == 0 {
      assert rs[..0] == [];
      AgreeStart(l);
    } else {
      ApplyAdmitted(l, rs, k - 1);
      var front, r := rs[..k - 1], rs[k - 1];
      assert rs[..k] == front + [r] && rs[..k][..k - 1] == front;
      assert Admissible(l, front, r) && MintTargetKnown(l, front, r);
      SumsSnoc(front, r);
      MintedNonNegative(rs, l, k);
      ReceiptStep(l, front, ApplyReceipts(l, front).value, r);
    }
  }

  /** Indexing adds accounts by creation alone and supply by minting alone. */
  lemma {:induction false} ApplyTracks(l: Ledger, rs: seq<Receipt>)
    requires ApplyReceipts(l, rs).Some?
    ensures Known(l, rs, ApplyReceipts(l, rs).value)
    ensures ApplyReceipts(l, rs).value.supply == l.supply + Minted(rs)
  {
    if rs != [] {
      var front, r := rs[..|rs| - 1], rs[|rs| - 1];
      ApplyTracks(l, front);
      assert rs == front + [r];
      SumsSnoc(front, r);
      var l1 := ApplyReceipts(l, front).value;
      ReceiptTracks(l1, r);
      forall id: AccountId { CreatedSnoc(front, r, id); }
    }
  }

  lemma ReceiptTracks(l: Ledger, r: Receipt)
    requires ApplyReceipt(l, r).Some?
    ensures forall id: AccountId :: id in ApplyReceipt(l, r).value.accounts <==> id in l.accounts || Creates(r, id)
    ensures ApplyReceipt(l, r).value.supply == l.supply + MintOf(r)
  {
    if r.tx.TransferTx? {
      var l1 := SubBal(l, r.tx.from, r.tx.base.fee + r.tx.amount).value;
      LogTracks(l1, r.tx.from, r.log);
    }
  }

  lemma {:induction false} LogTracks(l: Ledger, from: AccountId, log: seq<LogEntry>)
    requires ApplyLog(l, from, log).Some?
    ensures ApplyLog(l, from, log).value.accounts.Keys == l.accounts.Keys
    ensures ApplyLog(l, from, log).value.supply == l.supply
  {
    if log != [] {
      LogTracks(l, from, log[..|log| - 1]);
    }
  }

  lemma {:induction false} MintsNeeded(l: Ledger, rs: seq<Receipt>)
    requires ApplyReceipts(l, rs).Some?
    ensures MintsOk(l, rs)
  {
    ApplyTracks(l, rs);
    if rs != [] {
      var front, r := rs[..|rs| - 1], rs[|rs| - 1];
      MintsNeeded(l, front);
      ApplyTracks(l, front);
      forall i | 0 <= i < |rs| ensures MintTargetKnown(l, rs[..i], rs[i]) {
        assert rs[..i] == front[..i];
        if i < |front| {
          assert MintTargetKnown(l, front[..i], front[i]);
        }
      }
    }
  }

  /** Exactly when receipts that were admitted one by one can be indexed together: no unwrap fails
      if every mint has a known target and the mints fit the supply, and only then. */
  lemma IndexingSucceedsIff(l: Ledger, rs: seq<Receipt>)
    requires LedgerInv(l) && AllAdmissible(l, rs)
    ensures ApplyReceipts(l, rs).Some? <==> MintsOk(l, rs)
  {
    if MintsOk(l, rs) {
      ApplyAdmitted(l, rs, |rs|);
      assert rs[..|rs|] == rs;
    }
    if ApplyReceipts(l, rs).Some? {
      MintsNeeded(l, rs);
    }
  }

  /** The pending view never promises more than the block will hold, and promises all of it to
      every account that no Destroy entry names. */
  lemma PendingIsConservative(l: Ledger, rs: seq<Receipt>, id: AccountId)
    requires LedgerInv(l) && AllAdmissible(l, rs) && ApplyReceipts(l, rs).Some? && id in l.accounts
    ensures id in ApplyReceipts(l, rs).value.accounts
    ensures var p, a := GetAccount(l, id, rs), ApplyReceipts(l, rs).value.accounts[id];
            && p.Some? && 0 <= p.value.balance <= a.balance && p.value.destroyed == a.destroyed
            && (!Named(rs, id) ==> p.value.balance == a.balance)
  {
    MintsNeeded(l, rs);
    ApplyAdmitted(l, rs, |rs|);
    assert rs[..|rs|] == rs;
    assert BelowAt(l, rs, ApplyReceipts(l, rs).value, id);
  }

  // ----- rewards -----

  lemma {:induction false} FeeTotalIsFees(rs: seq<Receipt>)
    ensures FeeTotal(rs).Some? ==> FeeTotal(rs).value == Fees(rs)
  {
    if rs != [] {
      FeeTotalIsFees(rs[..|rs| - 1]);
    }
  }

  /** The fees are part of the supply. */
  lemma FeesFit(l: Ledger, rs: seq<Receipt>, k: nat)
    requires LedgerInv(l) && AllAdmissible(l, rs) && MintsOk(l, rs) && k <= |rs|
    ensures 0 <= Fees(rs[..k]) <= I64_MAX
  {
    ApplyAdmitted(l, rs, k);
    hide LedgerInv, AllAdmissible, MintsOk, Known, AllBelow, ApplyReceipts, Fees;
    TotalBounds(ApplyReceipts(l, rs[..k]).value.accounts);
  }

  /** The fold over the fees cannot overflow either: the fees are part of the supply. */
  lemma {:induction false} FeeTotalSucceeds(l: Ledger, rs: seq<Receipt>, k: nat)
    requires LedgerInv(l) && AllAdmissible(l, rs) && MintsOk(l, rs) && k <= |rs|
    ensures FeeTotal(rs[..k]) == Some(Fees(rs[..k]))
    decreases k
  {
    hide LedgerInv, AllAdmissible, MintsOk;
    FeesFit(l, rs, k);
    if k > 0 {
      FeeTotalSucceeds(l, rs, k - 1);
      assert rs[..k][..k - 1] == rs[..k - 1];
    }
  }

  /** A block of admitted receipts whose rewards are its fees: it can be indexed exactly when its
      mints can, and then all money is in solvent accounts again. */
  lemma BlockConserves(l: Ledger, b: Block)
    requires LedgerInv(l) && AllAdmissible(l, b.receipts) && FeeTotal(b.receipts) == Some(b.rewards)
    ensures ApplyBlock(l, b).Some? <==> MintsOk(l, b.receipts)
    ensures ApplyBlock(l, b).Some? ==>
              LedgerInv(ApplyBlock(l, b).value) && ApplyBlock(l, b).value.supply == l.supply + Minted(b.receipts)
  {
    var rs := b.receipts;
    IndexingSucceedsIff(l, rs);
    FeeTotalIsFees(rs);
    if MintsOk(l, rs) {
      ApplyAdmitted(l, rs, |rs|);
      assert rs[..|rs|] == rs;
      hide ApplyReceipts, AllBelow, MintsOk, AllAdmissible;
      var l2 := ApplyReceipts(l, rs).value;
      AddBalMoves(l2, l2.owner.value.wallet, b.rewards, Fees(rs));
    }
  }
}
