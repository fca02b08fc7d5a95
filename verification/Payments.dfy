// Who is paid: what each account holds behind a list of receipts, in integers and sums
// (`index_receipt`, `index_transfer_log` and `get_account` in blockchain/mod.rs).

module Payments {
  import opened Wrappers
  import opened Numbers
  import opened Assets
  import opened Crypto
  import opened Accounts
  import opened Transactions
  import opened Blocks
  import opened Ledgers
  import opened Engine
  import opened Accounting
  import opened Conservation
  import opened Chains
  import opened Nodes
  import opened Runs
  import opened Rights

  // ----- one log -----

  /** What the Transfer entries give the account. */
  function PaidTo(log: seq<LogEntry>, id: AccountId): int {
    if log == [] then 0
    else
      var e := log[|log| - 1];
      PaidTo(log[..|log| - 1], id) + if e.Transfer? && e.to == id then e.amount else 0
  }

  predicate Closes(log: seq<LogEntry>) {
    exists e | e in log :: e.Destroy?
  }

  /** No account that the log closes hands its funds to or from this one. */
  predicate Aside(log: seq<LogEntry>, from: AccountId, id: AccountId) {
    forall e | e in log && e.Destroy? :: from != id && e.to != id
  }

  /** Nothing held is nothing. */
  function Balance(l: Ledger, id: AccountId): int {
    if id in l.accounts then l.accounts[id].balance else 0
  }

  /** What the account holds behind the log of a transfer out of `from`. */
  function LogHolds(before: AccountId -> int, from: AccountId, log: seq<LogEntry>, id: AccountId): int
    decreases |log|
  {
    if log == [] then before(id)
    else
      var front := log[..|log| - 1];
      match log[|log| - 1]
      case Transfer(to, amount) => LogHolds(before, from, front, id) + if to == id then amount else 0
      case Destroy(to) =>
        (if from == id then 0 else LogHolds(before, from, front, id))
        + if to == id then LogHolds(before, from, front, from) else 0
  }

  /** Transfer entries add up. */
  lemma {:induction false} TransfersAddUp(before: AccountId -> int, from: AccountId, log: seq<LogEntry>, id: AccountId)
    requires Aside(log, from, id)
    ensures LogHolds(before, from, log, id) == before(id) + PaidTo(log, id)
  {
    if log != [] {
      assert log[|log| - 1] in log;
      TransfersAddUp(before, from, log[..|log| - 1], id);
    }
  }

  /** Behind a Destroy entry there is at most one transfer, to the account it names. */
  predicate Rest(post: seq<LogEntry>, to: AccountId) {
    post == [] || (|post| == 1 && post[0].Transfer? && post[0].to == to)
  }

  /** A Destroy entry behind transfers leaves the sender with nothing and hands all of it over, to the
      account that is sent the rest as well. */
  lemma {:induction false} DestroyHandsOver(before: AccountId -> int, from: AccountId, pre: seq<LogEntry>,
      to: AccountId, post: seq<LogEntry>, id: AccountId)
    requires !Closes(pre) && to != from && Rest(post, to)
    ensures LogHolds(before, from, pre + [Destroy(to)] + post, id)
         == if id == from then 0
            else before(id) + PaidTo(pre, id)
                 + if id == to then before(from) + PaidTo(pre, from) + PaidTo(post, to) else 0
  {
    var most := pre + [Destroy(to)];
    assert most[..|most| - 1] == pre;
    TransfersAddUp(before, from, pre, id);
    TransfersAddUp(before, from, pre, from);
    if post == [] {
      assert most + post == most;
    } else {
      assert (most + post)[..|most + post| - 1] == most;
      assert PaidTo(post[..0], to) == 0;
    }
  }

  lemma {:induction false} LogHoldsSame(a: AccountId -> int, b: AccountId -> int, from: AccountId, log: seq<LogEntry>,
      id: AccountId)
    requires forall x: AccountId :: a(x) == b(x)
    ensures LogHolds(a, from, log, id) == LogHolds(b, from, log, id)
    decreases |log|
  {
    if log != [] {
      LogHoldsSame(a, b, from, log[..|log| - 1], id);
      LogHoldsSame(a, b, from, log[..|log| - 1], from);
    }
  }

  lemma EntryBalance(l: Ledger, from: AccountId, e: LogEntry, id: AccountId)
    requires ApplyEntry(l, from, e).Some? && from in l.accounts
    ensures Balance(ApplyEntry(l, from, e).value, id)
         == match e
            case Transfer(to, amount) => Balance(l, id) + if to == id then amount else 0
            case Destroy(to) => (if from == id then 0 else Balance(l, id)) + if to == id then Balance(l, from) else 0
  {
  }

  lemma {:induction false} LogBalance(l: Ledger, from: AccountId, log: seq<LogEntry>, id: AccountId)
    requires ApplyLog(l, from, log).Some? && from in l.accounts
    ensures Balance(ApplyLog(l, from, log).value, id) == LogHolds((x: AccountId) => Balance(l, x), from, log, id)
    decreases |log|
  {
    if log != [] {
      var front := log[..|log| - 1];
      LogTracks(l, from, front);
      LogBalance(l, from, front, id);
      LogBalance(l, from, front, from);
      EntryBalance(ApplyLog(l, from, front).value, from, log[|log| - 1], id);
      hide ApplyEntry, Balance;
    }
  }

  /** Every account holds what the log leaves it. */
  ghost predicate LogPaid(l: Ledger, l2: Ledger, from: AccountId, log: seq<LogEntry>) {
    forall id: AccountId :: Balance(l2, id) == LogHolds((x: AccountId) => Balance(l, x), from, log, id)
  }

  // ----- receipts -----

  /** What the account holds behind the receipts. */
  function Holds(l: Ledger, rs: seq<Receipt>, id: AccountId): int
    decreases |rs|
  {
    if rs == [] then Balance(l, id)
    else
      var front, r := rs[..|rs| - 1], rs[|rs| - 1];
      var held := Holds(l, front, id);
      match r.tx
      case OwnerTx(_, _, _) => held
      case MintTx(_, to, amount, _, _) => held + if to == id then amount else 0
      case CreateAccountTx(base, creator, account) =>
        if account.id == id then account.balance
        else held - if creator == id then base.fee + account.balance else 0
      case UpdateAccountTx(base, updated, _, _) => held - if updated == id then base.fee else 0
      case TransferTx(base, from, _, _, amount, _) =>
        LogHolds((x: AccountId) => Holds(l, front, x) - (if x == from then base.fee + amount else 0), from, r.log, id)
  }

  lemma ReceiptBalance(l: Ledger, r: Receipt, id: AccountId)
    requires ApplyReceipt(l, r).Some? && !r.tx.TransferTx?
    ensures Balance(ApplyReceipt(l, r).value, id)
         == match r.tx
            case OwnerTx(_, _, _) => Balance(l, id)
            case MintTx(_, to, amount, _, _) => Balance(l, id) + if to == id then amount else 0
            case CreateAccountTx(base, creator, account) =>
              if account.id == id then account.balance
              else Balance(l, id) - if creator == id then base.fee + account.balance else 0
            case UpdateAccountTx(base, updated, _, _) => Balance(l, id) - if updated == id then base.fee else 0
  {
  }

  lemma TransferBalance(l: Ledger, r: Receipt, id: AccountId, before: AccountId -> int)
    requires ApplyReceipt(l, r).Some? && r.tx.TransferTx?
    requires forall x: AccountId :: before(x) == Balance(l, x) - if x == r.tx.from then r.tx.base.fee + r.tx.amount else 0
    ensures Balance(ApplyReceipt(l, r).value, id) == LogHolds(before, r.tx.from, r.log, id)
  {
    var cost := r.tx.base.fee + r.tx.amount;
    var l1 := SubBal(l, r.tx.from, cost).value;
    LogBalance(l1, r.tx.from, r.log, id);
    assert forall x: AccountId :: Balance(l1, x) == Balance(l, x) - if x == r.tx.from then cost else 0;
    hide Balance, ApplyLog, LogHolds;
    LogHoldsSame((x: AccountId) => Balance(l1, x), before, r.tx.from, r.log, id);
  }

  /** Indexing a list of receipts leaves every account with what it holds. */
  lemma {:induction false} BalancesAre(l: Ledger, rs: seq<Receipt>, id: AccountId)
    requires ApplyReceipts(l, rs).Some?
    ensures Balance(ApplyReceipts(l, rs).value, id) == Holds(l, rs, id)
    decreases |rs|
  {
    if rs != [] {
      hide ApplyReceipt, Balance, LogHolds;
      var front, r := rs[..|rs| - 1], rs[|rs| - 1];
      forall x: AccountId
        ensures Balance(ApplyReceipts(l, front).value, x) == Holds(l, front, x)
      {
        BalancesAre(l, front, x);
      }
      if r.tx.TransferTx? {
        TransferBalance(ApplyReceipts(l, front).value, r, id,
                        (x: AccountId) => Holds(l, front, x) - if x == r.tx.from then r.tx.base.fee + r.tx.amount else 0);
      } else {
        ReceiptBalance(ApplyReceipts(l, front).value, r, id);
      }
    }
  }

  // ----- in sums -----

  /** What a receipt gives the account: a mint to it, and the Transfer entries that name it. */
  function Gets(r: Receipt, id: AccountId): int {
    if r.tx.MintTx? then if r.tx.to == id then r.tx.amount else 0
    else if r.tx.TransferTx? then PaidTo(r.log, id)
    else 0
  }

  /** What it pays in fees, amounts sent and accounts opened. */
  function Pays(r: Receipt, id: AccountId): int {
    var payer := Payer(r.tx);
    if payer.Some? && payer.value.0 == id then payer.value.1 else 0
  }

  function Got(rs: seq<Receipt>, id: AccountId): int {
    if rs == [] then 0 else Got(rs[..|rs| - 1], id) + Gets(rs[|rs| - 1], id)
  }

  function Paid(rs: seq<Receipt>, id: AccountId): int {
    if rs == [] then 0 else Paid(rs[..|rs| - 1], id) + Pays(rs[|rs| - 1], id)
  }

  /** No receipt opens the account, and no Destroy entry hands its funds to or from it. */
  predicate Undisturbed(rs: seq<Receipt>, id: AccountId) {
    !Created(rs, id) && forall r | r in rs && r.tx.TransferTx? :: Aside(r.log, r.tx.from, id)
  }

  lemma HoldsNext(l: Ledger, front: seq<Receipt>, r: Receipt, id: AccountId)
    requires !Creates(r, id) && (r.tx.TransferTx? ==> Aside(r.log, r.tx.from, id))
    ensures Holds(l, front + [r], id) == Holds(l, front, id) + Gets(r, id) - Pays(r, id)
  {
    assert (front + [r])[..|front + [r]| - 1] == front;
    if r.tx.TransferTx? {
      hide Aside, PaidTo;
      var cost := r.tx.base.fee + r.tx.amount;
      TransfersAddUp((x: AccountId) => Holds(l, front, x) - (if x == r.tx.from then cost else 0), r.tx.from, r.log, id);
    }
  }

  lemma FrontOf(rs: seq<Receipt>, k: nat)
    requires k < |rs|
    ensures var front, part := rs[..|rs| - 1], rs[k..];
            && part[..|part| - 1] == front[k..] && front[..k] == rs[..k] && rs == front + [rs[|rs| - 1]]
            && part == front[k..] + [rs[|rs| - 1]]
  {
  }

  lemma {:induction false} HoldsFrom(l: Ledger, rs: seq<Receipt>, k: nat, id: AccountId)
    requires k <= |rs| && Undisturbed(rs[k..], id)
    ensures Holds(l, rs, id) == Holds(l, rs[..k], id) + Got(rs[k..], id) - Paid(rs[k..], id)
    decreases |rs|
  {
    hide Holds, Aside, Gets, Pays, Creates;
    if k == |rs| {
      assert rs[..k] == rs && rs[k..] == [];
    } else {
      var front, r := rs[..|rs| - 1], rs[|rs| - 1];
      FrontOf(rs, k);
      assert r in rs[k..] && forall x | x in front[k..] :: x in rs[k..];
      HoldsFrom(l, front, k, id);
      HoldsNext(l, front, r, id);
    }
  }

  /** An account that no Destroy entry concerns ends up with what it had, the mints to it and the
      Transfer entries that name it, less the fees, amounts and openings it pays for. An account that
      is opened on the way starts with its opening balance. */
  lemma BalancesAddUp(l: Ledger, rs: seq<Receipt>, id: AccountId)
    requires ApplyReceipts(l, rs).Some?
    ensures Undisturbed(rs, id) ==>
              Balance(ApplyReceipts(l, rs).value, id) == Balance(l, id) + Got(rs, id) - Paid(rs, id)
    ensures forall i | 0 <= i < |rs| && Creates(rs[i], id) && Undisturbed(rs[i + 1..], id) ::
              Balance(ApplyReceipts(l, rs).value, id)
              == rs[i].tx.account.balance + Got(rs[i + 1..], id) - Paid(rs[i + 1..], id)
  {
    hide ApplyReceipts, Undisturbed, Got, Paid, Balance;
    BalancesAre(l, rs, id);
    if Undisturbed(rs, id) {
      assert rs[..0] == [] && rs[0..] == rs;
      HoldsFrom(l, rs, 0, id);
    }
    forall i | 0 <= i < |rs| && Creates(rs[i], id) && Undisturbed(rs[i + 1..], id)
      ensures Holds(l, rs, id) == rs[i].tx.account.balance + Got(rs[i + 1..], id) - Paid(rs[i + 1..], id)
    {
      HoldsFrom(l, rs, i + 1, id);
      assert rs[..i + 1][i] == rs[i];
    }
  }

  predicate IsClosing(r: Receipt, pre: seq<LogEntry>, to: AccountId, post: seq<LogEntry>) {
    && r.tx.TransferTx? && r.log == pre + [Destroy(to)] + post
    && !Closes(pre) && to != r.tx.from && Rest(post, to)
  }

  /** A transfer that closes its sender's account: the sender ends with nothing and is flagged, the account
      named has what the sender had left, and everyone else what was sent to it. */
  lemma ClosingPays(l: Ledger, r: Receipt, pre: seq<LogEntry>, to: AccountId, post: seq<LogEntry>, id: AccountId)
    requires IsClosing(r, pre, to, post) && ApplyReceipt(l, r).Some?
    ensures var l', from := ApplyReceipt(l, r).value, r.tx.from;
            && from in l'.accounts && l'.accounts[from].destroyed && l'.accounts[from].balance == 0
            && Balance(l', to) == Balance(l, to) + PaidTo(pre, to) + PaidTo(post, to)
                                  + Balance(l, from) - r.tx.base.fee - r.tx.amount + PaidTo(pre, from)
            && (id != from && id != to ==> Balance(l', id) == Balance(l, id) + PaidTo(pre, id))
  {
    var from, cost := r.tx.from, r.tx.base.fee + r.tx.amount;
    var before := (x: AccountId) => Balance(l, x) - if x == from then cost else 0;
    hide ApplyReceipt, Closes, LogHolds, PaidTo, Rest;
    ClosingFlags(l, r, pre, to, post);
    forall x: AccountId ensures Balance(ApplyReceipt(l, r).value, x) == LogHolds(before, from, r.log, x) {
      TransferBalance(l, r, x, before);
    }
    DestroyHandsOver(before, from, pre, to, post, from);
    DestroyHandsOver(before, from, pre, to, post, to);
    DestroyHandsOver(before, from, pre, to, post, id);
  }

  lemma ClosingFlags(l: Ledger, r: Receipt, pre: seq<LogEntry>, to: AccountId, post: seq<LogEntry>)
    requires IsClosing(r, pre, to, post) && ApplyReceipt(l, r).Some?
    ensures var l' := ApplyReceipt(l, r).value; r.tx.from in l'.accounts && l'.accounts[r.tx.from].destroyed
  {
    hide ApplyLog, Closes;
    var l1 := SubBal(l, r.tx.from, r.tx.base.fee + r.tx.amount).value;
    LogFlag(l1, r.tx.from, r.log, r.tx.from);
    assert r.log[|pre|] == Destroy(to);
    HasDestroy(r.log, |pre|);
  }

  lemma HasDestroy(log: seq<LogEntry>, i: nat)
    requires i < |log| && log[i].Destroy?
    ensures Closes(log)
  {
    assert log[i] in log;
  }

  /** Every log that a script leaves is one of transfers only, or of this kind. */
  lemma ExecutedCloses(o: Oracles, ch: Chain, r: Receipt, rs: seq<Receipt>)
      returns (pre: seq<LogEntry>, to: AccountId, post: seq<LogEntry>)
    requires ch.blocks != [] && Execute(o, ch, r.tx, rs) == Executed(r.log) && r.tx.TransferTx? && Closes(r.log)
    ensures IsClosing(r, pre, to, post)
  {
    ExecutedShape(o, ch, r, rs);
    hide Execute, OpenTarget;
    pre, to, post := ClosingShape(Lookup(ch.ledger, rs), r);
  }

  lemma ExecutedShape(o: Oracles, ch: Chain, r: Receipt, rs: seq<Receipt>)
    requires ch.blocks != [] && Execute(o, ch, r.tx, rs) == Executed(r.log) && r.tx.TransferTx?
    ensures LogShape(Lookup(ch.ledger, rs), r.tx.from, r.log)
  {
    hide Eval, GetAccount, LogShape, Transferred, GetAccountInfo;
    SuccessAccountsForAmount(ScriptData(o, ch, r.tx, rs, CheckTransfer(ch, r.tx, rs).value.script));
  }

  lemma ClosingShape(lookup: AccountId -> Option<Account>, r: Receipt)
      returns (pre: seq<LogEntry>, to: AccountId, post: seq<LogEntry>)
    requires r.tx.TransferTx? && LogShape(lookup, r.tx.from, r.log) && Closes(r.log)
    ensures IsClosing(r, pre, to, post)
  {
    hide OpenTarget;
    var log := r.log;
    var e :| e in log && e.Destroy?;
    var i :| 0 <= i < |log| && log[i] == e;
    assert EntryShape(lookup, r.tx.from, log, i);
    pre, to, post := log[..i], e.to, log[i + 1..];
    forall x | x in pre ensures !x.Destroy? {
      var j :| 0 <= j < i && log[j] == x;
      assert EntryShape(lookup, r.tx.from, log, j);
    }
  }

  // ----- the flag -----

  predicate ClosesAccount(r: Receipt, id: AccountId) {
    r.tx.TransferTx? && r.tx.from == id && Closes(r.log)
  }

  lemma {:induction false} LogFlag(l: Ledger, from: AccountId, log: seq<LogEntry>, id: AccountId)
    requires ApplyLog(l, from, log).Some? && id in l.accounts
    ensures id in ApplyLog(l, from, log).value.accounts
    ensures ApplyLog(l, from, log).value.accounts[id].destroyed
       <==> l.accounts[id].destroyed || (from == id && Closes(log))
  {
    hide CheckedAdd;
    if log != [] {
      var front, e := log[..|log| - 1], log[|log| - 1];
      LogFlag(l, from, front, id);
      assert log == front + [e] && e in log;
      assert Closes(log) <==> Closes(front) || e.Destroy?;
      hide Closes;
    }
  }

  lemma ReceiptFlag(l: Ledger, r: Receipt, id: AccountId)
    requires ApplyReceipt(l, r).Some? && id in l.accounts && !Creates(r, id)
    ensures id in ApplyReceipt(l, r).value.accounts
    ensures ApplyReceipt(l, r).value.accounts[id].destroyed <==> l.accounts[id].destroyed || ClosesAccount(r, id)
  {
    hide CheckedAdd, CheckedSub, ApplyLog, Closes;
    if r.tx.TransferTx? {
      var cost := CheckedAdd(r.tx.base.fee, r.tx.amount);
      LogFlag(SubBal(l, r.tx.from, cost.value).value, r.tx.from, r.log, id);
    }
  }

  /** An account is destroyed by a transfer of its own with a Destroy entry, and by nothing else. */
  lemma {:induction false} FlaggedIff(l: Ledger, rs: seq<Receipt>, id: AccountId)
    requires ApplyReceipts(l, rs).Some? && id in l.accounts && !Created(rs, id)
    ensures id in ApplyReceipts(l, rs).value.accounts
    ensures ApplyReceipts(l, rs).value.accounts[id].destroyed
       <==> l.accounts[id].destroyed || exists r | r in rs :: ClosesAccount(r, id)
  {
    if rs != [] {
      hide ApplyReceipt, Closes;
      var front, r := rs[..|rs| - 1], rs[|rs| - 1];
      assert rs == front + [r] && r in rs;
      FlaggedIff(l, front, id);
      ReceiptFlag(ApplyReceipts(l, front).value, r, id);
    }
  }

  // ----- script, permissions, owner -----

  /** The script of the newest update of the account that has one, of its opening, or the one before. */
  function LastScript(start: seq<byte>, rs: seq<Receipt>, id: AccountId): seq<byte> {
    if rs == [] then start
    else
      var front, tx := rs[..|rs| - 1], rs[|rs| - 1].tx;
      if tx.UpdateAccountTx? && tx.accountId == id && tx.newScript.Some? then tx.newScript.value
      else if tx.CreateAccountTx? && tx.account.id == id then tx.account.script
      else LastScript(start, front, id)
  }

  function LastPermissions(start: Permissions, rs: seq<Receipt>, id: AccountId): Permissions {
    if rs == [] then start
    else
      var front, tx := rs[..|rs| - 1], rs[|rs| - 1].tx;
      if tx.UpdateAccountTx? && tx.accountId == id && tx.newPermissions.Some? then tx.newPermissions.value
      else if tx.CreateAccountTx? && tx.account.id == id then tx.account.permissions
      else LastPermissions(start, front, id)
  }

  function LastOwner(start: Option<TxVariant>, rs: seq<Receipt>): Option<TxVariant> {
    if rs == [] then start
    else if rs[|rs| - 1].tx.OwnerTx? then Some(rs[|rs| - 1].tx)
    else LastOwner(start, rs[..|rs| - 1])
  }

  lemma ReceiptRights(l: Ledger, r: Receipt, id: AccountId)
    requires ApplyReceipt(l, r).Some? && id in ApplyReceipt(l, r).value.accounts
    ensures var l', tx := ApplyReceipt(l, r).value, r.tx;
            if tx.CreateAccountTx? && tx.account.id == id then l'.accounts[id] == tx.account
            else if tx.UpdateAccountTx? && tx.accountId == id
            then id in l.accounts
                 && (if tx.newScript.Some? then l'.accounts[id].script == tx.newScript.value
                     else l'.accounts[id].script == l.accounts[id].script)
                 && (if tx.newPermissions.Some? then l'.accounts[id].permissions == tx.newPermissions.value
                     else l'.accounts[id].permissions == l.accounts[id].permissions)
            else id in l.accounts && SameRights(l'.accounts[id], l.accounts[id])
  {
    hide CheckedAdd, CheckedSub, ApplyLog;
    if r.tx.TransferTx? {
      var cost := CheckedAdd(r.tx.base.fee, r.tx.amount);
      var l1 := SubBal(l, r.tx.from, cost.value).value;
      LogTracks(l1, r.tx.from, r.log);
      ApplyLogKeepsRights(l1, id, r.tx.from, r.log);
    }
  }

  /** What indexing leaves of the rights of an account: exactly what its own newest updates say. */
  lemma {:induction false} RightsAre(l: Ledger, rs: seq<Receipt>, id: AccountId, script: seq<byte>, perms: Permissions)
    requires ApplyReceipts(l, rs).Some? && id in ApplyReceipts(l, rs).value.accounts
    requires id in l.accounts ==> script == l.accounts[id].script && perms == l.accounts[id].permissions
    ensures ApplyReceipts(l, rs).value.accounts[id].script == LastScript(script, rs, id)
    ensures ApplyReceipts(l, rs).value.accounts[id].permissions == LastPermissions(perms, rs, id)
  {
    if rs != [] {
      hide ApplyReceipt;
      var front, r := rs[..|rs| - 1], rs[|rs| - 1];
      ReceiptRights(ApplyReceipts(l, front).value, r, id);
      if id in ApplyReceipts(l, front).value.accounts {
        RightsAre(l, front, id, script, perms);
      }
    }
  }

  lemma {:induction false} LogLeavesOwner(l: Ledger, from: AccountId, log: seq<LogEntry>)
    requires ApplyLog(l, from, log).Some?
    ensures ApplyLog(l, from, log).value.owner == l.owner
  {
    if log != [] {
      LogLeavesOwner(l, from, log[..|log| - 1]);
    }
  }

  lemma ReceiptOwner(l: Ledger, r: Receipt)
    requires ApplyReceipt(l, r).Some?
    ensures ApplyReceipt(l, r).value.owner == if r.tx.OwnerTx? then Some(r.tx) else l.owner
  {
    hide CheckedAdd, CheckedSub, ApplyLog;
    if r.tx.TransferTx? {
      var cost := CheckedAdd(r.tx.base.fee, r.tx.amount);
      LogLeavesOwner(SubBal(l, r.tx.from, cost.value).value, r.tx.from, r.log);
    }
  }

  lemma {:induction false} OwnerIs(l: Ledger, rs: seq<Receipt>)
    requires ApplyReceipts(l, rs).Some?
    ensures ApplyReceipts(l, rs).value.owner == LastOwner(l.owner, rs)
  {
    if rs != [] {
      hide ApplyReceipt;
      OwnerIs(l, rs[..|rs| - 1]);
      ReceiptOwner(ApplyReceipts(l, rs[..|rs| - 1]).value, rs[|rs| - 1]);
    }
  }

  // ----- blocks -----

  /** The rewards go to the wallet of the owner as of the receipts. */
  function RewardTo(l: Ledger, rs: seq<Receipt>, rewards: int, id: AccountId): int {
    var owner := LastOwner(l.owner, rs);
    if owner.Some? && owner.value.OwnerTx? && owner.value.wallet == id then rewards else 0
  }

  lemma BlockBalances(l: Ledger, b: Block, id: AccountId)
    requires ApplyBlock(l, b).Some?
    ensures Balance(ApplyBlock(l, b).value, id) == Holds(l, b.receipts, id) + RewardTo(l, b.receipts, b.rewards, id)
  {
    hide ApplyReceipts, Holds, LastOwner;
    BalancesAre(l, b.receipts, id);
    OwnerIs(l, b.receipts);
  }

  /** A block that is produced, in whatever state, leaves every account with what the pool says, and the
      owner's wallet with the fees on top: in sums, for an account that no Destroy entry concerns. */
  lemma ProducedPays(o: Oracles, kp: KeyPair, n: Node, stale: bool, purgeNow: Clock, blockNow: Clock, id: AccountId)
    requires n.chain.blocks != [] && Produce(o, kp, n, stale, purgeNow, blockNow).1 == Produced
    ensures var l, rs, after := n.chain.ledger, n.pool, Produce(o, kp, n, stale, purgeNow, blockNow).0.chain.ledger;
            && Balance(after, id) == Holds(l, rs, id) + RewardTo(l, rs, Fees(rs), id)
            && (Undisturbed(rs, id) ==>
                  Balance(after, id) == Balance(l, id) + Got(rs, id) - Paid(rs, id) + RewardTo(l, rs, Fees(rs), id))
  {
    hide Produce, ApplyBlock, Child, FeeTotal, Fees, Balance, RewardTo, Undisturbed, Got, Paid;
    ProducedIs(o, kp, n, stale, purgeNow, blockNow);
    ChildPaysFees(o, kp, n, blockNow);
    FeeTotalIsFees(n.pool);
    BlockBalances(n.chain.ledger, Child(o, kp, n, blockNow).value, id);
    if Undisturbed(n.pool, id) {
      assert n.pool[..0] == [] && n.pool[0..] == n.pool;
      HoldsFrom(n.chain.ledger, n.pool, 0, id);
    }
  }

  // ----- the pending view -----

  /** No transfer among the receipts closes the account. */
  predicate Open(rs: seq<Receipt>, id: AccountId) {
    forall r | r in rs :: !ClosesAccount(r, id)
  }

  lemma {:induction false} PendLogPays(a: Account, id: AccountId, from: AccountId, log: seq<LogEntry>)
    requires PendLog(a, id, from, log).Some?
    ensures var p := PendLog(a, id, from, log).value;
            !(from == id && Closes(log)) ==> p.balance == a.balance + PaidTo(log, id) && p.destroyed == a.destroyed
  {
    if log != [] {
      var front, e := log[..|log| - 1], log[|log| - 1];
      assert e in log && forall x | x in front :: x in log;
      PendLogPays(a, id, from, front);
    }
  }

  lemma PendReceiptPays(a: Account, id: AccountId, r: Receipt)
    requires PendReceipt(a, id, r).Some? && !ClosesAccount(r, id)
    ensures var p := PendReceipt(a, id, r).value;
            p.balance == a.balance + Gets(r, id) - Pays(r, id) && p.destroyed == a.destroyed
  {
    hide PendLog, Closes;
    if r.tx.TransferTx? {
      var debited := if r.tx.from == id then Debit(a, r.tx.base.fee, r.tx.amount) else Some(a);
      PendLogPays(debited.value, id, r.tx.from, r.log);
    }
  }

  /** From any point on, the pending balance of an account moves by the mints to it, the Transfer
      entries that name it and what it pays, as long as it is not closed. */
  lemma {:induction false} PendingAddsUp(l: Ledger, rs: seq<Receipt>, k: nat, id: AccountId)
    requires GetAccount(l, id, rs).Some? && k <= |rs| && Open(rs[k..], id)
    ensures GetAccount(l, id, rs[..k]).Some?
    ensures var p, before := GetAccount(l, id, rs).value, GetAccount(l, id, rs[..k]).value;
            && p.balance == before.balance + Got(rs[k..], id) - Paid(rs[k..], id)
            && p.destroyed == before.destroyed
    decreases |rs|
  {
    if k == |rs| {
      assert rs[..k] == rs && rs[k..] == [];
    } else {
      hide PendReceipt, ClosesAccount, Gets, Pays;
      var front, r := rs[..|rs| - 1], rs[|rs| - 1];
      FrontOf(rs, k);
      assert r in rs[k..] && forall x | x in front[k..] :: x in rs[k..];
      PendingAddsUp(l, front, k, id);
      PendReceiptPays(GetAccount(l, id, front).value, id, r);
    }
  }

  lemma {:induction false} PendLogAppend(a: Account, id: AccountId, from: AccountId, x: seq<LogEntry>, y: seq<LogEntry>)
    ensures PendLog(a, id, from, x + y)
         == if PendLog(a, id, from, x).Some? then PendLog(PendLog(a, id, from, x).value, id, from, y) else None
  {
    if y == [] {
      assert x + y == x;
    } else {
      PendLogAppend(a, id, from, x, y[..|y| - 1]);
      assert (x + y)[..|x + y| - 1] == x + y[..|y| - 1];
    }
  }

  /** A transfer that closes the account leaves its pending view with nothing, and flagged. The account
      named sees only the transfers to it until the block is made. */
  lemma ClosedPending(l: Ledger, rs: seq<Receipt>, r: Receipt, pre: seq<LogEntry>, to: AccountId, post: seq<LogEntry>)
    requires IsClosing(r, pre, to, post)
    ensures var p := GetAccount(l, r.tx.from, rs + [r]); p.Some? ==> p.value.balance == 0 && p.value.destroyed
    ensures var p, before := GetAccount(l, to, rs + [r]), GetAccount(l, to, rs);
            p.Some? ==> before.Some? && p.value.balance == before.value.balance + PaidTo(r.log, to)
  {
    GetAccountSnoc(l, r.tx.from, rs, r);
    GetAccountSnoc(l, to, rs, r);
    hide GetAccount, Closes;
    if GetAccount(l, to, rs + [r]).Some? {
      PendLogPays(GetAccount(l, to, rs).value, to, r.tx.from, r.log);
    }
    if GetAccount(l, r.tx.from, rs + [r]).Some? {
      var a := Debit(GetAccount(l, r.tx.from, rs).value, r.tx.base.fee, r.tx.amount).value;
      PendLogAppend(a, r.tx.from, r.tx.from, pre + [Destroy(to)], post);
      assert (pre + [Destroy(to)])[..|pre + [Destroy(to)]| - 1] == pre;
      assert post != [] ==> post[..0] == [] && PendLog(a, r.tx.from, r.tx.from, []) == Some(a);
    }
  }
}
