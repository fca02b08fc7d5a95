// Whose script and permissions a pending transaction is judged by: the updates in `get_account` of
// blockchain/mod.rs, which are not tied to the account asked for.

module Rights {
  import opened Wrappers
  import opened Assets
  import opened Crypto
  import opened Accounts
  import opened Transactions
  import opened Blocks
  import opened Ledgers
  import opened FeePolicy
  import opened Conservation
  import opened Chains
  import opened Nodes
  import opened Permitted
  import opened Runs

  /** Script and permissions are the same in both. */
  predicate SameRights(a: Account, b: Account) {
    a.script == b.script && a.permissions == b.permissions
  }

  /** The account after the updates among the receipts: all of them, or only those of one account. */
  function Updated(a: Account, rs: seq<Receipt>, only: Option<AccountId>): Account {
    if rs == [] then a
    else
      var before := Updated(a, rs[..|rs| - 1], only);
      var tx := rs[|rs| - 1].tx;
      if tx.UpdateAccountTx? && (only.Some? ==> tx.accountId == only.value)
      then PendUpdate(before, tx.newScript, tx.newPermissions)
      else before
  }

  /** Taking on every pending update leaves the account with the same rights as taking on its own. */
  predicate OwnUpdatesPrevail(l: Ledger, id: AccountId, rs: seq<Receipt>)
    requires id in l.accounts
  {
    SameRights(Updated(l.accounts[id], rs, None), Updated(l.accounts[id], rs, Some(id)))
  }

  // ----- the pending view -----

  lemma {:induction false} PendLogKeepsRights(a: Account, id: AccountId, from: AccountId, log: seq<LogEntry>)
    ensures var r := PendLog(a, id, from, log); r.Some? ==> SameRights(r.value, a)
  {
    if log != [] {
      PendLogKeepsRights(a, id, from, log[..|log| - 1]);
    }
  }

  lemma PendReceiptRights(a: Account, b: Account, id: AccountId, r: Receipt)
    requires SameRights(a, b) && PendReceipt(a, id, r).Some?
    ensures SameRights(PendReceipt(a, id, r).value,
                       if r.tx.UpdateAccountTx? then PendUpdate(b, r.tx.newScript, r.tx.newPermissions) else b)
  {
    hide CheckedAdd, CheckedSub, PendLog;
    if r.tx.TransferTx? {
      var debited := if r.tx.from == id then Debit(a, r.tx.base.fee, r.tx.amount) else Some(a);
      PendLogKeepsRights(debited.value, id, r.tx.from, r.log);
    }
  }

  lemma {:induction false} PendingRights(l: Ledger, id: AccountId, rs: seq<Receipt>)
    requires GetAccount(l, id, rs).Some?
    ensures id in l.accounts && SameRights(GetAccount(l, id, rs).value, Updated(l.accounts[id], rs, None))
  {
    GetAccountIndexed(l, id, rs);
    if rs != [] {
      hide PendReceipt, SameRights, PendUpdate;
      var front, r := rs[..|rs| - 1], rs[|rs| - 1];
      PendingRights(l, id, front);
      PendReceiptRights(GetAccount(l, id, front).value, Updated(l.accounts[id], front, None), id, r);
    } else {
      assert SameRights(l.accounts[id], l.accounts[id]);
    }
  }

  // ----- the index -----

  lemma {:induction false} ApplyLogKeepsRights(l: Ledger, id: AccountId, from: AccountId, log: seq<LogEntry>)
    requires id in l.accounts
    ensures var r := ApplyLog(l, from, log);
            r.Some? ==> id in r.value.accounts && SameRights(r.value.accounts[id], l.accounts[id])
  {
    if log != [] {
      hide CheckedAdd;
      ApplyLogKeepsRights(l, id, from, log[..|log| - 1]);
    }
  }

  lemma ApplyReceiptRights(l: Ledger, id: AccountId, r: Receipt, b: Account)
    requires id in l.accounts && SameRights(l.accounts[id], b) && !Creates(r, id) && ApplyReceipt(l, r).Some?
    ensures var l' := ApplyReceipt(l, r).value;
            && id in l'.accounts
            && SameRights(l'.accounts[id],
                          if r.tx.UpdateAccountTx? && r.tx.accountId == id
                          then PendUpdate(b, r.tx.newScript, r.tx.newPermissions) else b)
  {
    hide CheckedAdd, CheckedSub, ApplyLog;
    if r.tx.TransferTx? {
      var cost := CheckedAdd(r.tx.base.fee, r.tx.amount);
      ApplyLogKeepsRights(SubBal(l, r.tx.from, cost.value).value, id, r.tx.from, r.log);
    }
  }

  lemma {:induction false} IndexedRights(l: Ledger, id: AccountId, rs: seq<Receipt>)
    requires id in l.accounts && !Created(rs, id) && ApplyReceipts(l, rs).Some?
    ensures var l' := ApplyReceipts(l, rs).value;
            id in l'.accounts && SameRights(l'.accounts[id], Updated(l.accounts[id], rs, Some(id)))
  {
    if rs != [] {
      hide ApplyReceipt, SameRights, PendUpdate;
      var front, r := rs[..|rs| - 1], rs[|rs| - 1];
      assert r in rs;
      IndexedRights(l, id, front);
      ApplyReceiptRights(ApplyReceipts(l, front).value, id, r, Updated(l.accounts[id], front, Some(id)));
    } else {
      assert SameRights(l.accounts[id], l.accounts[id]);
    }
  }

  /** The pending view of an account has the script and permissions that indexing the receipts will
      give it, exactly if the updates of other accounts among them make no difference to it. */
  lemma PendingRightsAgreeIff(l: Ledger, id: AccountId, rs: seq<Receipt>)
    requires id in l.accounts && !Created(rs, id)
    requires GetAccount(l, id, rs).Some? && ApplyReceipts(l, rs).Some?
    ensures id in ApplyReceipts(l, rs).value.accounts
    ensures SameRights(GetAccount(l, id, rs).value, ApplyReceipts(l, rs).value.accounts[id])
       <==> OwnUpdatesPrevail(l, id, rs)
  {
    PendingRights(l, id, rs);
    IndexedRights(l, id, rs);
  }

  // ----- what transactions are judged by -----

  function WithRights(info: Option<AccountInfo>, a: Account): Option<AccountInfo> {
    if info.None? then None
    else
      var account := info.value.account.(script := a.script, permissions := a.permissions);
      Some(info.value.(account := account))
  }

  /** The transaction executed as usual, but with the payer's script and permissions taken from `a`. */
  function ExecuteAs(o: Oracles, ch: Chain, tx: TxVariant, rs: seq<Receipt>, a: Account): ExecResult
    requires ch.blocks != [] && Payer(tx).Some?
  {
    var info := WithRights(GetAccountInfo(ch, Payer(tx).value.0, rs), a);
    if |tx.base.sigs| > MAX_TX_SIGNATURES then Refused(TooManySignatures)
    else if tx.CreateAccountTx? then FromCheck(DecideCreate(o, tx, tx.account.id in ch.ledger.accounts, rs, info))
    else if tx.UpdateAccountTx? then FromCheck(DecideUpdate(o, tx, info))
    else
      match DecideTransfer(tx, info)
      case Err(e) => Refused(e)
      case Ok(from) => RunScript(o, ch, tx, rs, from.script)
  }

  lemma SameRightsSameVerdict(o: Oracles, ch: Chain, tx: TxVariant, rs: seq<Receipt>, a: Account)
    requires ch.blocks != [] && Payer(tx).Some?
    requires GetAccount(ch.ledger, Payer(tx).value.0, rs).Some?
    requires SameRights(GetAccount(ch.ledger, Payer(tx).value.0, rs).value, a)
    ensures Execute(o, ch, tx, rs) == ExecuteAs(o, ch, tx, rs, a)
  {
    hide GetAccount, NetworkFee, AccountFee, RunScript, DecideCreate, DecideUpdate, DecideTransfer;
    var info := GetAccountInfo(ch, Payer(tx).value.0, rs);
    assert WithRights(info, a) == info;
  }

  /** At every place of a reachable pool: the creation, update or transfer that stands there was
      judged by the script and permissions that its payer will have in the index by then, exactly if
      the updates of other accounts in front of it make no difference. Where they make none, it was
      executed as if against the index itself. */
  lemma RightsInUse(o: Oracles, n: Node, i: nat)
    requires Reachable(o, n) && i < |n.pool| && Payer(n.pool[i].tx).Some?
    requires MintsOk(n.chain.ledger, n.pool[..i])
    ensures var l, rs, id := n.chain.ledger, n.pool[..i], Payer(n.pool[i].tx).value.0;
            var pending, after := GetAccount(l, id, rs), ApplyReceipts(l, rs);
            && n.chain.blocks != []
            && id in l.accounts && pending.Some? && after.Some? && id in after.value.accounts
            && (SameRights(pending.value, after.value.accounts[id]) <==> OwnUpdatesPrevail(l, id, rs))
            && (OwnUpdatesPrevail(l, id, rs) ==>
                  Execute(o, n.chain, n.pool[i].tx, rs)
                  == ExecuteAs(o, n.chain, n.pool[i].tx, rs, after.value.accounts[id]))
  {
    ReachableInv(o, n);
    var l, rs, tx := n.chain.ledger, n.pool[..i], n.pool[i].tx;
    var id := Payer(tx).value.0;
    ExecutedAreAdmissible(o, n.chain, n.pool);
    PrefixIsAdmissible(l, n.pool, i);
    hide Reachable, Replay, FeeCapped, Execute, MintsOk, ExecuteAs, GetAccount, ApplyReceipts, Updated, SameRights,
         AllAdmissible, AllExecuted;
    PayerIsIndexed(l, n.pool, i);
    IndexingSucceedsIff(l, rs);
    NotCreated(l, rs, id);
    PendingRightsAgreeIff(l, id, rs);
    if OwnUpdatesPrevail(l, id, rs) {
      SameRightsSameVerdict(o, n.chain, tx, rs, ApplyReceipts(l, rs).value.accounts[id]);
    }
  }

  lemma PrefixIsAdmissible(l: Ledger, rs: seq<Receipt>, k: nat)
    requires AllAdmissible(l, rs) && k <= |rs|
    ensures AllAdmissible(l, rs[..k])
  {
    hide Admissible;
    forall i | 0 <= i < k ensures Admissible(l, rs[..k][..i], rs[..k][i]) {
      assert rs[..k][..i] == rs[..i];
    }
  }

  lemma PayerIsIndexed(l: Ledger, rs: seq<Receipt>, i: nat)
    requires AllAdmissible(l, rs) && i < |rs| && Payer(rs[i].tx).Some?
    ensures GetAccount(l, Payer(rs[i].tx).value.0, rs[..i]).Some? && Payer(rs[i].tx).value.0 in l.accounts
  {
    hide GetAccount;
    assert Admissible(l, rs[..i], rs[i]);
    GetAccountIndexed(l, Payer(rs[i].tx).value.0, rs[..i]);
  }

  lemma NotCreated(l: Ledger, rs: seq<Receipt>, id: AccountId)
    requires AllAdmissible(l, rs) && id in l.accounts
    ensures !Created(rs, id)
  {
    hide GetAccount;
    forall r | r in rs ensures !Creates(r, id) {
      var i :| 0 <= i < |rs| && rs[i] == r;
      assert Admissible(l, rs[..i], rs[i]);
    }
  }

  /** Behind a pending update that puts a script in place for one account, a transfer out of any
      account that passes its checks runs that script. */
  lemma ForeignScriptRuns(o: Oracles, ch: Chain, rs: seq<Receipt>, update: Receipt, tx: TxVariant)
    requires ch.blocks != [] && tx.TransferTx? && update.tx.UpdateAccountTx? && update.tx.newScript.Some?
    requires TransferPasses(ch, tx, rs + [update])
    ensures Execute(o, ch, tx, rs + [update]) == RunScript(o, ch, tx, rs + [update], update.tx.newScript.value)
  {
    TransferIff(ch, tx, rs + [update]);
    GetAccountSnoc(ch.ledger, tx.from, rs, update);
    hide *;
    PayerScriptRuns(o, ch, tx, rs + [update]);
    UpdateGivesScript(ch.ledger, tx.from, rs, update);
  }

  lemma PayerScriptRuns(o: Oracles, ch: Chain, tx: TxVariant, rs: seq<Receipt>)
    requires ch.blocks != [] && tx.TransferTx? && TransferPasses(ch, tx, rs)
    ensures GetAccount(ch.ledger, tx.from, rs).Some?
    ensures Execute(o, ch, tx, rs) == RunScript(o, ch, tx, rs, GetAccount(ch.ledger, tx.from, rs).value.script)
  {
    TransferIff(ch, tx, rs);
    hide CheckTransfer, GetAccount, RunScript, TransferPermitted;
  }

  lemma UpdateGivesScript(l: Ledger, id: AccountId, rs: seq<Receipt>, update: Receipt)
    requires update.tx.UpdateAccountTx? && update.tx.newScript.Some? && GetAccount(l, id, rs + [update]).Some?
    ensures GetAccount(l, id, rs + [update]).value.script == update.tx.newScript.value
  {
    GetAccountSnoc(l, id, rs, update);
    hide GetAccount, CheckedSub;
  }

  predicate TransferPasses(ch: Chain, tx: TxVariant, rs: seq<Receipt>)
    requires ch.blocks != [] && tx.TransferTx?
  {
    |tx.base.sigs| <= MAX_TX_SIGNATURES && CheckTransfer(ch, tx, rs).Ok?
  }
}
