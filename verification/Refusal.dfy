// Why a transaction is refused: the first of its faults, in exact arithmetic (`execute_tx` in
// blockchain/mod.rs and the checks of blockchain/receipt.rs).

module Refusals {
  import opened Wrappers
  import opened Numbers
  import opened Assets
  import opened Crypto
  import opened Accounts
  import opened Transactions
  import opened Blocks
  import opened Ops
  import opened Engine
  import opened Ledgers
  import opened Conservation
  import opened Chains
  import opened Permitted
  import opened Nodes

  // ----- before execution -----

  /** Let through to execution are identifiers not stored, of transactions that end within thirty days. */
  lemma GateIff(txids: map<TxId, u64>, txid: TxId, expiry: u64, now: Clock)
    ensures Gate(txids, txid, expiry, now) == Ok(()) <==> now < expiry <= now + 2_592_000 && txid !in txids
    ensures Gate(txids, txid, expiry, now) == Err(TxDupe) <==> now < expiry <= now + 2_592_000 && txid in txids
    ensures Gate(txids, txid, expiry, now) == Err(TxExpired) <==> expiry <= now || now + 2_592_000 < expiry
  {
    var g := Gate(txids, txid, expiry, now);
    assert g.Ok? ==> g.value == ();
  }

  /** A transaction is taken into the pool exactly if it is in time, new and permitted behind the pool. */
  lemma PushedIff(o: Oracles, n: Node, tx: TxVariant, now: Clock)
    requires n.chain.blocks != []
    ensures PushTx(o, n, tx, now).1 == Pushed
       <==> && now < tx.base.expiry <= now + 2_592_000 && TxIdOf(o, tx) !in n.txids
            && TxPermitted(o, n.chain, tx, n.pool)
  {
    GateIff(n.txids, TxIdOf(o, tx), tx.base.expiry, now);
    ExecutesIff(o, n.chain, tx, n.pool);
    hide Execute, TxPermitted, TxIdOf, Gate;
  }

  // ----- the first fault -----

  function Unapproved(): TxErr {
    ScriptEval(EvalErr(0, ScriptRetFalse))
  }

  /** What is wrong with a new account, whoever creates it. */
  function OpeningFault(ch: Chain, acc: Account, rs: seq<Receipt>): Option<TxErr> {
    if |acc.script| > 2048 then Some(TxTooLarge)
    else if acc.destroyed then Some(TxProhibited)
    else if !Lawful(acc.permissions) then Some(InvalidAccountPermissions)
    else if acc.id in ch.ledger.accounts || Created(rs, acc.id) then Some(AccountAlreadyExists)
    else None
  }

  /** What is wrong with a payment of a fee of at least `least` and of an amount. */
  function PaymentFault(balance: int, fee: int, least: int, amount: int): Option<TxErr> {
    if fee < least then Some(InvalidFeeAmount)
    else if balance - fee - amount < -0x8000_0000_0000_0000 then Some(TxErr.Arithmetic)
    else if balance < fee + amount then Some(TxErr.InvalidAmount)
    else None
  }

  function CreateFault(o: Oracles, ch: Chain, tx: TxVariant, rs: seq<Receipt>): Option<TxErr>
    requires ch.blocks != [] && tx.CreateAccountTx?
  {
    var info := GetAccountInfo(ch, tx.creator, rs);
    if OpeningFault(ch, tx.account, rs).Some? then OpeningFault(ch, tx.account, rs)
    else if info.None? then Some(TxErr.AccountNotFound)
    else
      var fees, payer := TotalOf(info.value), info.value.account;
      if 4 * fees > 0x7FFF_FFFF_FFFF_FFFF then Some(TxErr.Arithmetic)
      else if tx.base.fee >= 2 * fees && tx.account.balance < 4 * fees then Some(TxErr.InvalidAmount)
      else if PaymentFault(payer.balance, tx.base.fee, 2 * fees, tx.account.balance).Some?
      then PaymentFault(payer.balance, tx.base.fee, 2 * fees, tx.account.balance)
      else if !Signed(o, payer, tx) then Some(Unapproved())
      else None
  }

  function UpdateFault(o: Oracles, ch: Chain, tx: TxVariant, rs: seq<Receipt>): Option<TxErr>
    requires ch.blocks != [] && tx.UpdateAccountTx?
  {
    var info := GetAccountInfo(ch, tx.accountId, rs);
    if info.None? then Some(TxErr.AccountNotFound)
    else
      var fees, payer := TotalOf(info.value), info.value.account;
      if payer.destroyed then Some(TxProhibited)
      else if tx.newScript.Some? && |tx.newScript.value| > 2048 then Some(TxTooLarge)
      else if tx.newScript.None? && tx.newPermissions.Some? && !Lawful(tx.newPermissions.value)
      then Some(InvalidAccountPermissions)
      else if 2 * fees > 0x7FFF_FFFF_FFFF_FFFF then Some(TxErr.Arithmetic)
      else if PaymentFault(payer.balance, tx.base.fee, 2 * fees, 0).Some?
      then PaymentFault(payer.balance, tx.base.fee, 2 * fees, 0)
      else if !Signed(o, payer, tx) then Some(Unapproved())
      else None
  }

  function TransferFault(ch: Chain, tx: TxVariant, rs: seq<Receipt>): Option<TxErr>
    requires ch.blocks != [] && tx.TransferTx?
  {
    var info := GetAccountInfo(ch, tx.from, rs);
    if |tx.memo| > 1024 then Some(TxTooLarge)
    else if tx.amount < 0 then Some(TxErr.InvalidAmount)
    else if info.None? then Some(TxErr.AccountNotFound)
    else if TotalOf(info.value) > 0x7FFF_FFFF_FFFF_FFFF then Some(TxErr.Arithmetic)
    else PaymentFault(info.value.account.balance, tx.base.fee, TotalOf(info.value), tx.amount)
  }

  lemma CreateRefused(o: Oracles, ch: Chain, tx: TxVariant, rs: seq<Receipt>)
    requires ch.blocks != [] && tx.CreateAccountTx?
    ensures CheckCreate(o, ch, tx, rs)
         == if CreateFault(o, ch, tx, rs).Some? then Err(CreateFault(o, ch, tx, rs).value) else Ok(())
  {
    hide GetAccountInfo, Created, Signed, CheckedMul;
    var info := GetAccountInfo(ch, tx.creator, rs);
    if info.Some? {
      InfoFees(ch, tx.creator, rs);
      if TotalOf(info.value) <= I64_MAX {
        DoubledFee(TotalOf(info.value));
        if 2 * TotalOf(info.value) <= I64_MAX {
          DoubledFee(2 * TotalOf(info.value));
        }
      }
    }
  }

  lemma UpdateRefused(o: Oracles, ch: Chain, tx: TxVariant, rs: seq<Receipt>)
    requires ch.blocks != [] && tx.UpdateAccountTx?
    ensures CheckUpdate(o, ch, tx, rs)
         == if UpdateFault(o, ch, tx, rs).Some? then Err(UpdateFault(o, ch, tx, rs).value) else Ok(())
  {
    hide GetAccountInfo, Signed, CheckedMul;
    var info := GetAccountInfo(ch, tx.accountId, rs);
    if info.Some? {
      InfoFees(ch, tx.accountId, rs);
      if TotalOf(info.value) <= I64_MAX {
        DoubledFee(TotalOf(info.value));
      }
    }
  }

  lemma TransferRefused(ch: Chain, tx: TxVariant, rs: seq<Receipt>)
    requires ch.blocks != [] && tx.TransferTx?
    ensures CheckTransfer(ch, tx, rs)
         == match TransferFault(ch, tx, rs)
            case Some(e) => Err(e)
            case None => Ok(GetAccountInfo(ch, tx.from, rs).value.account)
  {
    hide GetAccountInfo;
    if GetAccountInfo(ch, tx.from, rs).Some? {
      InfoFees(ch, tx.from, rs);
    }
  }

  /** The reason that comes first, whatever else is wrong with the transaction. Owner changes and mints
      are free; a mint above the supply is found only once the owner's script has agreed. */
  function Reason(o: Oracles, ch: Chain, tx: TxVariant, rs: seq<Receipt>): Option<TxErr>
    requires ch.blocks != []
  {
    if |tx.base.sigs| > 8 then Some(TooManySignatures)
    else
      match tx
      case OwnerTx(base, _, wallet) =>
        if base.fee != 0 then Some(InvalidFeeAmount)
        else if GetAccount(ch.ledger, wallet, rs).None? then Some(TxErr.AccountNotFound)
        else ScriptReason(o, ch, tx, rs, OwnerWallet(ch, rs))
      case MintTx(base, _, amount, _, _) =>
        if base.fee != 0 then Some(InvalidFeeAmount)
        else if amount < 0 then Some(TxErr.InvalidAmount)
        else if ScriptAgrees(o, ch, tx, rs, OwnerWallet(ch, rs)) && ch.ledger.supply + amount > 0x7FFF_FFFF_FFFF_FFFF
        then Some(TxErr.Arithmetic)
        else ScriptReason(o, ch, tx, rs, OwnerWallet(ch, rs))
      case CreateAccountTx(_, _, _) => CreateFault(o, ch, tx, rs)
      case UpdateAccountTx(_, _, _, _) => UpdateFault(o, ch, tx, rs)
      case TransferTx(_, from, _, _, _, _) =>
        if TransferFault(ch, tx, rs).Some? then TransferFault(ch, tx, rs)
        else ScriptReason(o, ch, tx, rs, GetAccount(ch.ledger, from, rs))
  }

  /** How the script failed, if it did. */
  function ScriptReason(o: Oracles, ch: Chain, tx: TxVariant, rs: seq<Receipt>, a: Option<Account>): Option<TxErr>
    requires ch.blocks != []
  {
    if a.None? then None
    else
      var r := Eval(ScriptData(o, ch, tx, rs, a.value.script));
      if r.Failure? then Some(ScriptEval(r.e)) else None
  }

  lemma RefusedFor(o: Oracles, ch: Chain, tx: TxVariant, rs: seq<Receipt>, e: TxErr)
    requires ch.blocks != []
    ensures Execute(o, ch, tx, rs) == Refused(e) <==> Reason(o, ch, tx, rs) == Some(e)
  {
    hide CheckCreate, CheckUpdate, CheckTransfer, CreateFault, UpdateFault, TransferFault, Eval, ScriptData, GetAccount,
         OwnerWallet;
    if tx.CreateAccountTx? {
      CreateRefused(o, ch, tx, rs);
    } else if tx.UpdateAccountTx? {
      UpdateRefused(o, ch, tx, rs);
    } else if tx.TransferTx? {
      TransferRefused(ch, tx, rs);
      TransferIff(ch, tx, rs);
    }
  }
}
