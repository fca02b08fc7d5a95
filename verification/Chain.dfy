// Executing transactions and verifying blocks: the read-only decisions of blockchain/mod.rs.

module Chains {
  import opened Wrappers
  import opened Numbers
  import opened Assets
  import opened Crypto
  import opened Accounts
  import opened Transactions
  import opened Blocks
  import opened Ops
  import opened Builders
  import opened Engine
  import opened Accounting
  import opened Ledgers
  import opened FeePolicy
  import opened Conservation

  const MAX_MEMO_BYTE_SIZE := 1024
  const MAX_TX_SIGNATURES := 8

  datatype TxErr =
    | ScriptEval(e: EvalErr)
    | AccountNotFound
    | AccountAlreadyExists
    | InvalidAccountPermissions
    | Arithmetic
    | InvalidAmount
    | InvalidFeeAmount
    | TooManySignatures
    | TxTooLarge
    | TxProhibited
    | TxExpired
    | TxDupe

  datatype BlockErr =
    | InvalidBlockHeight
    | InvalidReceiptRoot
    | InvalidSignature
    | InvalidPrevHash
    | BadTx(e: TxErr)

  /** A transaction executed with a log, refused, or ending the process. */
  datatype ExecResult = Executed(log: seq<LogEntry>) | Refused(e: TxErr) | Panicked

  datatype BlockCheck = Accepted | Rejected(e: BlockErr) | CheckPanicked

  /** The indexed state and the blocks it was made from, oldest first. */
  datatype Chain = Chain(ledger: Ledger, blocks: seq<Block>)

  function Head(ch: Chain): Block
    requires ch.blocks != []
  {
    ch.blocks[|ch.blocks| - 1]
  }

  // ----- account information -----

  datatype AccountInfo = AccountInfo(account: Account, netFee: Asset, accountFee: Asset)

  function GetAccountInfo(ch: Chain, id: AccountId, rs: seq<Receipt>): Option<AccountInfo>
    requires ch.blocks != []
  {
    var account :- GetAccount(ch.ledger, id, rs);
    var netFee :- NetworkFee(ch.blocks);
    var accountFee :- AccountFee(ch.blocks, id, rs);
    Some(AccountInfo(account, netFee, accountFee))
  }

  function TotalFee(info: AccountInfo): Option<Asset> {
    CheckedAdd(info.netFee, info.accountFee)
  }

  // ----- executing a transaction -----

  function Require(ok: bool, e: TxErr): Result<(), TxErr> {
    if ok then Ok(()) else Err(e)
  }

  /** Signatures checked outside of any script. */
  function Signed(o: Oracles, a: Account, tx: TxVariant): bool {
    Verdict(o, a.permissions, TxIdOf(o, tx), tx.base.sigs).Ok?
  }

  /** The pending view as scripts see it. */
  function Lookup(l: Ledger, rs: seq<Receipt>): AccountId -> Option<Account> {
    (id: AccountId) => GetAccount(l, id, rs)
  }

  function ScriptData(o: Oracles, ch: Chain, tx: TxVariant, rs: seq<Receipt>, script: seq<byte>): EngineData
    requires ch.blocks != []
  {
    EngineData(o, script, tx, Lookup(ch.ledger, rs), Head(ch).header.timestamp)
  }

  /** What the script's verdict means; the log is dropped unless it is a transfer's. */
  function ScriptOutcome(tx: TxVariant, r: EvalResult): ExecResult {
    match r
    case Success(log) => Executed(if tx.TransferTx? then log else [])
    case Failure(e) => Refused(ScriptEval(e))
    case Panic => Panicked
  }

  function RunScript(o: Oracles, ch: Chain, tx: TxVariant, rs: seq<Receipt>, script: seq<byte>): ExecResult
    requires ch.blocks != []
  {
    ScriptOutcome(tx, Eval(ScriptData(o, ch, tx, rs, script)))
  }

  /** The wallet of the indexed owner; without it the process stops. */
  function OwnerWallet(ch: Chain, rs: seq<Receipt>): Option<Account> {
    var owner :- ch.ledger.owner;
    if owner.OwnerTx? then GetAccount(ch.ledger, owner.wallet, rs) else None
  }

  function ExecOwner(o: Oracles, ch: Chain, tx: TxVariant, rs: seq<Receipt>): ExecResult
    requires ch.blocks != [] && tx.OwnerTx?
  {
    if tx.base.fee != 0 then Refused(InvalidFeeAmount)
    else if GetAccount(ch.ledger, tx.wallet, rs).None? then Refused(TxErr.AccountNotFound)
    else
      match OwnerWallet(ch, rs)
      case None => Panicked
      case Some(wallet) => RunScript(o, ch, tx, rs, wallet.script)
  }

  function ExecMint(o: Oracles, ch: Chain, tx: TxVariant, rs: seq<Receipt>): ExecResult
    requires ch.blocks != [] && tx.MintTx?
  {
    if tx.base.fee != 0 then Refused(InvalidFeeAmount)
    else if tx.amount < 0 then Refused(TxErr.InvalidAmount)
    else
      match OwnerWallet(ch, rs)
      case None => Panicked
      case Some(wallet) =>
        var r := RunScript(o, ch, tx, rs, wallet.script);
        if r.Executed? && CheckedAdd(ch.ledger.supply, tx.amount).None? then Refused(TxErr.Arithmetic) else r
  }

  /** Whether an account may be created, from what is known of its creator. */
  function DecideCreate(o: Oracles, tx: TxVariant, indexed: bool, rs: seq<Receipt>, creator: Option<AccountInfo>):
    Result<(), TxErr>
    requires tx.CreateAccountTx?
  {
    var acc := tx.account;
    var _ :- Require(|acc.script| <= MAX_SCRIPT_BYTE_SIZE, TxTooLarge);
    var _ :- Require(!acc.destroyed, TxProhibited);
    var _ :- Require(IsValidPermissions(acc.permissions), InvalidAccountPermissions);
    var _ :- Require(!indexed, AccountAlreadyExists);
    var _ :- Require(!Created(rs, acc.id), AccountAlreadyExists);
    var info :- OkOr(creator, TxErr.AccountNotFound);
    var totalFee :- OkOr(TotalFee(info), TxErr.Arithmetic);
    var reqFee :- OkOr(CheckedMul(totalFee, GRAEL_ACC_CREATE_FEE_MULT), TxErr.Arithmetic);
    var minBal :- OkOr(CheckedMul(reqFee, GRAEL_ACC_CREATE_MIN_BAL_MULT), TxErr.Arithmetic);
    var _ :- Require(tx.base.fee >= reqFee, InvalidFeeAmount);
    var _ :- Require(acc.balance >= minBal, TxErr.InvalidAmount);
    var afterFee :- OkOr(CheckedSub(info.account.balance, tx.base.fee), TxErr.Arithmetic);
    var bal :- OkOr(CheckedSub(afterFee, acc.balance), TxErr.Arithmetic);
    var _ :- Require(bal >= 0, TxErr.InvalidAmount);
    Require(Signed(o, info.account, tx), ScriptEval(EvalErr(0, ScriptRetFalse)))
  }

  function CheckCreate(o: Oracles, ch: Chain, tx: TxVariant, rs: seq<Receipt>): Result<(), TxErr>
    requires ch.blocks != [] && tx.CreateAccountTx?
  {
    DecideCreate(o, tx, tx.account.id in ch.ledger.accounts, rs, GetAccountInfo(ch, tx.creator, rs))
  }

  /** Whether an account may be updated. The new permissions are looked at only when there is no
      new script. */
  function DecideUpdate(o: Oracles, tx: TxVariant, account: Option<AccountInfo>): Result<(), TxErr>
    requires tx.UpdateAccountTx?
  {
    var info :- OkOr(account, TxErr.AccountNotFound);
    var _ :- Require(!info.account.destroyed, TxProhibited);
    var _ :- Require(tx.newScript.Some? ==> |tx.newScript.value| <= MAX_SCRIPT_BYTE_SIZE, TxTooLarge);
    var _ :- Require(tx.newScript.None? && tx.newPermissions.Some? ==> IsValidPermissions(tx.newPermissions.value),
                     InvalidAccountPermissions);
    var totalFee :- OkOr(TotalFee(info), TxErr.Arithmetic);
    var reqFee :- OkOr(CheckedMul(totalFee, GRAEL_ACC_CREATE_FEE_MULT), TxErr.Arithmetic);
    var _ :- Require(tx.base.fee >= reqFee, InvalidFeeAmount);
    var bal :- OkOr(CheckedSub(info.account.balance, tx.base.fee), TxErr.Arithmetic);
    var _ :- Require(bal >= 0, TxErr.InvalidAmount);
    Require(Signed(o, info.account, tx), ScriptEval(EvalErr(0, ScriptRetFalse)))
  }

  function CheckUpdate(o: Oracles, ch: Chain, tx: TxVariant, rs: seq<Receipt>): Result<(), TxErr>
    requires ch.blocks != [] && tx.UpdateAccountTx?
  {
    DecideUpdate(o, tx, GetAccountInfo(ch, tx.accountId, rs))
  }

  /** The checks before a transfer's script runs; gives the account whose script it is. */
  function DecideTransfer(tx: TxVariant, sender: Option<AccountInfo>): Result<Account, TxErr>
    requires tx.TransferTx?
  {
    var _ :- Require(|tx.memo| <= MAX_MEMO_BYTE_SIZE, TxTooLarge);
    var _ :- Require(tx.amount >= 0, TxErr.InvalidAmount);
    var info :- OkOr(sender, TxErr.AccountNotFound);
    var totalFee :- OkOr(TotalFee(info), TxErr.Arithmetic);
    var _ :- Require(tx.base.fee >= totalFee, InvalidFeeAmount);
    var afterFee :- OkOr(CheckedSub(info.account.balance, tx.base.fee), TxErr.Arithmetic);
    var bal :- OkOr(CheckedSub(afterFee, tx.amount), TxErr.Arithmetic);
    var _ :- Require(bal >= 0, TxErr.InvalidAmount);
    Ok(info.account)
  }

  function CheckTransfer(ch: Chain, tx: TxVariant, rs: seq<Receipt>): Result<Account, TxErr>
    requires ch.blocks != [] && tx.TransferTx?
  {
    DecideTransfer(tx, GetAccountInfo(ch, tx.from, rs))
  }

  function FromCheck(r: Result<(), TxErr>): ExecResult {
    if r.Ok? then Executed([]) else Refused(r.error)
  }

  /** `execute_tx`: the transaction against the chain and the receipts before it. */
  function Execute(o: Oracles, ch: Chain, tx: TxVariant, rs: seq<Receipt>): ExecResult
    requires ch.blocks != []
  {
    if |tx.base.sigs| > MAX_TX_SIGNATURES then Refused(TooManySignatures)
    else if tx.OwnerTx? then ExecOwner(o, ch, tx, rs)
    else if tx.MintTx? then ExecMint(o, ch, tx, rs)
    else if tx.CreateAccountTx? then FromCheck(CheckCreate(o, ch, tx, rs))
    else if tx.UpdateAccountTx? then FromCheck(CheckUpdate(o, ch, tx, rs))
    else
      match CheckTransfer(ch, tx, rs)
      case Err(e) => Refused(e)
      case Ok(from) => RunScript(o, ch, tx, rs, from.script)
  }

  // ----- what execution establishes -----

  lemma FeesCharged(ch: Chain, id: AccountId, rs: seq<Receipt>)
    requires ch.blocks != []
    ensures var info := GetAccountInfo(ch, id, rs);
            info.Some? ==>
              && GetAccount(ch.ledger, id, rs) == Some(info.value.account)
              && (TotalFee(info.value).Some? ==> TotalFee(info.value).value >= 0)
              && FeeCount(ch.blocks, id, rs) % 0x1_0000 <= 46
  {
    FeesNonNegative(ch.blocks, id, rs);
    PowOfTwoTokens(FeeCount(ch.blocks, id, rs) % 0x1_0000);
  }

  lemma CreateAdmits(o: Oracles, ch: Chain, tx: TxVariant, rs: seq<Receipt>, log: seq<LogEntry>)
    requires ch.blocks != [] && tx.CreateAccountTx? && CheckCreate(o, ch, tx, rs).Ok?
    ensures Admissible(ch.ledger, rs, Receipt(tx, log))
  {
    FeesCharged(ch, tx.creator, rs);
    hide GetAccount, NetworkFee, AccountFee, CheckedMul, Created, Signed, GetAccountInfo, IsValidPermissions;
    var totalFee := TotalFee(GetAccountInfo(ch, tx.creator, rs).value).value;
    MulNonNegative(totalFee, GRAEL_ACC_CREATE_FEE_MULT);
    MulNonNegative(CheckedMul(totalFee, GRAEL_ACC_CREATE_FEE_MULT).value, GRAEL_ACC_CREATE_MIN_BAL_MULT);
  }

  lemma UpdateAdmits(o: Oracles, ch: Chain, tx: TxVariant, rs: seq<Receipt>, log: seq<LogEntry>)
    requires ch.blocks != [] && tx.UpdateAccountTx? && CheckUpdate(o, ch, tx, rs).Ok?
    ensures Admissible(ch.ledger, rs, Receipt(tx, log))
  {
    FeesCharged(ch, tx.accountId, rs);
    hide GetAccount, NetworkFee, AccountFee, CheckedMul, Signed, GetAccountInfo, IsValidPermissions;
    var totalFee := TotalFee(GetAccountInfo(ch, tx.accountId, rs).value).value;
    MulNonNegative(totalFee, GRAEL_ACC_CREATE_FEE_MULT);
  }

  lemma LogShapeIsOk(ch: Chain, rs: seq<Receipt>, from: AccountId, log: seq<LogEntry>)
    requires LogShape(Lookup(ch.ledger, rs), from, log) && from in ch.ledger.accounts
    ensures LogOk(ch.ledger, from, log)
  {
    forall e | e in log
      ensures e.to in ch.ledger.accounts && (e.Transfer? ==> e.amount >= 0) && (e.Destroy? ==> e.to != from)
    {
      var i :| 0 <= i < |log| && log[i] == e;
      GetAccountIndexed(ch.ledger, e.to, rs);
      assert EntryShape(Lookup(ch.ledger, rs), from, log, i);
    }
  }

  lemma TransferAdmits(o: Oracles, ch: Chain, tx: TxVariant, rs: seq<Receipt>, log: seq<LogEntry>)
    requires ch.blocks != [] && tx.TransferTx? && CheckTransfer(ch, tx, rs).Ok?
    requires RunScript(o, ch, tx, rs, CheckTransfer(ch, tx, rs).value.script) == Executed(log)
    ensures Admissible(ch.ledger, rs, Receipt(tx, log))
  {
    FeesCharged(ch, tx.from, rs);
    GetAccountIndexed(ch.ledger, tx.from, rs);
    SuccessAccountsForAmount(ScriptData(o, ch, tx, rs, CheckTransfer(ch, tx, rs).value.script));
    LogShapeIsOk(ch, rs, tx.from, log);
    hide Eval, GetAccount, NetworkFee, AccountFee, LogOk, Transferred, LogShape, GetAccountInfo;
  }

  /** Whatever executes is admissible: solvent against its prefix, with a log that spends exactly
      the amount on indexed accounts. */
  lemma ExecuteAdmits(o: Oracles, ch: Chain, tx: TxVariant, rs: seq<Receipt>, log: seq<LogEntry>)
    requires ch.blocks != [] && Execute(o, ch, tx, rs) == Executed(log)
    ensures Admissible(ch.ledger, rs, Receipt(tx, log))
  {
    hide CheckCreate, CheckUpdate, CheckTransfer, RunScript;
    if tx.OwnerTx? {
      GetAccountIndexed(ch.ledger, tx.wallet, rs);
    } else if tx.CreateAccountTx? {
      CreateAdmits(o, ch, tx, rs, log);
    } else if tx.UpdateAccountTx? {
      UpdateAdmits(o, ch, tx, rs, log);
    } else if tx.TransferTx? {
      TransferAdmits(o, ch, tx, rs, log);
    }
  }

  /** Each receipt is what executing its transaction against the chain and its prefix gave. */
  predicate AllExecuted(o: Oracles, ch: Chain, rs: seq<Receipt>)
    requires ch.blocks != []
  {
    forall i | 0 <= i < |rs| :: Execute(o, ch, rs[i].tx, rs[..i]) == Executed(rs[i].log)
  }

  lemma ExecutedAreAdmissible(o: Oracles, ch: Chain, rs: seq<Receipt>)
    requires ch.blocks != [] && AllExecuted(o, ch, rs)
    ensures AllAdmissible(ch.ledger, rs)
  {
    forall i | 0 <= i < |rs| ensures Admissible(ch.ledger, rs[..i], rs[i]) {
      ExecuteAdmits(o, ch, rs[i].tx, rs[..i], rs[i].log);
    }
  }

  // ----- verifying a block -----

  /** Re-execution of the receipts from index `i` on. */
  function VerifyReceipts(o: Oracles, ch: Chain, rs: seq<Receipt>, i: nat): BlockCheck
    requires ch.blocks != [] && i <= |rs|
    decreases |rs| - i
  {
    if i == |rs| then Accepted
    else
      match Execute(o, ch, rs[i].tx, rs[..i])
      case Executed(_) => VerifyReceipts(o, ch, rs, i + 1)
      case Refused(e) => Rejected(BadTx(e))
      case Panicked => CheckPanicked
  }

  function VerifyBlock(o: Oracles, ch: Chain, b: Block): BlockCheck
    requires ch.blocks != []
  {
    var prev := Head(ch);
    if prev.header.height + 1 != b.header.height then Rejected(InvalidBlockHeight)
    else if ReceiptRoot(o, b.receipts) != b.header.receiptRoot then Rejected(InvalidReceiptRoot)
    else if b.header.previousHash != HeaderHash(o, prev) then Rejected(InvalidPrevHash)
    else if b.signer.None? then Rejected(InvalidSignature)
    else if ch.ledger.owner.None? || !ch.ledger.owner.value.OwnerTx? then CheckPanicked
    else if b.signer.value.pubKey != ch.ledger.owner.value.minter then Rejected(InvalidSignature)
    else if !o.verify(b.signer.value.pubKey, HeaderHash(o, b), b.signer.value.signature) then Rejected(InvalidSignature)
    else VerifyReceipts(o, ch, b.receipts, 0)
  }

  lemma {:induction false} ExecutedVerify(o: Oracles, ch: Chain, rs: seq<Receipt>, i: nat)
    requires ch.blocks != [] && AllExecuted(o, ch, rs) && i <= |rs|
    ensures VerifyReceipts(o, ch, rs, i) == Accepted
    decreases |rs| - i
  {
    if i < |rs| {
      ExecutedVerify(o, ch, rs, i + 1);
    }
  }

  /** A block built from receipts that were executed one by one passes verification exactly when
      its signer is the indexed owner's minter. */
  lemma ProducedBlockVerifies(o: Oracles, ch: Chain, rs: seq<Receipt>, kp: KeyPair, now: u64)
    requires ch.blocks != [] && AllExecuted(o, ch, rs) && Genuine(o, kp)
    requires OwnerKnown(ch.ledger, ch.ledger.owner)
    requires NewChild(o, Head(ch), rs, now).Some?
    ensures VerifyBlock(o, ch, Sign(o, NewChild(o, Head(ch), rs, now).value, kp))
         == if kp.pub == ch.ledger.owner.value.minter then Accepted else Rejected(InvalidSignature)
  {
    hide FeeTotal, Execute, ReceiptRoot;
    var b := NewChild(o, Head(ch), rs, now).value;
    assert HeaderHash(o, Sign(o, b, kp)) == HeaderHash(o, b);
    ExecutedVerify(o, ch, rs, 0);
  }

  /** Rewards are in no hash and are not recomputed: a block passes with any rewards if it passes
      with some. That they are the fees rests on how blocks are built. */
  lemma RewardsAreNotChecked(o: Oracles, ch: Chain, b: Block, rewards: Asset)
    requires ch.blocks != []
    ensures VerifyBlock(o, ch, b.(rewards := rewards)) == VerifyBlock(o, ch, b)
  {
    hide ReceiptRoot, VerifyReceipts, EncBlockHeader;
  }
}
