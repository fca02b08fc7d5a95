// Which transactions and blocks are let through, said once more without the order of the checks
// and without checked arithmetic: `execute_tx` and `verify_block` in blockchain/mod.rs.

module Permitted {
  import opened Wrappers
  import opened Numbers
  import opened Assets
  import opened Crypto
  import opened Accounts
  import opened Transactions
  import opened Blocks
  import opened Ops
  import opened Scripts
  import opened Engine
  import opened Ledgers
  import opened FeePolicy
  import opened Conservation
  import opened Chains

  // ----- fees -----

  /** Network and account fee of an account that has both. */
  function TotalOf(info: AccountInfo): int {
    info.netFee + info.accountFee
  }

  lemma DoubledFee(x: Asset)
    requires x >= 0
    ensures CheckedMul(x, GRAEL_ACC_CREATE_FEE_MULT) == if 2 * x <= I64_MAX then Some(2 * x) else None
  {
    assert x * GRAEL_ACC_CREATE_FEE_MULT == 2 * x * 100_000;
    TruncDivExact(2 * x, 100_000);
  }

  lemma InfoFees(ch: Chain, id: AccountId, rs: seq<Receipt>)
    requires ch.blocks != [] && GetAccountInfo(ch, id, rs).Some?
    ensures var info := GetAccountInfo(ch, id, rs).value; info.netFee >= 0 && info.accountFee >= 0
  {
    hide GetAccount, NetworkFee, AccountFee;
    FeesNonNegative(ch.blocks, id, rs);
  }

  // ----- transactions -----

  /** No more is asked for than eight listed keys can give, or what nobody can. */
  predicate Lawful(p: Permissions) {
    p.threshold <= |p.keys| <= 8 || (p.threshold == 255 && p.keys == [])
  }

  /** The account's pending balance covers both debits, and its fees are known and not too large to
      be multiplied. */
  predicate Solvent(info: Option<AccountInfo>, times: nat, fee: Asset, amount: Asset) {
    && info.Some?
    && 0 <= times * TotalOf(info.value) <= I64_MAX
    && info.value.account.balance >= fee + amount
  }

  predicate CreatePermitted(o: Oracles, ch: Chain, tx: TxVariant, rs: seq<Receipt>)
    requires ch.blocks != [] && tx.CreateAccountTx?
  {
    var acc, info := tx.account, GetAccountInfo(ch, tx.creator, rs);
    && |acc.script| <= 2048 && !acc.destroyed && Lawful(acc.permissions)
    && acc.id !in ch.ledger.accounts && !Created(rs, acc.id)
    && Solvent(info, 4, tx.base.fee, acc.balance)
    && tx.base.fee >= 2 * TotalOf(info.value)
    && acc.balance >= 4 * TotalOf(info.value)
    && Signed(o, info.value.account, tx)
  }

  predicate UpdatePermitted(o: Oracles, ch: Chain, tx: TxVariant, rs: seq<Receipt>)
    requires ch.blocks != [] && tx.UpdateAccountTx?
  {
    var info := GetAccountInfo(ch, tx.accountId, rs);
    && (tx.newScript.Some? ==> |tx.newScript.value| <= 2048)
    && (tx.newScript.None? && tx.newPermissions.Some? ==> Lawful(tx.newPermissions.value))
    && Solvent(info, 2, tx.base.fee, 0)
    && !info.value.account.destroyed
    && tx.base.fee >= 2 * TotalOf(info.value)
    && Signed(o, info.value.account, tx)
  }

  predicate TransferPermitted(ch: Chain, tx: TxVariant, rs: seq<Receipt>)
    requires ch.blocks != [] && tx.TransferTx?
  {
    var info := GetAccountInfo(ch, tx.from, rs);
    && |tx.memo| <= 1024 && tx.amount >= 0
    && Solvent(info, 1, tx.base.fee, tx.amount)
    && tx.base.fee >= TotalOf(info.value)
  }

  /** The script of the account, run for the transaction, succeeds. */
  predicate ScriptAgrees(o: Oracles, ch: Chain, tx: TxVariant, rs: seq<Receipt>, a: Option<Account>)
    requires ch.blocks != []
  {
    a.Some? && Eval(ScriptData(o, ch, tx, rs, a.value.script)).Success?
  }

  predicate TxPermitted(o: Oracles, ch: Chain, tx: TxVariant, rs: seq<Receipt>)
    requires ch.blocks != []
  {
    && |tx.base.sigs| <= 8
    && match tx
       case OwnerTx(base, _, wallet) =>
         base.fee == 0 && GetAccount(ch.ledger, wallet, rs).Some? && ScriptAgrees(o, ch, tx, rs, OwnerWallet(ch, rs))
       case MintTx(base, _, amount, _, _) =>
         && base.fee == 0 && 0 <= amount <= I64_MAX - ch.ledger.supply
         && ScriptAgrees(o, ch, tx, rs, OwnerWallet(ch, rs))
       case CreateAccountTx(_, _, _) => CreatePermitted(o, ch, tx, rs)
       case UpdateAccountTx(_, _, _, _) => UpdatePermitted(o, ch, tx, rs)
       case TransferTx(_, from, _, _, _, _) =>
         TransferPermitted(ch, tx, rs) && ScriptAgrees(o, ch, tx, rs, GetAccount(ch.ledger, from, rs))
  }

  lemma CreateIff(o: Oracles, ch: Chain, tx: TxVariant, rs: seq<Receipt>)
    requires ch.blocks != [] && tx.CreateAccountTx?
    ensures CheckCreate(o, ch, tx, rs).Ok? <==> CreatePermitted(o, ch, tx, rs)
  {
    hide GetAccountInfo, Created, Signed, CheckedMul;
    var info := GetAccountInfo(ch, tx.creator, rs);
    if info.Some? {
      InfoFees(ch, tx.creator, rs);
      if TotalOf(info.value) <= I64_MAX {
        DoubledFee(TotalOf(info.value));
        if 2 * TotalOf(info.value) <= I64_MAX {
          DoubledFee(2 * TotalOf(info.value));
        }
      }
    }
  }

  lemma UpdateIff(o: Oracles, ch: Chain, tx: TxVariant, rs: seq<Receipt>)
    requires ch.blocks != [] && tx.UpdateAccountTx?
    ensures CheckUpdate(o, ch, tx, rs).Ok? <==> UpdatePermitted(o, ch, tx, rs)
  {
    hide GetAccountInfo, Signed, CheckedMul;
    var info := GetAccountInfo(ch, tx.accountId, rs);
    if info.Some? {
      InfoFees(ch, tx.accountId, rs);
      if TotalOf(info.value) <= I64_MAX {
        DoubledFee(TotalOf(info.value));
      }
    }
  }

  lemma TransferIff(ch: Chain, tx: TxVariant, rs: seq<Receipt>)
    requires ch.blocks != [] && tx.TransferTx?
    ensures CheckTransfer(ch, tx, rs).Ok? <==> TransferPermitted(ch, tx, rs)
    ensures CheckTransfer(ch, tx, rs).Ok? ==> GetAccount(ch.ledger, tx.from, rs) == Some(CheckTransfer(ch, tx, rs).value)
  {
    hide GetAccount, NetworkFee, AccountFee;
    if GetAccountInfo(ch, tx.from, rs).Some? {
      InfoFees(ch, tx.from, rs);
    }
  }

  /** What is let in, exactly. Creating an account costs at least twice the fees of its creator and
      leaves at least four times as much on it; updating costs at least twice the fees, a transfer
      at least the fees; and the pending balance covers everything that is taken. */
  lemma ExecutesIff(o: Oracles, ch: Chain, tx: TxVariant, rs: seq<Receipt>)
    requires ch.blocks != []
    ensures Execute(o, ch, tx, rs).Executed? <==> TxPermitted(o, ch, tx, rs)
  {
    hide CheckCreate, CheckUpdate, CheckTransfer, CreatePermitted, UpdatePermitted, TransferPermitted, Eval, ScriptData,
         GetAccount, OwnerWallet;
    if tx.CreateAccountTx? {
      CreateIff(o, ch, tx, rs);
    } else if tx.UpdateAccountTx? {
      UpdateIff(o, ch, tx, rs);
    } else if tx.TransferTx? {
      TransferIff(ch, tx, rs);
    }
  }

  // ----- panics -----

  /** The function table points past the end of the script. */
  predicate TableOverruns(s: seq<byte>, id: byte) {
    FnPtr(s, id).FnAt? && FnPtr(s, id).ptr > |s|
  }

  /** The owner's wallet has no pending balance in 64 bits, or its script cannot be entered. */
  predicate OwnerPanics(ch: Chain, rs: seq<Receipt>) {
    var wallet := OwnerWallet(ch, rs);
    wallet.None? || TableOverruns(wallet.value.script, 0)
  }

  predicate TxPanics(ch: Chain, tx: TxVariant, rs: seq<Receipt>)
    requires ch.blocks != []
  {
    && |tx.base.sigs| <= 8
    && match tx
       case OwnerTx(base, _, wallet) => base.fee == 0 && GetAccount(ch.ledger, wallet, rs).Some? && OwnerPanics(ch, rs)
       case MintTx(base, _, amount, _, _) => base.fee == 0 && amount >= 0 && OwnerPanics(ch, rs)
       case CreateAccountTx(_, _, _) => false
       case UpdateAccountTx(_, _, _, _) => false
       case TransferTx(_, from, callFn, _, _, _) =>
         TransferPermitted(ch, tx, rs) && TableOverruns(GetAccount(ch.ledger, from, rs).value.script, callFn)
  }

  lemma EvalPanicsIff(d: EngineData)
    ensures Eval(d).Panic? <==> TableOverruns(d.script, FnId(d.tx))
  {
    hide RunBytes, PushArgs, DecodeOp, FnPtr, Conclude;
  }

  /** Exactly when executing a transaction stops the process. */
  lemma ExecutePanicsIff(o: Oracles, ch: Chain, tx: TxVariant, rs: seq<Receipt>)
    requires ch.blocks != []
    ensures Execute(o, ch, tx, rs).Panicked? <==> TxPanics(ch, tx, rs)
  {
    hide CheckCreate, CheckUpdate, CheckTransfer, TransferPermitted, Eval, GetAccount, OwnerWallet, TableOverruns;
    if tx.TransferTx? {
      TransferIff(ch, tx, rs);
      if CheckTransfer(ch, tx, rs).Ok? {
        EvalPanicsIff(ScriptData(o, ch, tx, rs, CheckTransfer(ch, tx, rs).value.script));
      }
    } else if OwnerWallet(ch, rs).Some? {
      EvalPanicsIff(ScriptData(o, ch, tx, rs, OwnerWallet(ch, rs).value.script));
    }
  }

  // ----- blocks -----

  /** The signer is the indexed owner's minter, and has signed the header. */
  predicate SignedByMinter(o: Oracles, ch: Chain, b: Block) {
    && ch.ledger.owner.Some? && ch.ledger.owner.value.OwnerTx? && b.signer.Some?
    && b.signer.value.pubKey == ch.ledger.owner.value.minter
    && o.verify(b.signer.value.pubKey, HeaderHash(o, b), b.signer.value.signature)
  }

  lemma {:induction false} ReceiptsIff(o: Oracles, ch: Chain, rs: seq<Receipt>, i: nat)
    requires ch.blocks != [] && i <= |rs|
    ensures VerifyReceipts(o, ch, rs, i) == Accepted
       <==> forall k | i <= k < |rs| :: Execute(o, ch, rs[k].tx, rs[..k]).Executed?
    decreases |rs| - i
  {
    hide Execute;
    if i < |rs| {
      ReceiptsIff(o, ch, rs, i + 1);
    }
  }

  /** A block passes exactly if it is the signed successor of the head and each of its transactions
      is permitted behind the ones before it. */
  lemma AcceptedIff(o: Oracles, ch: Chain, b: Block)
    requires ch.blocks != []
    ensures VerifyBlock(o, ch, b) == Accepted
       <==> && b.header.height == Head(ch).header.height + 1
            && b.header.previousHash == HeaderHash(o, Head(ch))
            && b.header.receiptRoot == ReceiptRoot(o, b.receipts)
            && SignedByMinter(o, ch, b)
            && forall k | 0 <= k < |b.receipts| :: TxPermitted(o, ch, b.receipts[k].tx, b.receipts[..k])
  {
    hide Execute, TxPermitted, VerifyReceipts, ReceiptRoot, HeaderHash;
    ReceiptsIff(o, ch, b.receipts, 0);
    forall k | 0 <= k < |b.receipts|
      ensures Execute(o, ch, b.receipts[k].tx, b.receipts[..k]).Executed?
         <==> TxPermitted(o, ch, b.receipts[k].tx, b.receipts[..k])
    {
      ExecutesIff(o, ch, b.receipts[k].tx, b.receipts[..k]);
    }
  }

  predicate IsNext(ch: Chain, b: Block)
    requires ch.blocks != []
  {
    b.header.height == Head(ch).header.height + 1
  }

  predicate IsOfReceipts(o: Oracles, b: Block) {
    b.header.receiptRoot == ReceiptRoot(o, b.receipts)
  }

  predicate IsOfParent(o: Oracles, ch: Chain, b: Block)
    requires ch.blocks != []
  {
    b.header.previousHash == HeaderHash(o, Head(ch))
  }

  /** The receipts from `i` up to some place execute, and the one there is refused for this reason. */
  predicate FirstRefused(o: Oracles, ch: Chain, rs: seq<Receipt>, i: nat, e: TxErr)
    requires ch.blocks != []
  {
    exists k ::
      && i <= k < |rs| && Execute(o, ch, rs[k].tx, rs[..k]) == Refused(e)
      && forall j | i <= j < k :: Execute(o, ch, rs[j].tx, rs[..j]).Executed?
  }

  lemma {:induction false} FirstRefusedIff(o: Oracles, ch: Chain, rs: seq<Receipt>, i: nat, e: TxErr)
    requires ch.blocks != [] && i <= |rs|
    ensures VerifyReceipts(o, ch, rs, i) == Rejected(BadTx(e)) <==> FirstRefused(o, ch, rs, i, e)
    decreases |rs| - i
  {
    hide Execute;
    if i < |rs| {
      FirstRefusedIff(o, ch, rs, i + 1, e);
    }
  }

  lemma {:induction false} OnlyForTransactions(o: Oracles, ch: Chain, rs: seq<Receipt>, i: nat)
    requires ch.blocks != [] && i <= |rs|
    ensures VerifyReceipts(o, ch, rs, i).Rejected? ==> VerifyReceipts(o, ch, rs, i).e.BadTx?
    decreases |rs| - i
  {
    hide Execute;
    if i < |rs| {
      OnlyForTransactions(o, ch, rs, i + 1);
    }
  }

  /** Why a block is turned away: its height, then its receipts' hash, then its parent, then its signer,
      then the first transaction that is refused behind the ones before it. */
  lemma RejectedIff(o: Oracles, ch: Chain, b: Block, e: TxErr)
    requires ch.blocks != [] && ch.ledger.owner.Some? && ch.ledger.owner.value.OwnerTx?
    ensures VerifyBlock(o, ch, b) == Rejected(InvalidBlockHeight) <==> !IsNext(ch, b)
    ensures VerifyBlock(o, ch, b) == Rejected(InvalidReceiptRoot) <==> IsNext(ch, b) && !IsOfReceipts(o, b)
    ensures VerifyBlock(o, ch, b) == Rejected(InvalidPrevHash)
       <==> IsNext(ch, b) && IsOfReceipts(o, b) && !IsOfParent(o, ch, b)
    ensures VerifyBlock(o, ch, b) == Rejected(InvalidSignature)
       <==> IsNext(ch, b) && IsOfReceipts(o, b) && IsOfParent(o, ch, b) && !SignedByMinter(o, ch, b)
    ensures VerifyBlock(o, ch, b) == Rejected(BadTx(e))
       <==> && IsNext(ch, b) && IsOfReceipts(o, b) && IsOfParent(o, ch, b) && SignedByMinter(o, ch, b)
            && FirstRefused(o, ch, b.receipts, 0, e)
  {
    hide Execute, VerifyReceipts, ReceiptRoot, HeaderHash, FirstRefused;
    FirstRefusedIff(o, ch, b.receipts, 0, e);
    OnlyForTransactions(o, ch, b.receipts, 0);
  }
}
