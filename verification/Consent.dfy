// Who has to sign: what is created, updated, minted and sent from the owner's wallet needs as many
// signatures as the permissions say (blockchain/mod.rs, account.rs).

module Consent {
  import opened Wrappers
  import opened Numbers
  import opened Assets
  import opened Serializer
  import opened Crypto
  import opened Accounts
  import opened Transactions
  import opened Blocks
  import opened Ops
  import opened Builders
  import opened Engine
  import opened Structured
  import opened Expressions
  import opened Ledgers
  import opened Conservation
  import opened Chains
  import opened Permitted
  import opened Nodes
  import opened Runs
  import opened Layouts

  /** At least so many places in the transaction's signatures hold one that verifies, by a listed key. */
  predicate SignedByMany(o: Oracles, p: Permissions, tx: TxVariant) {
    var sigs := tx.base.sigs;
    |set i: nat | i < |sigs| && sigs[i].pubKey in p.keys && o.verify(sigs[i].pubKey, TxIdOf(o, tx), sigs[i].signature)|
    >= p.threshold
  }

  lemma {:induction false} ApprovedIsSigned(o: Oracles, p: Permissions, tx: TxVariant)
    requires Approves(o, p, TxIdOf(o, tx), tx.base.sigs)
    ensures SignedByMany(o, p, tx)
  {
    hide TxIdOf;
    var sigs := tx.base.sigs;
    if p.threshold > 0 {
      assert ListedAt(p, sigs)
          == set i: nat | i < |sigs| && sigs[i].pubKey in p.keys
                          && o.verify(sigs[i].pubKey, TxIdOf(o, tx), sigs[i].signature);
    }
  }

  lemma SignedIff(o: Oracles, a: Account, tx: TxVariant)
    ensures Signed(o, a, tx) <==> Approves(o, a.permissions, TxIdOf(o, tx), tx.base.sigs)
  {
    hide Approves, TxIdOf, TooFew, AllGood, ListedAt, Verdict;
    VerdictIff(o, a.permissions, TxIdOf(o, tx), tx.base.sigs);
    var v := Verdict(o, a.permissions, TxIdOf(o, tx), tx.base.sigs);
    assert v.Ok? ==> v.value == ();
  }

  // ----- creating and updating -----

  /** The account that pays, as it stands at that point, has all the signatures its permissions ask for. */
  predicate PayerSigns(o: Oracles, l: Ledger, tx: TxVariant, rs: seq<Receipt>) {
    var payer := Payer(tx);
    payer.Some? &&
    var a := GetAccount(l, payer.value.0, rs);
    a.Some? && Approves(o, a.value.permissions, TxIdOf(o, tx), tx.base.sigs) && SignedByMany(o, a.value.permissions, tx)
  }

  /** Nothing is created or updated without the signatures that the permissions of the paying account,
      as it stands at that point, ask for. */
  lemma ChangesAreSigned(o: Oracles, ch: Chain, tx: TxVariant, rs: seq<Receipt>)
    requires ch.blocks != [] && (tx.CreateAccountTx? || tx.UpdateAccountTx?)
    requires Execute(o, ch, tx, rs).Executed?
    ensures PayerSigns(o, ch.ledger, tx, rs)
  {
    ExecutesIff(o, ch, tx, rs);
    hide GetAccount, Signed, Execute, IsValidPermissions, Created, Approves, SignedByMany, TxIdOf;
    var payer := GetAccount(ch.ledger, Payer(tx).value.0, rs);
    SignedIff(o, payer.value, tx);
    ApprovedIsSigned(o, payer.value.permissions, tx);
  }

  /** At every place of a reachable pool. */
  lemma PoolIsSigned(o: Oracles, n: Node, i: nat)
    requires Reachable(o, n) && i < |n.pool| && (n.pool[i].tx.CreateAccountTx? || n.pool[i].tx.UpdateAccountTx?)
    ensures PayerSigns(o, n.chain.ledger, n.pool[i].tx, n.pool[..i])
  {
    ReachableInv(o, n);
    assert n.chain.blocks != [] && Execute(o, n.chain, n.pool[i].tx, n.pool[..i]).Executed? by {
      hide Execute, Replay, LedgerInv, FeeCapped;
    }
    hide *;
    ChangesAreSigned(o, n.chain, n.pool[i].tx, n.pool[..i]);
  }

  /** An account whose threshold is above the eight signatures a transaction can carry, as that of an
      immutable account is, neither creates accounts nor is updated ever again. */
  lemma ImmutableStays(o: Oracles, ch: Chain, tx: TxVariant, rs: seq<Receipt>)
    requires ch.blocks != [] && (tx.CreateAccountTx? || tx.UpdateAccountTx?)
    requires var payer := GetAccount(ch.ledger, Payer(tx).value.0, rs);
             payer.Some? && payer.value.permissions.threshold > 8
    ensures !Execute(o, ch, tx, rs).Executed?
  {
    if Execute(o, ch, tx, rs).Executed? {
      ChangesAreSigned(o, ch, tx, rs);
      ExecutesIff(o, ch, tx, rs);
      hide GetAccount, Execute, CreatePermitted, UpdatePermitted;
      ListedCount(GetAccount(ch.ledger, Payer(tx).value.0, rs).value.permissions, tx.base.sigs);
      assert false;
    }
  }

  // ----- the owner's wallet -----

  lemma OneVote(d: EngineData, id: AccountId)
    ensures CheckAccPerms(d, 1, [id])
         == match d.lookup(id)
            case None => Err(EvalErrKind.AccountNotFound)
            case Some(a) => Ok(Approves(d.o, a.permissions, TxIdOf(d.o, d.tx), d.tx.base.sigs))
  {
    assert [id][..0] == [] && ScanPerms(d, []) == Ok(Some(0));
    assert ScanPerms(d, [id]) == ScanOne(d, id, 0);
    if d.lookup(id).Some? {
      VerdictIff(d.o, d.lookup(id).value.permissions, TxIdOf(d.o, d.tx), d.tx.base.sigs);
    }
    hide Approves, TxIdOf, TooFew, AllGood, ListedAt, Verdict;
  }

  /** What the wallet has to say to the transaction. */
  function WalletVote(d: EngineData): Result<bool, EvalErrKind> {
    match d.lookup(0)
    case None => Err(EvalErrKind.AccountNotFound)
    case Some(a) => Ok(Approves(d.o, a.permissions, TxIdOf(d.o, d.tx), d.tx.base.sigs))
  }

  function TransferCode(): seq<OpFrame> {
    GuardCode(UnlessApproved(0)) + [OpTransfer, OpTrue]
  }

  lemma GenesisScriptBuilt()
    ensures BuildScript(GenesisFns()) == Ok(GenesisScript())
  {
    hide BuildScript;
    GenesisScriptBytes();
  }

  lemma WalletFunctions(d: EngineData)
    requires d.script == GenesisScript()
    ensures HasFunction(d, GenesisFns(), 0, 0, [], TestCode(Approved(0)))
    ensures HasFunction(d, GenesisFns(), 1, 1, [ArgAccountId, ArgAsset], TransferCode())
  {
    GenesisScriptBuilt();
    hide BuildScript, GenesisScript;
    LineFlattens(TestCode(Approved(0)));
    LineFlattens(TransferCode());
    hide Flatten, Line;
  }

  /** The wallet's first function, which mints and changes of the owner call, succeeds exactly if the
      wallet approves, and sends nothing. */
  lemma FirstFunction(d: EngineData)
    requires d.script == GenesisScript()
    ensures Kinds(CallFn(d, 0))
         == match WalletVote(d)
            case Err(kind) => Some(Err(kind))
            case Ok(b) => if b then Some(Ok(Refund(d.tx, AmountOf(d.tx)))) else Some(Err(ScriptRetFalse))
  {
    hide CallFn, HasFunction, GenesisScript, GenesisFns, CheckAccPerms, Approves, TxIdOf, TestCode;
    WalletFunctions(d);
    TestCall(d, GenesisFns(), 0, 0, Approved(0));
    OneVote(d, 0);
  }

  /** The two arguments of the second function. */
  function WalletArgs(d: EngineData): Parsed<(AccountId, Asset)> {
    var (to, t) :- TakeU64(FnArgs(d.tx));
    var (amount, rest) :- TakeAsset(t);
    Parsed((to, amount), rest)
  }

  function WalletPays(d: EngineData): Result<seq<LogEntry>, EvalErrKind> {
    match WalletArgs(d)
    case NotParsed => Err(ArgDeserialization)
    case Parsed((to, amount), _) =>
      match WalletVote(d)
      case Err(kind) => Err(kind)
      case Ok(b) => if b then Paid(d, to, amount) else Err(ScriptRetFalse)
  }

  lemma WalletArgsPushed(d: EngineData)
    ensures PushArgs([], [ArgAccountId, ArgAsset], FnArgs(d.tx))
         == match WalletArgs(d)
            case NotParsed => Err(ArgDeserialization)
            case Parsed((to, amount), _) => Ok([OpAccountId(to), OpAsset(amount)])
  {
    hide TakeU64, TakeAsset, FnArgs;
    var args := [ArgAccountId, ArgAsset];
    assert args[1..] == [ArgAsset] && args[1..][1..] == [];
    match TakeU64(FnArgs(d.tx))
    case NotParsed =>
    case Parsed(to, t) =>
      assert [] + [OpAccountId(to)] == [OpAccountId(to)];
      match TakeAsset(t)
      case NotParsed =>
      case Parsed(amount, rest) =>
        assert [OpAccountId(to)] + [OpAsset(amount)] == [OpAccountId(to), OpAsset(amount)];
        assert PushArgs([OpAccountId(to), OpAsset(amount)], [], rest) == Ok([OpAccountId(to), OpAsset(amount)]);
  }

  /** The wallet's second function sends the amount it is given to the account it is given and the rest
      back, exactly if the wallet approves; without its approval it sends nothing at all. */
  lemma SecondFunction(d: EngineData)
    requires d.script == GenesisScript()
    ensures Kinds(CallFn(d, 1)) == Some(WalletPays(d))
  {
    hide CallFn, HasFunction, GenesisScript, GenesisFns, CheckAccPerms, Approves, TxIdOf, PushArgs, RunFrames, Paid,
         TransferCode, WalletArgs;
    WalletFunctions(d);
    LineCall(d, GenesisFns(), 1, 1, [ArgAccountId, ArgAsset], TransferCode());
    WalletArgsPushed(d);
    match WalletArgs(d)
    case NotParsed =>
    case Parsed((to, amount), _) => WalletRuns(d, to, amount);
  }

  lemma WalletRuns(d: EngineData, to: AccountId, amount: Asset)
    ensures Verdicts(d, RunFrames(d, TransferCode(), Entering(d, [OpAccountId(to), OpAsset(amount)])))
         == match WalletVote(d)
            case Err(kind) => Err(kind)
            case Ok(b) => if b then Paid(d, to, amount) else Err(ScriptRetFalse)
  {
    hide CheckAccPerms, Approves, TxIdOf, RunFrames, Paid, Conclude;
    var m := Entering(d, [OpAccountId(to), OpAsset(amount)]);
    assert m == OnTop(OnTop(Entering(d, []), OpAccountId(to)), OpAsset(amount));
    GuardRuns(d, UnlessApproved(0), [OpTransfer, OpTrue], m);
    OneVote(d, 0);
    TransferEnds(d, to, amount);
  }

  /** A script without a function of that number sends nothing. */
  lemma NoOtherFunction(d: EngineData, id: byte)
    requires d.script == GenesisScript() && id > 1
    ensures CallFn(d, id) == Failure(EvalErr(0, UnknownFn))
  {
    GenesisScriptBuilt();
    hide BuildScript, GenesisScript;
    BuiltLookup(GenesisFns(), d.script, id, 2);
  }

  /** What a transfer out of the wallet may send as long as the wallet has the script it was born with. */
  function WalletSends(d: EngineData): Option<seq<LogEntry>>
    requires d.tx.TransferTx?
  {
    if d.tx.callFn == 0 && WalletVote(d) == Ok(true) then Some(Refund(d.tx, AmountOf(d.tx)))
    else if d.tx.callFn == 1 && WalletPays(d).Ok? then Some(WalletPays(d).value)
    else None
  }

  lemma WalletEval(d: EngineData, log: seq<LogEntry>)
    requires d.script == GenesisScript() && d.tx.TransferTx?
    ensures Eval(d) == Success(log) <==> WalletSends(d) == Some(log)
    ensures WalletSends(d).Some? ==> WalletVote(d) == Ok(true)
  {
    hide CallFn, GenesisScript, WalletVote, WalletArgs, Paid, Refund;
    FirstFunction(d);
    SecondFunction(d);
    if d.tx.callFn > 1 {
      NoOtherFunction(d, d.tx.callFn);
    }
  }

  /** It is let through with that log and no other, and only if the wallet's permissions approve. */
  lemma WalletSpendsOnApproval(o: Oracles, ch: Chain, tx: TxVariant, rs: seq<Receipt>, log: seq<LogEntry>)
    requires ch.blocks != [] && tx.TransferTx? && tx.from == 0
    requires GetAccount(ch.ledger, 0, rs).Some? && GetAccount(ch.ledger, 0, rs).value.script == GenesisScript()
    ensures Execute(o, ch, tx, rs) == Executed(log)
       <==> && |tx.base.sigs| <= 8 && TransferPermitted(ch, tx, rs)
            && WalletSends(ScriptData(o, ch, tx, rs, GenesisScript())) == Some(log)
    ensures Execute(o, ch, tx, rs).Executed? ==> SignedByMany(o, GetAccount(ch.ledger, 0, rs).value.permissions, tx)
  {
    hide GetAccount, GenesisScript, Approves, SignedByMany, TxIdOf, WalletSends, TransferPermitted, RunScript, Execute;
    var d, wallet := ScriptData(o, ch, tx, rs, GenesisScript()), GetAccount(ch.ledger, 0, rs).value;
    PassedTransferRuns(o, ch, tx, rs);
    if Execute(o, ch, tx, rs).Executed? {
      WalletRun(o, ch, tx, rs, Execute(o, ch, tx, rs).log);
      assert d.lookup(0) == GetAccount(ch.ledger, 0, rs);
      ApprovedIsSigned(o, wallet.permissions, tx);
    }
    WalletRun(o, ch, tx, rs, log);
  }

  lemma PassedTransferRuns(o: Oracles, ch: Chain, tx: TxVariant, rs: seq<Receipt>)
    requires ch.blocks != [] && tx.TransferTx?
    ensures if |tx.base.sigs| <= 8 && TransferPermitted(ch, tx, rs)
            then GetAccount(ch.ledger, tx.from, rs).Some?
                 && Execute(o, ch, tx, rs) == RunScript(o, ch, tx, rs, GetAccount(ch.ledger, tx.from, rs).value.script)
            else Execute(o, ch, tx, rs).Refused?
  {
    hide GetAccount, RunScript, CheckTransfer, TransferPermitted;
    TransferIff(ch, tx, rs);
  }

  lemma WalletRun(o: Oracles, ch: Chain, tx: TxVariant, rs: seq<Receipt>, log: seq<LogEntry>)
    requires ch.blocks != [] && tx.TransferTx?
    ensures var d := ScriptData(o, ch, tx, rs, GenesisScript());
            && (RunScript(o, ch, tx, rs, GenesisScript()) == Executed(log) <==> WalletSends(d) == Some(log))
            && (WalletSends(d).Some? ==> WalletVote(d) == Ok(true))
  {
    hide Eval, GenesisScript, WalletSends, WalletVote;
    WalletEval(ScriptData(o, ch, tx, rs, GenesisScript()), log);
  }

  /** As long as the wallet has the script it was born with, nothing is minted and no owner is named
      without the signatures its permissions ask for. */
  lemma OwnersActsAreSigned(o: Oracles, ch: Chain, tx: TxVariant, rs: seq<Receipt>)
    requires ch.blocks != [] && (tx.MintTx? || tx.OwnerTx?) && Execute(o, ch, tx, rs).Executed?
    requires ch.ledger.owner.Some? && ch.ledger.owner.value.OwnerTx? && ch.ledger.owner.value.wallet == 0
    requires GetAccount(ch.ledger, 0, rs).Some? && GetAccount(ch.ledger, 0, rs).value.script == GenesisScript()
    ensures SignedByMany(o, GetAccount(ch.ledger, 0, rs).value.permissions, tx)
  {
    ExecutesIff(o, ch, tx, rs);
    hide Execute, GetAccount, GenesisScript, CallFn, Approves, SignedByMany, TxIdOf;
    var d := ScriptData(o, ch, tx, rs, GenesisScript());
    FirstFunction(d);
    assert d.lookup(0) == GetAccount(ch.ledger, 0, rs);
    ApprovedIsSigned(o, GetAccount(ch.ledger, 0, rs).value.permissions, tx);
  }

  // ----- conditions of any account -----

  /** The transaction calls a function of the payer's script that is one condition. */
  predicate Conditional(ch: Chain, tx: TxVariant, rs: seq<Receipt>, fns: seq<FnDef>, k: nat, t: Test)
    requires tx.TransferTx?
  {
    var payer := GetAccount(ch.ledger, tx.from, rs);
    && Posed(t) && AllBasic(TestCode(t)) && Holds(fns, tx.callFn, k, Line(TestCode(t))) && fns[k].args == []
    && payer.Some? && BuildScript(fns) == Ok(payer.value.script)
  }

  /** A transfer that names a time goes through from that time of the newest block on, and one that names
      an account exactly if that account's permissions approve, as it stands behind the pool. */
  lemma ConditionDecides(o: Oracles, ch: Chain, tx: TxVariant, rs: seq<Receipt>, fns: seq<FnDef>, k: nat, t: Test)
    requires ch.blocks != [] && tx.TransferTx? && |tx.base.sigs| <= 8 && TransferPermitted(ch, tx, rs)
    requires Conditional(ch, tx, rs, fns, k, t)
    ensures t.Reached? ==> (Execute(o, ch, tx, rs).Executed? <==> t.time <= Head(ch).header.timestamp)
    ensures t.Approved? ==>
              var a := GetAccount(ch.ledger, t.id, rs);
              (Execute(o, ch, tx, rs).Executed?
               <==> a.Some? && Approves(o, a.value.permissions, TxIdOf(o, tx), tx.base.sigs))
  {
    TransferIff(ch, tx, rs);
    hide GetAccount, Eval, Approves, TxIdOf, CheckTransfer, TransferPermitted, BuildScript, TestCode, Line, CheckAccPerms;
    var d := ScriptData(o, ch, tx, rs, GetAccount(ch.ledger, tx.from, rs).value.script);
    TestCall(d, fns, tx.callFn, k, t);
    if t.Approved? {
      OneVote(d, t.id);
      assert d.lookup(t.id) == GetAccount(ch.ledger, t.id, rs);
    }
  }
}
