// A run in which a transfer is let through by the script of another account: pending updates in
// `get_account` of blockchain/mod.rs, from genesis on.

module PendingUpdates {
  import opened Wrappers
  import opened Numbers
  import opened Accounts
  import opened Crypto
  import opened Transactions
  import opened Blocks
  import opened Ops
  import opened Builders
  import opened Engine
  import opened Structured
  import opened Ledgers
  import opened FeePolicy
  import opened Conservation
  import opened Chains
  import opened Permitted
  import opened Nodes
  import opened Runs
  import opened Identifiers
  import opened Rights
  import opened Shapes
  import opened Scenarios

  // ----- the script -----

  function TrueFns(): seq<FnDef> {
    [FnDef(0, [], [OpTrue])]
  }

  /** A script whose first function pushes true and ends. */
  function TrueScript(): seq<byte> {
    var r := BuildScript(TrueFns());
    if r.Ok? then r.value else []
  }

  lemma TrueScriptBuilds()
    ensures BuildScript(TrueFns()) == Ok(TrueScript()) && |TrueScript()| <= MAX_SCRIPT_BYTE_SIZE
    ensures Holds(TrueFns(), 0, 0, PUSH_TRUE) && TrueFns()[0].args == []
  {
    assert Flatten(Done) == [];
    assert Flatten(PUSH_TRUE) == [OpTrue] + [] == [OpTrue];
    hide Flatten, Holds;
    PlainLength([OpTrue]);
    var fns := OneFunctionBuilds(PUSH_TRUE, 0);
  }

  lemma TrueScriptSucceeds(d: EngineData)
    requires d.script == TrueScript() && d.tx.TransferTx? && d.tx.callFn == 0
    ensures Eval(d) == Success(if d.tx.amount > 0 then [Transfer(d.tx.from, d.tx.amount)] else [])
  {
    TrueScriptBuilds();
    hide TrueScript, TrueFns, BuildScript, Holds;
    BuiltProgramRuns(d, TrueFns(), 0, 0, PUSH_TRUE);
    var vm := Vm([], [], TotalAmount(d.tx));
    assert [] + [OpTrue] == [OpTrue];
    assert ExecFlagStmt(d, Basic(OpTrue), vm, false) == FlagFell(vm.(stack := [OpTrue]), false);
    assert ExecFlag(d, PUSH_TRUE, vm, false) == FlagFell(vm.(stack := [OpTrue]), false);
    hide ExecFlag, CallFn;
    assert PopBool([OpTrue]) == Ok((true, []));
  }

  lemma EmptyScriptFails(d: EngineData)
    requires d.script == []
    ensures Eval(d).Failure?
  {
  }

  // ----- fees of young chains -----

  predicate SmallBlocks(blocks: seq<Block>) {
    forall b | b in blocks :: |b.receipts| <= 2
  }

  lemma {:induction false} FewPaid(rs: seq<Receipt>, id: AccountId)
    ensures CountPaid(rs, id) <= |rs|
  {
  }

  /** Few receipts, moderate fees. */
  lemma {:induction false} YoungFees(ch: Chain, id: AccountId, rs: seq<Receipt>)
    requires ch.blocks != [] && |rs| + 2 * |ch.blocks| <= 5 && SmallBlocks(ch.blocks)
    requires GetAccount(ch.ledger, id, rs).Some?
    ensures var info := GetAccountInfo(ch, id, rs);
            && info.Some? && info.value.account == GetAccount(ch.ledger, id, rs).value
            && 0 <= TotalOf(info.value) <= 2000
  {
    hide GetAccount;
    YoungNetworkFee(ch.blocks);
    YoungAccountFee(ch.blocks, id, rs);
    hide NetworkFee, AccountFee;
  }

  lemma {:induction false} YoungNetworkFee(blocks: seq<Block>)
    requires 1 <= |blocks| <= 2 && SmallBlocks(blocks)
    ensures NetworkFee(blocks) == Some(25)
  {
    assert blocks[0] in blocks;
    assert ReceiptsIn(blocks, 0, 0) == |blocks[0].receipts|;
  }

  lemma {:induction false} YoungAccountFee(blocks: seq<Block>, id: AccountId, rs: seq<Receipt>)
    requires blocks != [] && |rs| + 2 * |blocks| <= 5 && SmallBlocks(blocks)
    ensures AccountFee(blocks, id, rs).Some? && 0 <= AccountFee(blocks, id, rs).value <= 1600
  {
    YoungCount(blocks, id, rs);
    hide FeeCount;
    AccountFeeDoubles(blocks, id, rs);
    PowersUpToSix(FeeCount(blocks, id, rs));
  }

  lemma {:induction false} YoungCount(blocks: seq<Block>, id: AccountId, rs: seq<Receipt>)
    requires blocks != [] && |rs| + 2 * |blocks| <= 5 && SmallBlocks(blocks)
    ensures FeeCount(blocks, id, rs) <= 6
  {
    hide CountPaid, WindowCount;
    FewPaid(rs, id);
    FewInWindow(blocks, id, |blocks|, 0);
  }

  lemma {:induction false} FewInWindow(blocks: seq<Block>, id: AccountId, n: nat, delta: nat)
    requires n <= |blocks| && SmallBlocks(blocks)
    ensures WindowCount(blocks, id, n, delta) <= 2 * n
  {
    if n > 0 {
      hide CountPaid;
      FewPaid(blocks[n - 1].receipts, id);
      FewInWindow(blocks, id, n - 1, 0);
      FewInWindow(blocks, id, n - 1, delta + 1);
    }
  }

  lemma PowersUpToSix(n: nat)
    requires n <= 6
    ensures 0 <= Pow(2, n) <= 64
  {
    assert Pow(2, 1) == 2 && Pow(2, 2) == 4 && Pow(2, 3) == 8;
    assert Pow(2, 4) == 16 && Pow(2, 5) == 32 && Pow(2, 6) == 64;
  }

  // ----- the transactions of the run -----

  const GUEST_ID: AccountId := 1

  /** Funds for the owner's wallet, an account without a script, an update of the wallet that only
      replaces its script, and a transfer out of the other account. */
  function FundTx(expiry: u64): TxVariant {
    assert IsUtf8([]);
    MintTx(Tx(0, expiry, 0, []), OWNER_ID, 1_000_000, [], [])
  }

  function Guest(): Account {
    Account(GUEST_ID, 100_000, [], Permissions(IMMUTABLE_ACCOUNT_THRESHOLD, []), false)
  }

  function OpenTx(expiry: u64): TxVariant {
    CreateAccountTx(Tx(0, expiry, 4000, []), OWNER_ID, Guest())
  }

  function ReplaceTx(expiry: u64): TxVariant {
    UpdateAccountTx(Tx(0, expiry, 4000, []), OWNER_ID, Some(TrueScript()), None)
  }

  function LeaveTx(expiry: u64): TxVariant {
    TransferTx(Tx(0, expiry, 4000, []), GUEST_ID, 0, [], 5000, [])
  }

  /** The four have four identifiers. */
  predicate Distinct(o: Oracles, expiry: u64) {
    var fund, open, replace, leave := TxIdOf(o, FundTx(expiry)), TxIdOf(o, OpenTx(expiry)),
                                      TxIdOf(o, ReplaceTx(expiry)), TxIdOf(o, LeaveTx(expiry));
    fund != open && fund != replace && fund != leave && open != replace && open != leave && replace != leave
  }

  // ----- producing a block -----

  /** What a block leaves behind. */
  /** The owner's wallet with what is left to it, and its guest. */
  predicate BothOpen(c: Cast, l: Ledger) {
    l.accounts == map[OWNER_ID := FundedWallet(c, 900_000), GUEST_ID := Guest()]
  }

  lemma WalletIsOpen(c: Cast, l: Ledger)
    requires BothOpen(c, l)
    ensures GetAccount(l, OWNER_ID, []).Some? && CanPay(c, GetAccount(l, OWNER_ID, []).value)
  {
    hide GenesisScript;
  }

  /** Indexing the first two transactions. */
  lemma LedgerOfTwo(c: Cast, l: Ledger, fund: Receipt, open: Receipt, b: Block)
    requires l.accounts == map[OWNER_ID := GenesisWallet(c.keys)] && l.supply == 0
    requires l.owner.Some? && l.owner.value.OwnerTx? && l.owner.value.wallet == OWNER_ID
    requires fund.tx.MintTx? && fund.tx.to == OWNER_ID && fund.tx.amount == 1_000_000
    requires open.tx.CreateAccountTx? && open.tx.creator == OWNER_ID && open.tx.account == Guest()
    requires open.tx.base.fee == 4000
    requires b.receipts == [fund, open] && b.rewards == 4000 && ApplyBlock(l, b).Some?
    ensures BothOpen(c, ApplyBlock(l, b).value)
  {
    hide GenesisScript;
    var l1 := l.(supply := 1_000_000, accounts := map[OWNER_ID := FundedWallet(c, 1_000_000)]);
    var l2 := l1.(accounts := map[OWNER_ID := FundedWallet(c, 896_000), GUEST_ID := Guest()]);
    assert b.receipts[..1] == [fund] && b.receipts[..1][..0] == [];
    assert ApplyReceipts(l, []) == Some(l);
    assert ApplyReceipt(l, fund) == Some(l1) by {
      assert ApplyReceipt(l, fund).value.accounts == l1.accounts;
    }
    assert ApplyReceipts(l, b.receipts[..1]) == Some(l1);
    assert ApplyReceipt(l1, open) == Some(l2) by {
      assert ApplyReceipt(l1, open).value.accounts == l2.accounts;
    }
    assert ApplyReceipts(l, b.receipts) == Some(l2);
  }

  // ----- the run -----

  /** The node that the transfer meets: one indexed account each for the owner and its guest, and the
      update of the owner's wallet in the pool. */
  ghost predicate Meets(o: Oracles, c: Cast, n: Node, expiry: u64) {
    && |n.chain.blocks| == 2 && SmallBlocks(n.chain.blocks) && Reachable(o, n)
    && BothOpen(c, n.chain.ledger)
    && n.pool == [Receipt(SignedBy(o, c, ReplaceTx(expiry)), [])]
  }

  lemma SignedOpen(o: Oracles, c: Cast, expiry: u64, a: Account)
    requires Trusted(o, c) && a.permissions == Permissions(2, c.keys)
    ensures var tx := SignedBy(o, c, OpenTx(expiry));
            && tx.CreateAccountTx? && tx.creator == OWNER_ID && tx.account == Guest()
            && tx.base.fee == 4000 && |tx.base.sigs| == 2 && Signed(o, a, tx)
  {
    SignedIsApproved(o, c, OpenTx(expiry));
    hide TxIdOf, Verdict, Guest;
  }

  lemma SignedReplace(o: Oracles, c: Cast, expiry: u64, a: Account)
    requires Trusted(o, c) && a.permissions == Permissions(2, c.keys)
    ensures var tx := SignedBy(o, c, ReplaceTx(expiry));
            && tx.UpdateAccountTx? && tx.accountId == OWNER_ID
            && tx.newScript == Some(TrueScript()) && tx.newPermissions.None?
            && tx.base.fee == 4000 && |tx.base.sigs| == 2 && Signed(o, a, tx)
  {
    SignedIsApproved(o, c, ReplaceTx(expiry));
    hide TxIdOf, Verdict, TrueScript;
  }

  /** A live account under the wallet's keys, with enough for one of the transactions. */
  predicate CanPay(c: Cast, a: Account) {
    a.permissions == Permissions(2, c.keys) && !a.destroyed && a.balance >= 104_000
  }

  lemma PayerCanPay(c: Cast, a: Account)
    requires CanPay(c, a)
    ensures a.permissions == Permissions(2, c.keys) && !a.destroyed && a.balance >= 104_000
  {
  }

  lemma {:induction false} OpenIsPermitted(o: Oracles, c: Cast, ch: Chain, rs: seq<Receipt>, expiry: u64, a: Account)
    requires Trusted(o, c) && |ch.blocks| == 1 && |rs| == 1 && SmallBlocks(ch.blocks)
    requires GUEST_ID !in ch.ledger.accounts && !Created(rs, GUEST_ID)
    requires GetAccount(ch.ledger, OWNER_ID, rs) == Some(a) && CanPay(c, a)
    ensures TxPermitted(o, ch, SignedBy(o, c, OpenTx(expiry)), rs)
  {
    hide SignedBy, OpenTx, Signed, GetAccount, GetAccountInfo, Trusted, Created, CanPay, SmallBlocks;
    PayerCanPay(c, a);
    YoungFees(ch, OWNER_ID, rs);
    SignedOpen(o, c, expiry, a);
  }

  lemma {:induction false} ReplaceIsPermitted(o: Oracles, c: Cast, ch: Chain, expiry: u64, a: Account)
    requires Trusted(o, c) && |ch.blocks| == 2 && SmallBlocks(ch.blocks)
    requires GetAccount(ch.ledger, OWNER_ID, []) == Some(a) && CanPay(c, a)
    ensures TxPermitted(o, ch, SignedBy(o, c, ReplaceTx(expiry)), [])
  {
    hide SignedBy, ReplaceTx, Signed, GetAccount, GetAccountInfo, TrueScript, BuildScript, Trusted, Holds, CanPay,
         SmallBlocks;
    PayerCanPay(c, a);
    YoungFees(ch, OWNER_ID, []);
    TrueScriptBuilds();
    SignedReplace(o, c, expiry, a);
  }

  // ----- funding the wallet -----

  /** The chain is that of genesis. */
  predicate Young(c: Cast, ch: Chain) {
    && |ch.blocks| == 1 && |ch.blocks[0].receipts| <= 2 && ch.blocks[0].header.height == 0
    && ch.ledger.accounts == map[OWNER_ID := GenesisWallet(c.keys)] && ch.ledger.supply == 0
    && ch.ledger.owner.Some? && ch.ledger.owner.value.OwnerTx? && ch.ledger.owner.value.wallet == OWNER_ID
    && ch.ledger.owner.value.minter == c.minter.pub
  }

  predicate IsFund(r: Receipt) {
    r.tx.MintTx? && r.tx.to == OWNER_ID && r.tx.amount == 1_000_000 && r.tx.base.fee == 0
  }

  predicate IsOpen(r: Receipt) {
    r.tx.CreateAccountTx? && r.tx.creator == OWNER_ID && r.tx.account == Guest() && r.tx.base.fee == 4000
  }

  predicate BothTimely(o: Oracles, n: Node, now: Clock, expiry: u64) {
    Timely(o, n, ReplaceTx(expiry), now) && Timely(o, n, LeaveTx(expiry), now)
  }

  ghost predicate AfterFund(o: Oracles, c: Cast, n: Node, now: Clock, expiry: u64) {
    && Young(c, n.chain) && Reachable(o, n) && |n.pool| == 1 && IsFund(n.pool[0])
    && GetAccount(n.chain.ledger, OWNER_ID, n.pool) == Some(FundedWallet(c, 1_000_000))
    && Timely(o, n, OpenTx(expiry), now) && BothTimely(o, n, now, expiry)
  }

  ghost predicate AfterOpen(o: Oracles, c: Cast, n: Node, now: Clock, expiry: u64) {
    && Young(c, n.chain) && Reachable(o, n) && |n.pool| == 2 && IsFund(n.pool[0]) && IsOpen(n.pool[1])
    && BothTimely(o, n, now, expiry)
  }

  lemma GenesisIsYoung(o: Oracles, c: Cast, start: Clock)
    requires start + 1 < TWO_64
    ensures Young(c, Genesis(o, c.minter, c.keys, start).chain)
  {
    hide ReceiptRoot, GenesisScript;
  }

  lemma FundIsFund(o: Oracles, c: Cast, expiry: u64)
    ensures IsFund(Receipt(SignedBy(o, c, FundTx(expiry)), []))
  {
    hide TxIdOf;
  }

  lemma AllTimely(o: Oracles, c: Cast, g: Node, now: Clock, expiry: u64)
    requires g.txids == map[] && now < expiry <= now + TX_MAX_EXPIRY_TIME && Distinct(o, expiry)
    ensures var n := With(o, c, g, FundTx(expiry)); Timely(o, n, OpenTx(expiry), now) && BothTimely(o, n, now, expiry)
  {
    WithIs(o, c, g, FundTx(expiry));
    hide TxIdOf, With, TrueScript, Guest;
  }

  lemma FundStage(o: Oracles, c: Cast, start: Clock, now: Clock, expiry: u64)
    requires start + 1 < TWO_64 && Trusted(o, c) && now < expiry <= now + TX_MAX_EXPIRY_TIME && Distinct(o, expiry)
    ensures AfterFund(o, c, With(o, c, Genesis(o, c.minter, c.keys, start), FundTx(expiry)), now, expiry)
  {
    var g, fund := Genesis(o, c.minter, c.keys, start), FundTx(expiry);
    assert MintFor(fund, OWNER_ID, now) && fund.amount == 1_000_000;
    hide Genesis, With, Trusted, Distinct, Young, IsFund, BothTimely, Timely, GetAccount, FundTx, OpenTx, ReplaceTx,
         Reachable, FundedWallet, SignedBy, MintFor, GenesisWallet, OwnerAsBorn, PushTx;
    FirstMint(o, c, start, fund, now);
    GenesisIsReady(o, c, start);
    GenesisIsYoung(o, c, start);
    WithIs(o, c, g, fund);
    FundIsFund(o, c, expiry);
    AllTimely(o, c, g, now, expiry);
  }

  // ----- opening the account -----

  lemma OpenIsOpen(o: Oracles, c: Cast, expiry: u64)
    ensures IsOpen(Receipt(SignedBy(o, c, OpenTx(expiry)), []))
  {
    hide TxIdOf;
  }

  lemma OpenFits(o: Oracles, c: Cast, n: Node, now: Clock, expiry: u64)
    requires Trusted(o, c) && AfterFund(o, c, n, now, expiry)
    ensures n.chain.blocks != [] && TxPermitted(o, n.chain, SignedBy(o, c, OpenTx(expiry)), n.pool)
  {
    hide Trusted, TxPermitted, SignedBy, Timely, Reachable, GetAccount, GenesisScript, BothTimely;
    OpenIsPermitted(o, c, n.chain, n.pool, expiry, FundedWallet(c, 1_000_000));
  }

  lemma OpenStage(o: Oracles, c: Cast, n: Node, now: Clock, expiry: u64)
    requires Trusted(o, c) && AfterFund(o, c, n, now, expiry) && Distinct(o, expiry)
    ensures AfterOpen(o, c, With(o, c, n, OpenTx(expiry)), now, expiry)
  {
    OpenFits(o, c, n, now, expiry);
    OpenIsOpen(o, c, expiry);
    WithIs(o, c, n, OpenTx(expiry));
    assert !OpenTx(expiry).TransferTx?;
    hide Trusted, TxPermitted, SignedBy, Reachable, GetAccount, With, IsFund, IsOpen, Young, OpenTx, ReplaceTx,
         LeaveTx, FundedWallet, Timely, TxIdOf, PushTx;
    SignedIsPushed(o, c, n, OpenTx(expiry), now);
    StillTimely(o, c, n, OpenTx(expiry), ReplaceTx(expiry), now);
    StillTimely(o, c, n, OpenTx(expiry), LeaveTx(expiry), now);
  }

  // ----- the block -----

  /** What the block leaves: both accounts are indexed. */
  ghost predicate AfterBlock(o: Oracles, c: Cast, n: Node, now: Clock, expiry: u64) {
    && |n.chain.blocks| == 2 && SmallBlocks(n.chain.blocks)
    && Reachable(o, n) && n.pool == [] && BothTimely(o, n, now, expiry)
    && BothOpen(c, n.chain.ledger)
  }

  lemma MintsInOrder(c: Cast, n: Node)
    requires Young(c, n.chain) && |n.pool| == 2 && IsFund(n.pool[0]) && IsOpen(n.pool[1])
    ensures MintsOk(n.chain.ledger, n.pool) && IsMinter(n.chain.ledger, c.minter)
    ensures FeeTotal(n.pool) == Some(4000)
  {
    hide GenesisWallet, Guest;
    var first := n.pool[..1];
    assert first == [n.pool[0]] && first[..0] == [] && n.pool[..|n.pool| - 1] == first;
    assert Minted([]) == 0 && FeeTotal([]) == Some(0);
    assert Minted(first) == 1_000_000;
    assert Minted(n.pool) == 1_000_000;
    assert FeeTotal(first) == Some(0);
  }

  lemma PurgedIsTimely(o: Oracles, n: Node, n': Node, tx: TxVariant, now: Clock)
    requires n'.txids == Purge(n.txids, now) && Timely(o, n, tx, now)
    ensures Timely(o, n', tx, now)
  {
    hide TxIdOf;
  }

  lemma BlockIsProduced(o: Oracles, c: Cast, n: Node, now: Clock)
    requires Genuine(o, c.minter) && Young(c, n.chain) && Reachable(o, n)
    requires MintsOk(n.chain.ledger, n.pool) && IsMinter(n.chain.ledger, c.minter)
    ensures n.chain.blocks != [] && Produce(o, c.minter, n, true, now, now).1 == Produced
  {
    assert n.chain.blocks != [] && Head(n.chain).header.height == 0;
    hide Genuine, Young, Reachable, MintsOk, IsMinter, Produce, FeeTotal;
    ProduceOutcome(o, c.minter, n, true, now, now);
  }

  lemma BlockIsReachable(o: Oracles, kp: KeyPair, n: Node, now: Clock)
    requires n.chain.blocks != [] && Reachable(o, n)
    ensures Reachable(o, Produce(o, kp, n, true, now, now).0)
  {
    StepIsReachable(o, n, ProduceEvent(kp, true, now, now));
    hide Reachable, Produce;
  }

  /** The block holds the two receipts, and its rewards are their fees. */
  lemma BlockHolds(o: Oracles, c: Cast, n: Node, now: Clock)
    requires Young(c, n.chain) && |n.pool| == 2 && FeeTotal(n.pool) == Some(4000)
    requires Produce(o, c.minter, n, true, now, now).1 == Produced
    ensures var n' := Produce(o, c.minter, n, true, now, now).0;
            && |n'.chain.blocks| == 2 && n'.chain.blocks[0] == n.chain.blocks[0]
            && n'.chain.blocks[1].receipts == n.pool && n'.chain.blocks[1].rewards == 4000
            && ApplyBlock(n.chain.ledger, n'.chain.blocks[1]) == Some(n'.chain.ledger)
            && n'.txids == Purge(n.txids, now) && n'.pool == []
  {
    hide Produce, Child, FeeTotal, ApplyBlock, Purge;
    ProducedIs(o, c.minter, n, true, now, now);
    ChildPaysFees(o, c.minter, n, now);
  }

  lemma BothIndexed(c: Cast, n: Node, b: Block)
    requires Young(c, n.chain) && |n.pool| == 2 && IsFund(n.pool[0]) && IsOpen(n.pool[1])
    requires b.receipts == n.pool && b.rewards == 4000 && ApplyBlock(n.chain.ledger, b).Some?
    ensures BothOpen(c, ApplyBlock(n.chain.ledger, b).value)
  {
    assert b.receipts == [n.pool[0], n.pool[1]];
    hide ApplyBlock, Guest, FundedWallet, GenesisWallet;
    LedgerOfTwo(c, n.chain.ledger, n.pool[0], n.pool[1], b);
  }

  lemma TrustedMinter(o: Oracles, c: Cast)
    requires Trusted(o, c)
    ensures Genuine(o, c.minter)
  {
    hide Genuine;
  }

  lemma BlockStage(o: Oracles, c: Cast, n: Node, now: Clock, expiry: u64)
    requires Trusted(o, c) && AfterOpen(o, c, n, now, expiry)
    ensures n.chain.blocks != [] && AfterBlock(o, c, Produce(o, c.minter, n, true, now, now).0, now, expiry)
  {
    hide BothOpen, Genuine, Trusted, Reachable, Timely, Produce, FeeTotal, ReplaceTx, LeaveTx, IsMinter, MintsOk,
         ApplyBlock, Purge, FundedWallet, Guest, IsFund, IsOpen, GenesisWallet;
    TrustedMinter(o, c);
    var n' := Produce(o, c.minter, n, true, now, now).0;
    MintsInOrder(c, n);
    BlockIsProduced(o, c, n, now);
    BlockIsReachable(o, c.minter, n, now);
    BlockHolds(o, c, n, now);
    BothIndexed(c, n, n'.chain.blocks[1]);
    PurgedIsTimely(o, n, n', ReplaceTx(expiry), now);
    PurgedIsTimely(o, n, n', LeaveTx(expiry), now);
  }

  // ----- the update and the transfer -----

  lemma ReplaceStage(o: Oracles, c: Cast, n: Node, now: Clock, expiry: u64)
    requires Trusted(o, c) && AfterBlock(o, c, n, now, expiry) && Distinct(o, expiry)
    ensures Meets(o, c, With(o, c, n, ReplaceTx(expiry)), expiry)
    ensures Timely(o, With(o, c, n, ReplaceTx(expiry)), LeaveTx(expiry), now)
  {
    WalletIsOpen(c, n.chain.ledger);
    WithIs(o, c, n, ReplaceTx(expiry));
    assert !ReplaceTx(expiry).TransferTx?;
    hide Trusted, TxPermitted, SignedBy, Reachable, With, BothOpen, CanPay, ReplaceTx, LeaveTx, Timely, TxIdOf,
         PushTx, GetAccount, SmallBlocks;
    ReplaceIsPermitted(o, c, n.chain, expiry, GetAccount(n.chain.ledger, OWNER_ID, []).value);
    SignedIsPushed(o, c, n, ReplaceTx(expiry), now);
    StillTimely(o, c, n, ReplaceTx(expiry), LeaveTx(expiry), now);
  }

  /** The guest's pending script is the one meant for the owner's wallet. */
  lemma GuestTakesScript(o: Oracles, c: Cast, l: Ledger, expiry: u64)
    requires Trusted(o, c) && BothOpen(c, l)
    ensures GetAccount(l, GUEST_ID, [Receipt(SignedBy(o, c, ReplaceTx(expiry)), [])])
         == Some(Guest().(script := TrueScript()))
    ensures GUEST_ID in l.accounts && l.accounts[GUEST_ID] == Guest() && Guest().script == []
  {
    hide TrueScript, GenesisScript, SignedBy, ReplaceTx, Signed, Trusted;
    SignedReplace(o, c, expiry, FundedWallet(c, 0));
    var r := Receipt(SignedBy(o, c, ReplaceTx(expiry)), []);
    GetAccountSnoc(l, GUEST_ID, [], r);
    assert [] + [r] == [r];
  }

  lemma {:induction false} LeavePasses(ch: Chain, rs: seq<Receipt>, expiry: u64, a: Account)
    requires |ch.blocks| == 2 && SmallBlocks(ch.blocks) && |rs| == 1
    requires GetAccount(ch.ledger, GUEST_ID, rs) == Some(a) && a.balance == Guest().balance
    ensures TransferPasses(ch, LeaveTx(expiry), rs)
  {
    hide GetAccount, GetAccountInfo, SmallBlocks, CheckTransfer;
    YoungFees(ch, GUEST_ID, rs);
    TransferIff(ch, LeaveTx(expiry), rs);
  }

  /** The guest's transfer is let through by that script and refused by its own. */
  lemma {:induction false} LeaveRuns(o: Oracles, ch: Chain, rs: seq<Receipt>, expiry: u64)
    requires |ch.blocks| == 2 && SmallBlocks(ch.blocks) && |rs| == 1
    requires GetAccount(ch.ledger, GUEST_ID, rs) == Some(Guest().(script := TrueScript()))
    ensures Execute(o, ch, LeaveTx(expiry), rs) == Executed([Transfer(GUEST_ID, 5000)])
    ensures ExecuteAs(o, ch, LeaveTx(expiry), rs, Guest()).Refused?
  {
    hide GetAccount, SmallBlocks, Execute, ExecuteAs, Eval, TransferPasses, TrueScript, RunScript;
    var tx, a := LeaveTx(expiry), Guest().(script := TrueScript());
    LeavePasses(ch, rs, expiry, a);
    PayerScriptRuns(o, ch, tx, rs);
    TrueScriptLets(o, ch, tx, rs);
    EmptyScriptRefuses(o, ch, tx, rs);
  }

  lemma TrueScriptLets(o: Oracles, ch: Chain, tx: TxVariant, rs: seq<Receipt>)
    requires ch.blocks != [] && tx.TransferTx? && tx.callFn == 0 && tx.amount > 0
    ensures RunScript(o, ch, tx, rs, TrueScript()) == Executed([Transfer(tx.from, tx.amount)])
  {
    hide Eval, TrueScript;
    TrueScriptSucceeds(ScriptData(o, ch, tx, rs, TrueScript()));
  }

  lemma EmptyScriptRefuses(o: Oracles, ch: Chain, tx: TxVariant, rs: seq<Receipt>)
    requires ch.blocks != [] && tx.TransferTx? && TransferPasses(ch, tx, rs)
    ensures ExecuteAs(o, ch, tx, rs, Guest()).Refused?
  {
    hide Eval, GetAccountInfo, TransferPermitted;
    EmptyScriptFails(ScriptData(o, ch, tx, rs, []));
  }

  /** The transfer is admitted, with its amount going back to the guest, and not by the guest's script. */
  predicate LetsLeave(o: Oracles, n: Node, now: Clock, expiry: u64) {
    && n.chain.blocks != []
    && PushTx(o, n, LeaveTx(expiry), now)
       == (Added(o, n, Receipt(LeaveTx(expiry), [Transfer(GUEST_ID, 5000)])), Pushed)
    && GUEST_ID in n.chain.ledger.accounts && n.chain.ledger.accounts[GUEST_ID].script == []
    && ExecuteAs(o, n.chain, LeaveTx(expiry), n.pool, n.chain.ledger.accounts[GUEST_ID]).Refused?
  }

  lemma LeaveStage(o: Oracles, c: Cast, n: Node, now: Clock, expiry: u64)
    requires Trusted(o, c) && Meets(o, c, n, expiry) && Timely(o, n, LeaveTx(expiry), now)
    ensures LetsLeave(o, n, now, expiry)
  {
    hide Trusted, SmallBlocks, Reachable, BothOpen, GetAccount, Execute, ExecuteAs, TxIdOf, TrueScript, SignedBy,
         Guest, LeaveTx, ReplaceTx, Gate;
    GuestTakesScript(o, c, n.chain.ledger, expiry);
    LeaveRuns(o, n.chain, n.pool, expiry);
  }

  /** From genesis on, for any keys and any time: once the wallet has funds and has opened an account
      without a script, and an update of the wallet's script is pending, a transfer out of the other
      account is admitted by the script meant for the wallet. Its own, the one the index has for it
      before and after the update, refuses it. */
  lemma AnotherScriptDecides(o: Oracles, c: Cast, start: Clock, now: Clock, expiry: u64) returns (n: Node)
    requires start + 1 < TWO_64 && Trusted(o, c) && now < expiry <= now + TX_MAX_EXPIRY_TIME && Distinct(o, expiry)
    ensures Reachable(o, n) && LetsLeave(o, n, now, expiry)
    ensures n.pool == [Receipt(SignedBy(o, c, ReplaceTx(expiry)), [])]
  {
    hide Trusted, Distinct, AfterFund, AfterOpen, AfterBlock, Timely, SmallBlocks, BothOpen, Reachable, PushTx,
         Execute, ExecuteAs, Added, With, Genesis, Produce, SignedBy, ReplaceTx, LeaveTx, LetsLeave;
    FundStage(o, c, start, now, expiry);
    var n1 := With(o, c, Genesis(o, c.minter, c.keys, start), FundTx(expiry));
    OpenStage(o, c, n1, now, expiry);
    var n2 := With(o, c, n1, OpenTx(expiry));
    BlockStage(o, c, n2, now, expiry);
    var n3 := Produce(o, c.minter, n2, true, now, now).0;
    ReplaceStage(o, c, n3, now, expiry);
    n := With(o, c, n3, ReplaceTx(expiry));
    LeaveStage(o, c, n, now, expiry);
  }
}
