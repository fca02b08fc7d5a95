// Runs in which pushing a transaction stops the process: the pending balance of the owner's wallet
// out of range, and a script whose function table points past its end (blockchain/mod.rs, engine.rs).

module Stops {
  import opened Wrappers
  import opened Numbers
  import opened Assets
  import opened Crypto
  import opened Accounts
  import opened Transactions
  import opened Blocks
  import opened Ledgers
  import opened Chains
  import opened Permitted
  import opened Nodes
  import opened Runs
  import opened Scenarios
  import opened PendingUpdates

  // ----- no pending balance -----

  /** A mint that the gate and the first checks let pass, whoever signed it. */
  predicate MintMeetsWallet(o: Oracles, n: Node, tx: TxVariant, now: Clock) {
    tx.MintTx? && tx.base.fee == 0 && tx.amount >= 0 && |tx.base.sigs| <= MAX_TX_SIGNATURES && Timely(o, n, tx, now)
  }

  lemma {:induction false} WalletOverflows(l: Ledger, rs: seq<Receipt>, r: Receipt, a: Account)
    requires GetAccount(l, OWNER_ID, rs) == Some(a) && r.tx.MintTx? && r.tx.to == OWNER_ID
    requires a.balance + r.tx.amount > I64_MAX
    ensures GetAccount(l, OWNER_ID, rs + [r]) == None
  {
    GetAccountSnoc(l, OWNER_ID, rs, r);
    hide GetAccount;
  }

  lemma NoWalletPanics(o: Oracles, n: Node, tx: TxVariant, now: Clock)
    requires n.chain.blocks != [] && MintMeetsWallet(o, n, tx, now) && OwnerWallet(n.chain, n.pool).None?
    ensures PushTx(o, n, tx, now).1 == PushPanicked
  {
    PushPanics(o, n, tx, now);
    hide TxIdOf, OwnerWallet, PushTx, Gate;
  }

  lemma WalletIsGone(c: Cast, n: Node)
    requires n.chain.blocks != [] && n.chain.ledger.owner.Some? && n.chain.ledger.owner.value.OwnerTx?
    requires n.chain.ledger.owner.value.wallet == OWNER_ID && GetAccount(n.chain.ledger, OWNER_ID, n.pool).None?
    ensures OwnerWallet(n.chain, n.pool).None?
  {
    hide GetAccount;
  }

  lemma ReadyOwner(o: Oracles, c: Cast, n: Node)
    requires Ready(o, c, n)
    ensures n.chain.ledger.owner.Some? && n.chain.ledger.owner.value.OwnerTx?
    ensures n.chain.ledger.owner.value.wallet == OWNER_ID && Reachable(o, n)
  {
    hide Reachable, GetAccount, GenesisScript, IsMinter;
  }

  /** With two mints pending that are too much for the wallet's balance, a third one stops the process
      as soon as it is pushed, even without a signature. */
  lemma ThirdMintStops(o: Oracles, c: Cast, start: Clock, first: TxVariant, tx: TxVariant, third: TxVariant, now: Clock)
    requires start + 1 < TWO_64 && Trusted(o, c)
    requires MintFor(first, OWNER_ID, now) && MintFor(tx, OWNER_ID, now)
    requires first.amount + tx.amount > I64_MAX && TxIdOf(o, first) != TxIdOf(o, tx)
    requires var n := With(o, c, With(o, c, Genesis(o, c.minter, c.keys, start), first), tx);
             MintMeetsWallet(o, n, third, now)
    ensures var n := With(o, c, With(o, c, Genesis(o, c.minter, c.keys, start), first), tx);
            n.chain.blocks != [] && Reachable(o, n) && PushTx(o, n, third, now).1 == PushPanicked
  {
    MintKinds(first, now);
    MintKinds(tx, now);
    hide Genesis, With, SignedBy, Ready, PushTx, Trusted, TxIdOf, GenesisWallet, GetAccount, Timely, OwnerWallet,
         Reachable, FundedWallet, MintFor, MintMeetsWallet, MintInTime;
    var g := Genesis(o, c.minter, c.keys, start);
    FirstMint(o, c, start, first, now);
    GenesisIsReady(o, c, start);
    var n1 := With(o, c, g, first);
    SecondInTime(o, c, g, first, tx, now);
    MintIsPushed(o, c, n1, tx, now);
    ReadyOwner(o, c, n1);
    var r := Receipt(SignedBy(o, c, tx), []);
    SignedMint(o, c, tx);
    FundedBalance(c, first.amount);
    WalletOverflows(n1.chain.ledger, n1.pool, r, FundedWallet(c, first.amount));
    WithIs(o, c, n1, tx);
    WalletIsGone(c, With(o, c, n1, tx));
    NoWalletPanics(o, With(o, c, n1, tx), third, now);
  }

  lemma MintKinds(tx: TxVariant, now: Clock)
    requires MintFor(tx, OWNER_ID, now)
    ensures tx.MintTx? && tx.to == OWNER_ID
  {
  }

  lemma FundedBalance(c: Cast, amount: Asset)
    ensures FundedWallet(c, amount).balance == amount
  {
    hide GenesisScript;
  }

  lemma SecondInTime(o: Oracles, c: Cast, g: Node, first: TxVariant, tx: TxVariant, now: Clock)
    requires g.txids == map[] && g.chain.ledger.supply == 0 && g.pool == []
    requires MintFor(tx, OWNER_ID, now) && TxIdOf(o, first) != TxIdOf(o, tx)
    ensures MintInTime(o, With(o, c, g, first), tx, now)
  {
    hide TxIdOf, With, Timely;
    assert MintInTime(o, g, tx, now) by {
      FreshMint(o, g, tx, OWNER_ID, now);
    }
    StillTimely(o, c, g, first, tx, now);
    WithIs(o, c, g, first);
  }

  // ----- a function table that points past the script -----

  /** One function, at position 256 of a script of six bytes. */
  const OVERRUN: seq<byte> := [1, 0, 0, 0, 1, 0]

  lemma OverrunOverruns()
    ensures TableOverruns(OVERRUN, 0)
  {
    assert OVERRUN[2..6] == [0, 0, 1, 0];
  }

  /** The wallet's script is replaced, and then the wallet makes a transfer. */
  function InstallTx(expiry: u64): TxVariant {
    UpdateAccountTx(Tx(0, expiry, 4000, []), OWNER_ID, Some(OVERRUN), None)
  }

  function CallTx(expiry: u64): TxVariant {
    TransferTx(Tx(0, expiry, 4000, []), OWNER_ID, 0, [], 5000, [])
  }

  predicate ThreeDistinct(o: Oracles, expiry: u64) {
    var fund, install, call := TxIdOf(o, FundTx(expiry)), TxIdOf(o, InstallTx(expiry)), TxIdOf(o, CallTx(expiry));
    fund != install && fund != call && install != call
  }

  lemma SignedInstall(o: Oracles, c: Cast, expiry: u64, a: Account)
    requires Trusted(o, c) && a.permissions == Permissions(2, c.keys)
    ensures var tx := SignedBy(o, c, InstallTx(expiry));
            && tx.UpdateAccountTx? && tx.accountId == OWNER_ID
            && tx.newScript == Some(OVERRUN) && tx.newPermissions.None?
            && tx.base.fee == 4000 && |tx.base.sigs| == 2 && Signed(o, a, tx)
  {
    SignedIsApproved(o, c, InstallTx(expiry));
    hide TxIdOf, Verdict;
  }

  lemma {:induction false} InstallIsPermitted(o: Oracles, c: Cast, ch: Chain, rs: seq<Receipt>, expiry: u64, a: Account)
    requires Trusted(o, c) && |ch.blocks| == 1 && |rs| == 1 && SmallBlocks(ch.blocks)
    requires GetAccount(ch.ledger, OWNER_ID, rs) == Some(a) && CanPay(c, a)
    ensures TxPermitted(o, ch, SignedBy(o, c, InstallTx(expiry)), rs)
  {
    hide SignedBy, InstallTx, Signed, GetAccount, GetAccountInfo, Trusted, CanPay, SmallBlocks;
    PayerCanPay(c, a);
    YoungFees(ch, OWNER_ID, rs);
    SignedInstall(o, c, expiry, a);
  }

  /** The wallet with the script pending. */
  lemma {:induction false} InstallTakes(o: Oracles, c: Cast, l: Ledger, rs: seq<Receipt>, r: Receipt, a: Account)
    requires GetAccount(l, OWNER_ID, rs) == Some(a) && a.balance >= 4000
    requires r.tx.UpdateAccountTx? && r.tx.accountId == OWNER_ID && r.tx.base.fee == 4000
    requires r.tx.newScript == Some(OVERRUN) && r.tx.newPermissions.None?
    ensures GetAccount(l, OWNER_ID, rs + [r]) == Some(a.(balance := a.balance - 4000, script := OVERRUN))
  {
    GetAccountSnoc(l, OWNER_ID, rs, r);
    hide GetAccount;
  }

  lemma {:induction false} CallPanics(o: Oracles, n: Node, expiry: u64, now: Clock, a: Account)
    requires |n.chain.blocks| == 1 && SmallBlocks(n.chain.blocks) && |n.pool| == 2
    requires GetAccount(n.chain.ledger, OWNER_ID, n.pool) == Some(a) && a.balance >= 9000 && a.script == OVERRUN
    requires Timely(o, n, CallTx(expiry), now)
    ensures PushTx(o, n, CallTx(expiry), now).1 == PushPanicked
  {
    hide GetAccount, GetAccountInfo, SmallBlocks, TableOverruns, TxIdOf, Gate, PushTx;
    YoungFees(n.chain, OWNER_ID, n.pool);
    OverrunOverruns();
    PushPanics(o, n, CallTx(expiry), now);
  }

  /** From genesis on: the wallet is given funds, its keys replace its script by six bytes whose table
      points past them, and the next transfer out of it stops the process. */
  lemma OverrunStops(o: Oracles, c: Cast, start: Clock, now: Clock, expiry: u64) returns (n: Node)
    requires start + 1 < TWO_64 && Trusted(o, c) && now < expiry <= now + TX_MAX_EXPIRY_TIME && ThreeDistinct(o, expiry)
    ensures n.chain.blocks != [] && Reachable(o, n)
    ensures PushTx(o, n, CallTx(expiry), now).1 == PushPanicked
  {
    hide Genesis, With, SignedBy, Ready, PushTx, Trusted, TxIdOf, GetAccount, Timely, Reachable, FundedWallet,
         MintFor, MintInTime, FundTx, InstallTx, CallTx, Young, SmallBlocks, CanPay, TxPermitted;
    var g, fund, install := Genesis(o, c.minter, c.keys, start), FundTx(expiry), InstallTx(expiry);
    Kinds(now, expiry);
    FirstMint(o, c, start, fund, now);
    GenesisIsReady(o, c, start);
    GenesisIsYoung(o, c, start);
    YoungIsSmall(c, g.chain);
    BothInTime(o, c, g, now, expiry);
    var n1, wallet := With(o, c, g, fund), FundedWallet(c, 1_000_000);
    WithIs(o, c, g, fund);
    FundedPays(c);
    InstallIsPermitted(o, c, n1.chain, n1.pool, expiry, wallet);
    ReadyOwner(o, c, n1);
    SignedIsPushed(o, c, n1, install, now);
    n := With(o, c, n1, install);
    var r := Receipt(SignedBy(o, c, install), []);
    SignedInstall(o, c, expiry, wallet);
    InstallTakes(o, c, n1.chain.ledger, n1.pool, r, wallet);
    WithIs(o, c, n1, install);
    CallPanics(o, n, expiry, now, wallet.(balance := wallet.balance - 4000, script := OVERRUN));
  }

  lemma Kinds(now: Clock, expiry: u64)
    requires now < expiry <= now + TX_MAX_EXPIRY_TIME
    ensures MintFor(FundTx(expiry), OWNER_ID, now) && FundTx(expiry).MintTx? && FundTx(expiry).amount == 1_000_000
    ensures !InstallTx(expiry).TransferTx?
  {
  }

  lemma FundedPays(c: Cast)
    ensures var a := FundedWallet(c, 1_000_000);
            CanPay(c, a) && a.balance == 1_000_000 && a.permissions == Permissions(2, c.keys)
  {
    hide GenesisScript;
  }

  lemma YoungIsSmall(c: Cast, ch: Chain)
    requires Young(c, ch)
    ensures |ch.blocks| == 1 && SmallBlocks(ch.blocks)
  {
    hide GenesisWallet;
  }

  lemma BothInTime(o: Oracles, c: Cast, g: Node, now: Clock, expiry: u64)
    requires g.txids == map[] && now < expiry <= now + TX_MAX_EXPIRY_TIME && ThreeDistinct(o, expiry)
    ensures var n := With(o, c, g, FundTx(expiry));
            && Timely(o, n, InstallTx(expiry), now)
            && Timely(o, With(o, c, n, InstallTx(expiry)), CallTx(expiry), now)
  {
    hide TxIdOf, With;
    var n := With(o, c, g, FundTx(expiry));
    WithIs(o, c, g, FundTx(expiry));
    WithIs(o, c, n, InstallTx(expiry));
  }
}
