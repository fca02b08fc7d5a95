// Runs from genesis in which mints stop the process: what execute_tx does not look at, and what
// index_receipt then unwraps (blockchain/mod.rs).

module Scenarios {
  import opened Wrappers
  import opened Numbers
  import opened Counting
  import opened Assets
  import opened Crypto
  import opened Accounts
  import opened Transactions
  import opened Blocks
  import opened Engine
  import opened Ledgers
  import opened Conservation
  import opened Chains
  import opened Permitted
  import opened Nodes
  import opened Runs
  import opened Identifiers
  import opened Consent

  /** Who is there from the beginning: the minter, two keys of the owner's wallet, and all its keys. */
  datatype Cast = Cast(minter: KeyPair, first: KeyPair, second: KeyPair, keys: seq<PublicKey>)

  ghost predicate Trusted(o: Oracles, c: Cast) {
    && Genuine(o, c.minter) && Genuine(o, c.first) && Genuine(o, c.second)
    && c.first.pub in c.keys && c.second.pub in c.keys
  }

  /** The transaction with the signatures of both wallet keys. */
  function SignedBy(o: Oracles, c: Cast, tx: TxVariant): TxVariant {
    WithSigs(tx, [SignWith(o, c.first, TxIdOf(o, tx)), SignWith(o, c.second, TxIdOf(o, tx))])
  }

  lemma SignedIsApproved(o: Oracles, c: Cast, tx: TxVariant)
    requires Trusted(o, c)
    ensures TxIdOf(o, SignedBy(o, c, tx)) == TxIdOf(o, tx)
    ensures SignedBy(o, c, tx).base == tx.base.(sigs := SignedBy(o, c, tx).base.sigs)
    ensures |SignedBy(o, c, tx).base.sigs| == 2
    ensures Verdict(o, Permissions(2, c.keys), TxIdOf(o, tx), SignedBy(o, c, tx).base.sigs) == Ok(())
  {
    var id := TxIdOf(o, tx);
    var sigs := SignedBy(o, c, tx).base.sigs;
    SigsOutsideId(o, tx, sigs);
    hide TxIdOf;
    var p := Permissions(2, c.keys);
    assert sigs == [SignWith(o, c.first, id), SignWith(o, c.second, id)];
    assert sigs[..1] == [sigs[0]] && sigs[..1][..0] == [];
    var listed := (pair: SigPair) => Listed(p, pair);
    assert Count([], listed) == 0;
    assert Count(sigs[..1], listed) == 1;
    assert CountListed(p, sigs) == 2;
    assert forall pair | pair in sigs :: !BadPair(o, p, id, pair);
  }

  lemma SignedMint(o: Oracles, c: Cast, tx: TxVariant)
    requires tx.MintTx?
    ensures var r := Receipt(SignedBy(o, c, tx), []); r.tx.MintTx? && r.tx.to == tx.to && r.tx.amount == tx.amount
  {
    hide TxIdOf;
  }

  // ----- the owner's script -----

  /** The wallet's own script lets a mint through that the wallet's permissions approve. */
  lemma OwnerScriptApproves(d: EngineData)
    requires d.script == GenesisScript() && d.tx.MintTx?
    requires d.lookup(OWNER_ID).Some? && PermsOf(d, d.lookup(OWNER_ID).value).Ok?
    ensures Eval(d).Success?
  {
    hide GenesisScript, CallFn, Verdict, TxIdOf, Approves;
    var wallet := d.lookup(OWNER_ID).value;
    VerdictIff(d.o, wallet.permissions, TxIdOf(d.o, d.tx), d.tx.base.sigs);
    var v := PermsOf(d, wallet);
    assert v.value == ();
    FirstFunction(d);
  }

  /** The owner, its wallet's script and its permissions are those of genesis. */
  predicate OwnerAsBorn(c: Cast, l: Ledger, rs: seq<Receipt>) {
    && l.owner.Some? && l.owner.value.OwnerTx? && l.owner.value.wallet == OWNER_ID
    && var w := GetAccount(l, OWNER_ID, rs);
       w.Some? && w.value.script == GenesisScript() && w.value.permissions == Permissions(2, c.keys)
  }

  lemma MintPermitted(o: Oracles, c: Cast, ch: Chain, rs: seq<Receipt>, tx: TxVariant)
    requires ch.blocks != [] && Trusted(o, c) && OwnerAsBorn(c, ch.ledger, rs)
    requires tx.MintTx? && tx.base.fee == 0 && 0 <= tx.amount <= I64_MAX - ch.ledger.supply
    ensures TxPermitted(o, ch, SignedBy(o, c, tx), rs)
  {
    hide GetAccount, GenesisScript, Verdict, TxIdOf, SignedBy, Trusted, Eval;
    var signed := SignedBy(o, c, tx);
    SignedIsApproved(o, c, tx);
    SignedMint(o, c, tx);
    var d := ScriptData(o, ch, signed, rs, GenesisScript());
    assert d.lookup(OWNER_ID) == GetAccount(ch.ledger, OWNER_ID, rs);
    OwnerScriptApproves(d);
  }

  // ----- pushing -----

  /** Nothing is stored under the identifier and the expiry lies ahead, but not too far. */
  predicate Timely(o: Oracles, n: Node, tx: TxVariant, now: Clock) {
    Gate(n.txids, TxIdOf(o, tx), tx.base.expiry, now).Ok?
  }

  /** What is permitted is admitted; only transfers have a log. */
  lemma PermittedIsPushed(o: Oracles, n: Node, tx: TxVariant, now: Clock)
    requires n.chain.blocks != [] && Timely(o, n, tx, now) && TxPermitted(o, n.chain, tx, n.pool) && !tx.TransferTx?
    ensures PushTx(o, n, tx, now) == (Added(o, n, Receipt(tx, [])), Pushed)
  {
    ExecutesIff(o, n.chain, tx, n.pool);
    NoLog(o, n.chain, tx, n.pool);
    hide Execute, TxPermitted, TxIdOf, Gate;
  }

  lemma NoLog(o: Oracles, ch: Chain, tx: TxVariant, rs: seq<Receipt>)
    requires ch.blocks != [] && Execute(o, ch, tx, rs).Executed? && !tx.TransferTx?
    ensures Execute(o, ch, tx, rs).log == []
  {
    hide CheckCreate, CheckUpdate, Eval, GetAccount, OwnerWallet;
  }

  lemma StepIsReachable(o: Oracles, n: Node, e: Event)
    requires n.chain.blocks != [] && Reachable(o, n)
    ensures Reachable(o, Nodes.Step(o, n, e))
  {
    hide Nodes.Step, GenesisBlock, GenesisOwner, GenesisWallet;
    var owner: KeyPair, keys: seq<PublicKey>, start: Clock, events: seq<Event> :|
      start + 1 < TWO_64 && n == Run(o, Genesis(o, owner, keys, start), events);
    assert (events + [e])[..|events + [e]| - 1] == events;
    assert Nodes.Step(o, n, e) == Run(o, Genesis(o, owner, keys, start), events + [e]);
  }

  lemma PushedIsReachable(o: Oracles, n: Node, tx: TxVariant, now: Clock)
    requires n.chain.blocks != [] && Reachable(o, n)
    ensures Reachable(o, PushTx(o, n, tx, now).0)
  {
    StepIsReachable(o, n, PushEvent(tx, now));
    hide Reachable, PushTx;
  }

  lemma SignedIsTimely(o: Oracles, c: Cast, n: Node, tx: TxVariant, now: Clock)
    requires Timely(o, n, tx, now)
    ensures Timely(o, n, SignedBy(o, c, tx), now)
    ensures SignedBy(o, c, tx).TransferTx? == tx.TransferTx?
  {
    SigsOutsideId(o, tx, [SignWith(o, c.first, TxIdOf(o, tx)), SignWith(o, c.second, TxIdOf(o, tx))]);
    hide TxIdOf;
  }

  /** The node with the signed transaction in its pool. */
  function With(o: Oracles, c: Cast, n: Node, tx: TxVariant): Node {
    Added(o, n, Receipt(SignedBy(o, c, tx), []))
  }

  /** A permitted transaction other than a transfer is admitted with both signatures. */
  lemma SignedIsPushed(o: Oracles, c: Cast, n: Node, tx: TxVariant, now: Clock)
    requires n.chain.blocks != [] && Reachable(o, n) && Timely(o, n, tx, now) && !tx.TransferTx?
    requires TxPermitted(o, n.chain, SignedBy(o, c, tx), n.pool)
    ensures PushTx(o, n, SignedBy(o, c, tx), now) == (With(o, c, n, tx), Pushed)
    ensures Reachable(o, With(o, c, n, tx))
  {
    SignedIsTimely(o, c, n, tx, now);
    hide Reachable, Timely, TxPermitted, SignedBy, PushTx, Added;
    PermittedIsPushed(o, n, SignedBy(o, c, tx), now);
    PushedIsReachable(o, n, SignedBy(o, c, tx), now);
  }

  lemma WithIs(o: Oracles, c: Cast, n: Node, tx: TxVariant)
    ensures var n' := With(o, c, n, tx);
            && n'.chain == n.chain && n'.pool == n.pool + [Receipt(SignedBy(o, c, tx), [])]
            && n'.txids == n.txids[TxIdOf(o, tx) := tx.base.expiry]
  {
    SigsOutsideId(o, tx, [SignWith(o, c.first, TxIdOf(o, tx)), SignWith(o, c.second, TxIdOf(o, tx))]);
    hide TxIdOf;
  }

  lemma StillTimely(o: Oracles, c: Cast, n: Node, a: TxVariant, b: TxVariant, now: Clock)
    requires Timely(o, n, b, now) && TxIdOf(o, a) != TxIdOf(o, b)
    ensures Timely(o, With(o, c, n, a), b, now)
  {
    WithIs(o, c, n, a);
    hide TxIdOf, With;
  }

  // ----- mints that stop the process -----

  /** A state that genesis leads to, with the owner and its wallet as they were born. */
  ghost predicate Ready(o: Oracles, c: Cast, n: Node) {
    && n.chain.blocks != [] && Reachable(o, n) && Head(n.chain).header.height + 1 < TWO_64
    && OwnerAsBorn(c, n.chain.ledger, n.pool) && IsMinter(n.chain.ledger, c.minter)
  }

  lemma GenesisIsReady(o: Oracles, c: Cast, start: Clock)
    requires start + 1 < TWO_64
    ensures var n := Genesis(o, c.minter, c.keys, start);
            && Ready(o, c, n) && n.txids == map[]
            && n.chain.ledger.accounts == map[OWNER_ID := GenesisWallet(c.keys)] && n.chain.ledger.supply == 0
    ensures Genesis(o, c.minter, c.keys, start).pool == []
    ensures Genesis(o, c.minter, c.keys, start).chain.blocks != []
  {
    hide GenesisScript, ReceiptRoot;
    assert Run(o, Genesis(o, c.minter, c.keys, start), []) == Genesis(o, c.minter, c.keys, start);
  }

  /** A mint with room in the supply, at a time at which it is let in. */
  predicate MintInTime(o: Oracles, n: Node, tx: TxVariant, now: Clock) {
    && tx.MintTx? && tx.base.fee == 0 && 0 <= tx.amount <= I64_MAX - n.chain.ledger.supply
    && Timely(o, n, tx, now)
  }

  lemma MintIsPushed(o: Oracles, c: Cast, n: Node, tx: TxVariant, now: Clock)
    requires Trusted(o, c) && Ready(o, c, n) && MintInTime(o, n, tx, now)
    ensures n.chain.blocks != [] && PushTx(o, n, SignedBy(o, c, tx), now) == (With(o, c, n, tx), Pushed)
    ensures Reachable(o, With(o, c, n, tx))
  {
    hide Trusted, Reachable, OwnerAsBorn, IsMinter, Timely, PushTx, With, SignedBy, TxPermitted;
    MintPermitted(o, c, n.chain, n.pool, tx);
    SignedIsPushed(o, c, n, tx, now);
  }

  /** The mint goes to an account that is neither indexed nor about to be created, or takes the
      pending mints past what the supply can hold. */
  predicate OutOfOrder(n: Node, tx: TxVariant)
    requires tx.MintTx?
  {
    || (tx.to !in n.chain.ledger.accounts && !Created(n.pool, tx.to))
    || n.chain.ledger.supply + Minted(n.pool) + tx.amount > I64_MAX
  }

  /** In any such state, a mint that is out of order, signed by two of the wallet's keys, is admitted,
      and the next block stops the process. */
  lemma MintStopsProcess(o: Oracles, c: Cast, n: Node, tx: TxVariant, now: Clock, later: Clock)
    requires Trusted(o, c) && Ready(o, c, n) && MintInTime(o, n, tx, now) && OutOfOrder(n, tx)
    ensures n.chain.blocks != [] && PushTx(o, n, SignedBy(o, c, tx), now) == (With(o, c, n, tx), Pushed)
    ensures With(o, c, n, tx).chain.blocks != []
    ensures Produce(o, c.minter, With(o, c, n, tx), true, later, later).1 == ProducePanicked
  {
    MintIsPushed(o, c, n, tx, now);
    WithIs(o, c, n, tx);
    assert Genuine(o, c.minter);
    SignedMint(o, c, tx);
    hide With, SignedBy, Timely, TxIdOf, OwnerAsBorn, Reachable, PushTx, Produce, Trusted, Genuine, OutOfOrder,
         MintsOk, IsMinter;
    NotInOrder(n, tx, Receipt(SignedBy(o, c, tx), []));
    ProcessStops(o, c, With(o, c, n, tx), later);
  }

  lemma NotInOrder(n: Node, tx: TxVariant, r: Receipt)
    requires tx.MintTx? && OutOfOrder(n, tx) && r.tx.MintTx? && r.tx.to == tx.to && r.tx.amount == tx.amount
    ensures !MintsOk(n.chain.ledger, n.pool + [r])
  {
    var pool := n.pool + [r];
    assert pool[..|n.pool|] == n.pool;
    if MintsOk(n.chain.ledger, pool) {
      assert MintTargetKnown(n.chain.ledger, pool[..|n.pool|], pool[|n.pool|]);
      SumsSnoc(n.pool, r);
    }
  }

  lemma ProcessStops(o: Oracles, c: Cast, n: Node, later: Clock)
    requires Reachable(o, n) && Genuine(o, c.minter) && n.chain.blocks != []
    requires Head(n.chain).header.height + 1 < TWO_64
    requires IsMinter(n.chain.ledger, c.minter) && !MintsOk(n.chain.ledger, n.pool)
    ensures Produce(o, c.minter, n, true, later, later).1 == ProducePanicked
  {
    ProduceOutcome(o, c.minter, n, true, later, later);
    hide Produce, Reachable, MintsOk, IsMinter, FeeTotal;
  }

  /** A mint that can be made any time within its expiry. */
  predicate MintFor(tx: TxVariant, to: AccountId, now: Clock) {
    tx.MintTx? && tx.base.fee == 0 && tx.amount >= 0 && tx.to == to && now < tx.base.expiry <= now + TX_MAX_EXPIRY_TIME
  }

  lemma FreshMint(o: Oracles, g: Node, tx: TxVariant, to: AccountId, now: Clock)
    requires g.txids == map[] && g.chain.ledger.supply == 0 && g.pool == [] && MintFor(tx, to, now)
    requires to != OWNER_ID ==> to !in g.chain.ledger.accounts
    ensures MintInTime(o, g, tx, now)
    ensures to != OWNER_ID ==> OutOfOrder(g, tx)
  {
    hide TxIdOf;
  }

  /** The state after genesis is one, for mints to any account but the owner's wallet. */
  lemma MintToNowhere(o: Oracles, c: Cast, start: Clock, tx: TxVariant, to: AccountId, now: Clock, later: Clock)
    requires start + 1 < TWO_64 && Trusted(o, c) && MintFor(tx, to, now) && to != OWNER_ID
    ensures var g := Genesis(o, c.minter, c.keys, start);
            var n := With(o, c, g, tx);
            && g.chain.blocks != [] && n.chain.blocks != []
            && PushTx(o, g, SignedBy(o, c, tx), now) == (n, Pushed)
            && Produce(o, c.minter, n, true, later, later).1 == ProducePanicked
  {
    hide *;
    var g := Genesis(o, c.minter, c.keys, start);
    GenesisIsReady(o, c, start);
    FreshMint(o, g, tx, to, now);
    MintStopsProcess(o, c, g, tx, now, later);
  }

  /** And so is the one with a first mint to that wallet pending, for a second that is too much with it. */
  lemma MintTooMuch(o: Oracles, c: Cast, start: Clock, first: TxVariant, tx: TxVariant, now: Clock, later: Clock)
    requires start + 1 < TWO_64 && Trusted(o, c)
    requires MintFor(first, OWNER_ID, now) && MintFor(tx, OWNER_ID, now)
    requires first.amount + tx.amount > I64_MAX && TxIdOf(o, first) != TxIdOf(o, tx)
    ensures var g := Genesis(o, c.minter, c.keys, start);
            var n1 := With(o, c, g, first);
            var n2 := With(o, c, n1, tx);
            && g.chain.blocks != [] && n1.chain.blocks != [] && n2.chain.blocks != []
            && PushTx(o, g, SignedBy(o, c, first), now) == (n1, Pushed)
            && PushTx(o, n1, SignedBy(o, c, tx), now) == (n2, Pushed)
            && Produce(o, c.minter, n2, true, later, later).1 == ProducePanicked
  {
    var g := Genesis(o, c.minter, c.keys, start);
    FirstMint(o, c, start, first, now);
    GenesisIsReady(o, c, start);
    hide Genesis, With, SignedBy, Ready, PushTx, Produce, Trusted, TxIdOf, GenesisWallet, GetAccount, Timely;
    assert MintInTime(o, g, tx, now) by {
      FreshMint(o, g, tx, OWNER_ID, now);
    }
    StillTimely(o, c, g, first, tx, now);
    MintStopsProcess(o, c, With(o, c, g, first), tx, now, later);
  }

  /** What the owner's wallet is when it has been given the funds. */
  function FundedWallet(c: Cast, amount: Asset): Account {
    Account(OWNER_ID, amount, GenesisScript(), Permissions(2, c.keys), false)
  }

  /** After genesis the wallet can be given funds. */
  lemma FirstMint(o: Oracles, c: Cast, start: Clock, tx: TxVariant, now: Clock)
    requires start + 1 < TWO_64 && Trusted(o, c) && MintFor(tx, OWNER_ID, now)
    ensures var g := Genesis(o, c.minter, c.keys, start);
            var n := With(o, c, g, tx);
            && g.chain.blocks != [] && PushTx(o, g, SignedBy(o, c, tx), now) == (n, Pushed)
            && Ready(o, c, n) && n.chain == g.chain && Minted(n.pool) == tx.amount
            && GetAccount(n.chain.ledger, OWNER_ID, n.pool) == Some(FundedWallet(c, tx.amount))
  {
    assert tx.MintTx? && tx.to == OWNER_ID;
    hide *;
    var g := Genesis(o, c.minter, c.keys, start);
    GenesisIsReady(o, c, start);
    FreshMint(o, g, tx, OWNER_ID, now);
    MintIsPushed(o, c, g, tx, now);
    WithIs(o, c, g, tx);
    var r := Receipt(SignedBy(o, c, tx), []);
    SignedMint(o, c, tx);
    WalletTakesMint(c, g.chain.ledger, r);
    assert [] + [r] == [r];
    StaysReady(o, c, g, With(o, c, g, tx), tx.amount);
  }

  lemma StaysReady(o: Oracles, c: Cast, n: Node, n': Node, amount: Asset)
    requires Ready(o, c, n) && n'.chain == n.chain && Reachable(o, n')
    requires GetAccount(n'.chain.ledger, OWNER_ID, n'.pool) == Some(FundedWallet(c, amount))
    ensures Ready(o, c, n')
  {
    hide Reachable, GetAccount, GenesisScript;
  }

  lemma WalletTakesMint(c: Cast, l: Ledger, r: Receipt)
    requires r.tx.MintTx? && r.tx.to == OWNER_ID && r.tx.amount >= 0
    requires l.accounts == map[OWNER_ID := GenesisWallet(c.keys)]
    ensures GetAccount(l, OWNER_ID, [r])
         == Some(FundedWallet(c, r.tx.amount))
    ensures Minted([r]) == r.tx.amount
  {
    hide GenesisScript;
    GetAccountSnoc(l, OWNER_ID, [], r);
    SumsSnoc([], r);
    assert [] + [r] == [r];
  }
}
