// How far the clock must fall back for a run to admit one transaction twice: the purge in index.rs
// against the gate in receipt.rs, from genesis on.

module Readmission {
  import opened Wrappers
  import opened Numbers
  import opened Crypto
  import opened Transactions
  import opened Blocks
  import opened Ledgers
  import opened Conservation
  import opened Chains
  import opened Nodes
  import opened Runs
  import opened Identifiers
  import opened Scenarios
  import opened PendingUpdates

  // ----- a block with one mint -----

  /** Indexing funds for the wallet and nothing else. */
  lemma {:induction false} LedgerOfOne(c: Cast, l: Ledger, fund: Receipt, b: Block)
    requires l.accounts == map[OWNER_ID := GenesisWallet(c.keys)] && l.supply == 0 && IsFund(fund)
    requires l.owner.Some? && l.owner.value.OwnerTx? && l.owner.value.wallet == OWNER_ID
    requires b.receipts == [fund] && b.rewards == 0
    ensures ApplyBlock(l, b) == Some(Ledger(map[OWNER_ID := FundedWallet(c, 1_000_000)], l.owner, 1_000_000))
  {
    hide GenesisScript;
    var l1 := Ledger(map[OWNER_ID := FundedWallet(c, 1_000_000)], l.owner, 1_000_000);
    assert b.receipts[..0] == [] && ApplyReceipts(l, []) == Some(l);
    assert ApplyReceipt(l, fund) == Some(l1) by {
      assert ApplyReceipt(l, fund).value.accounts == l1.accounts;
    }
    assert ApplyReceipts(l, b.receipts) == Some(l1);
    assert AddBal(l1, OWNER_ID, 0) == Some(l1) by {
      assert AddBal(l1, OWNER_ID, 0).value.accounts == l1.accounts;
    }
  }

  lemma {:induction false} OneInOrder(c: Cast, n: Node)
    requires Young(c, n.chain) && |n.pool| == 1 && IsFund(n.pool[0])
    ensures MintsOk(n.chain.ledger, n.pool) && IsMinter(n.chain.ledger, c.minter) && FeeTotal(n.pool) == Some(0)
  {
    hide GenesisWallet;
    assert n.pool[..0] == [] && n.pool[..|n.pool| - 1] == [];
    assert Minted([]) == 0 && FeeTotal([]) == Some(0);
    assert Minted(n.pool) == 1_000_000;
  }

  /** What the block leaves: the wallet has the funds, and the identifiers have been purged. */
  lemma {:induction false} BlockOfOne(o: Oracles, c: Cast, n: Node, now: Clock)
    requires Trusted(o, c) && Young(c, n.chain) && Reachable(o, n) && |n.pool| == 1 && IsFund(n.pool[0])
    ensures n.chain.blocks != []
    ensures var n' := Produce(o, c.minter, n, true, now, now).0;
            && Reachable(o, n') && |n'.chain.blocks| == 2 && Head(n'.chain).header.height == 1
            && n'.chain.ledger == Ledger(map[OWNER_ID := FundedWallet(c, 1_000_000)], n.chain.ledger.owner, 1_000_000)
            && n'.txids == Purge(n.txids, now) && n'.pool == []
  {
    hide Trusted, Genuine, Reachable, Produce, FeeTotal, ApplyBlock, Purge, MintsOk, IsMinter, Child, IsFund,
         GenesisWallet, FundedWallet;
    TrustedMinter(o, c);
    OneInOrder(c, n);
    BlockIsProduced(o, c, n, now);
    BlockIsReachable(o, c.minter, n, now);
    ProducedIs(o, c.minter, n, true, now, now);
    ChildPaysFees(o, c.minter, n, now);
    ChildIsNext(o, c.minter, n, now);
    assert n.pool == [n.pool[0]];
    LedgerOfOne(c, n.chain.ledger, n.pool[0], Child(o, c.minter, n, now).value);
  }

  lemma ChildIsNext(o: Oracles, kp: KeyPair, n: Node, now: Clock)
    requires n.chain.blocks != [] && Child(o, kp, n, now).Some?
    ensures Child(o, kp, n, now).value.header.height == Head(n.chain).header.height + 1
  {
    hide FeeTotal, ReceiptRoot, HeaderHash;
  }

  // ----- the run -----

  /** A mint pushed, a block made once it is long over, and the mint pushed again on a clock that has
      fallen back. */
  function FundTwice(o: Oracles, c: Cast, again: Clock, purge: Clock): seq<Event>
    requires again + 1 < TWO_64
  {
    var push := PushEvent(SignedBy(o, c, FundTx(again + 1)), again);
    [push, ProduceEvent(c.minter, true, purge, purge), push]
  }

  lemma FallOfRun(o: Oracles, c: Cast, again: Clock, purge: Clock, slack: nat)
    requires again + 1 < TWO_64 && again + 32 <= purge <= again + slack
    ensures FallsAtMost(FundTwice(o, c, again, purge), slack)
  {
    hide SignedBy, FundTx;
  }

  lemma FundIsMint(now: Clock)
    requires now + 1 < TWO_64
    ensures MintFor(FundTx(now + 1), OWNER_ID, now) && FundTx(now + 1).base.expiry == now + 1
  {
  }

  /** The first push. */
  lemma FirstPush(o: Oracles, c: Cast, start: Clock, again: Clock)
    requires start + 1 < TWO_64 && again + 1 < TWO_64 && Trusted(o, c)
    ensures var g, fund := Genesis(o, c.minter, c.keys, start), FundTx(again + 1);
            var n := With(o, c, g, fund);
            && g.chain.blocks != [] && PushTx(o, g, SignedBy(o, c, fund), again) == (n, Pushed)
            && Young(c, n.chain) && Reachable(o, n) && |n.pool| == 1 && IsFund(n.pool[0])
            && n.txids == map[TxIdOf(o, fund) := again + 1]
  {
    hide Genesis, With, Trusted, Young, IsFund, GetAccount, FundTx, Reachable, FundedWallet, SignedBy, MintFor,
         GenesisWallet, OwnerAsBorn, PushTx, TxIdOf, IsMinter, Minted;
    var g, fund := Genesis(o, c.minter, c.keys, start), FundTx(again + 1);
    FundIsMint(again);
    FirstMint(o, c, start, fund, again);
    GenesisIsReady(o, c, start);
    GenesisIsYoung(o, c, start);
    WithIs(o, c, g, fund);
    FundIsFund(o, c, again + 1);
    assert map[][TxIdOf(o, fund) := again + 1] == map[TxIdOf(o, fund) := again + 1];
  }

  lemma FundedIsReady(o: Oracles, c: Cast, n: Node, owner: Option<TxVariant>)
    requires n.chain.blocks != [] && Reachable(o, n) && Head(n.chain).header.height == 1 && n.pool == []
    requires owner.Some? && owner.value.OwnerTx? && owner.value.wallet == OWNER_ID && owner.value.minter == c.minter.pub
    requires n.chain.ledger == Ledger(map[OWNER_ID := FundedWallet(c, 1_000_000)], owner, 1_000_000)
    ensures Ready(o, c, n)
  {
    hide Reachable, GenesisScript;
  }

  lemma ForgottenIsTimely(o: Oracles, c: Cast, n: Node, again: Clock, purge: Clock)
    requires again + 1 < TWO_64 && again + 32 <= purge && n.chain.ledger.supply == 1_000_000
    requires n.txids == Purge(map[TxIdOf(o, FundTx(again + 1)) := again + 1], purge)
    ensures MintInTime(o, n, FundTx(again + 1), again)
  {
    hide TxIdOf;
  }

  /** The second push, behind the block. */
  lemma SecondPush(o: Oracles, c: Cast, n: Node, again: Clock, purge: Clock)
    requires again + 1 < TWO_64 && again + 32 <= purge && Trusted(o, c)
    requires Young(c, n.chain) && Reachable(o, n) && |n.pool| == 1 && IsFund(n.pool[0])
    requires n.txids == map[TxIdOf(o, FundTx(again + 1)) := again + 1]
    ensures n.chain.blocks != []
    ensures var n' := Produce(o, c.minter, n, true, purge, purge).0;
            n'.chain.blocks != [] && PushTx(o, n', SignedBy(o, c, FundTx(again + 1)), again).1 == Pushed
  {
    assert n.chain.ledger.owner.Some? && n.chain.ledger.owner.value.OwnerTx?;
    hide Trusted, Reachable, Produce, Purge, IsFund, FundTx, TxIdOf, SignedBy, MintInTime, FundedWallet,
         GenesisWallet, PushTx, Ready, With;
    BlockOfOne(o, c, n, purge);
    var n' := Produce(o, c.minter, n, true, purge, purge).0;
    FundedIsReady(o, c, n', n.chain.ledger.owner);
    ForgottenIsTimely(o, c, n', again, purge);
    MintIsPushed(o, c, n', FundTx(again + 1), again);
  }

  lemma RunOfTwo(o: Oracles, n: Node, a: Event, b: Event, e: Event)
    requires n.chain.blocks != []
    ensures Run(o, n, [a, b, e][..0]) == n
    ensures Run(o, n, [a, b, e][..2]) == Nodes.Step(o, Nodes.Step(o, n, a), b)
  {
    hide Nodes.Step;
    assert [a, b, e][..0] == [] && [a, b, e][..2] == [a, b] && [a, b][..1] == [a] && [a][..0] == [];
    assert Run(o, n, []) == n;
    assert Run(o, n, [a]) == Nodes.Step(o, n, a);
  }

  /** Both pushes are let in. */
  lemma AdmitsTwice(o: Oracles, c: Cast, start: Clock, again: Clock, purge: Clock)
    requires start + 1 < TWO_64 && again + 1 < TWO_64 && again + 32 <= purge && Trusted(o, c)
    ensures var g, events := Genesis(o, c.minter, c.keys, start), FundTwice(o, c, again, purge);
            g.chain.blocks != [] && Admitted(o, g, events, 0) && Admitted(o, g, events, 2)
  {
    hide Genesis, Trusted, Young, Reachable, IsFund, TxIdOf, SignedBy, FundTx, With, PushTx, Produce;
    var g, events := Genesis(o, c.minter, c.keys, start), FundTwice(o, c, again, purge);
    FirstPush(o, c, start, again);
    SecondPush(o, c, With(o, c, g, FundTx(again + 1)), again, purge);
    RunOfTwo(o, g, events[0], events[1], events[2]);
    assert events == [events[0], events[1], events[2]];
  }

  // ----- exactly -----

  /** In a run from `n` without reindexing, on a clock that falls back by no more than `slack`, two
      admitted pushes have one identifier, although no identifiers collide. */
  ghost predicate SomeTwice(o: Oracles, n: Node, slack: nat)
    requires n.chain.blocks != []
  {
    exists events: seq<Event>, i: nat, j: nat :: Twice(o, n, slack, events, i, j)
  }

  ghost predicate Twice(o: Oracles, n: Node, slack: nat, events: seq<Event>, i: nat, j: nat)
    requires n.chain.blocks != []
  {
    && i < j < |events| && (forall e | e in events :: !e.ReindexEvent?) && FallsAtMost(events, slack)
    && Admitted(o, n, events, i) && Admitted(o, n, events, j)
    && TxFits(events[i].tx) && TxFits(events[j].tx) && NoCollision(o, events[i].tx, events[j].tx)
    && TxIdOf(o, events[i].tx) == TxIdOf(o, events[j].tx)
  }

  lemma GenesisHasBlock(o: Oracles, c: Cast, start: Clock)
    requires start + 1 < TWO_64
    ensures Genesis(o, c.minter, c.keys, start).chain.blocks != []
  {
    hide GenesisBlock, GenesisWallet;
  }

  /** After genesis some run admits a transaction twice exactly if its clock may fall back by 32
      seconds. */
  lemma RunSlackIsExact(o: Oracles, c: Cast, start: Clock, slack: nat)
    requires start + 1 < TWO_64 && Trusted(o, c)
    ensures Genesis(o, c.minter, c.keys, start).chain.blocks != []
    ensures SomeTwice(o, Genesis(o, c.minter, c.keys, start), slack) <==> slack >= 32
  {
    hide Genesis, Trusted, Admitted, TxIdOf, TxFits, NoCollision, FundTwice, FallsAtMost;
    GenesisHasBlock(o, c, start);
    var g := Genesis(o, c.minter, c.keys, start);
    if slack >= 32 {
      var again: Clock, purge: Clock := 30, 62;
      AdmitsTwice(o, c, start, again, purge);
      FallOfRun(o, c, again, purge, slack);
      OneTransaction(o, c, again, purge);
      assert Twice(o, g, slack, FundTwice(o, c, again, purge), 0, 2);
    }
    if SomeTwice(o, g, slack) {
      var events: seq<Event>, i: nat, j: nat :| Twice(o, g, slack, events, i, j);
      if slack <= 31 {
        LessSlack(events, slack);
        NeverAdmittedTwice(o, g, events, i, j);
      }
    }
  }

  lemma LessSlack(events: seq<Event>, slack: nat)
    requires FallsAtMost(events, slack) && slack <= 31
    ensures FallsAtMost(events, 31)
  {
  }

  lemma OneTransaction(o: Oracles, c: Cast, again: Clock, purge: Clock)
    requires again + 1 < TWO_64
    ensures var events := FundTwice(o, c, again, purge);
            && |events| == 3 && events[0] == events[2] && events[0].PushEvent? && TxFits(events[0].tx)
            && (forall e | e in events :: !e.ReindexEvent?) && NoCollision(o, events[0].tx, events[2].tx)
  {
    hide TxIdOf, EncUnsigned;
  }
}
