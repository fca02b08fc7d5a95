// What the hash of a block names: the whole chain up to it, and with it the ledger
// (`calc_header_hash` and `calc_receipt_root` in blockchain/block.rs).

module Histories {
  import opened Wrappers
  import opened Numbers
  import opened Serializer
  import opened Crypto
  import opened Transactions
  import opened Blocks
  import opened Ledgers
  import opened Chains
  import opened Nodes
  import opened Runs
  import opened WellFormed

  // ----- one hash, one chain -----

  /** The hash tells the two apart if they are not the same. */
  predicate Apart(o: Oracles, x: seq<byte>, y: seq<byte>) {
    o.sha(x) == o.sha(y) ==> x == y
  }

  /** No header of one chain collides with a different one of the other, and no receipts do. */
  predicate NoCollision(o: Oracles, a: seq<Block>, b: seq<Block>) {
    forall i, j | 0 <= i < |a| && 0 <= j < |b| ::
      && Apart(o, EncBlockHeader(a[i].header), EncBlockHeader(b[j].header))
      && Apart(o, EncAll(a[i].receipts, EncReceipt), EncAll(b[j].receipts, EncReceipt))
  }

  predicate AllFit(rs: seq<Receipt>) {
    forall r | r in rs :: ReceiptFits(r)
  }

  lemma HeadersDiffer(a: BlockHeader, b: BlockHeader)
    requires EncBlockHeader(a) == EncBlockHeader(b)
    ensures a == b
  {
    hide EncBlockHeader, TakeBlockHeader;
    TakeBlockHeaderOf(a, []);
    TakeBlockHeaderOf(b, []);
  }

  lemma NotNothing(r: Receipt)
    ensures EncReceipt(r) != []
  {
    hide EncPayload, EncSigs, EncVarI64;
  }

  /** Receipts written one behind the other without a count can be told apart all the same. */
  lemma {:induction false} ReceiptsDiffer(a: seq<Receipt>, b: seq<Receipt>)
    requires AllFit(a) && AllFit(b) && EncAll(a, EncReceipt) == EncAll(b, EncReceipt)
    ensures a == b
  {
    hide EncReceipt, ReceiptFits, TakeReceipt;
    if a != [] && b != [] {
      assert a[0] in a && b[0] in b;
      TakeReceiptOf(a[0], EncAll(a[1..], EncReceipt));
      TakeReceiptOf(b[0], EncAll(b[1..], EncReceipt));
      ReceiptsDiffer(a[1..], b[1..]);
      assert a == [a[0]] + a[1..] && b == [b[0]] + b[1..];
    } else if a != [] {
      NotNothing(a[0]);
    } else if b != [] {
      NotNothing(b[0]);
    }
  }

  predicate AllBlocksFit(blocks: seq<Block>) {
    forall b | b in blocks :: AllFit(b.receipts)
  }

  lemma FrontIsLinked(o: Oracles, a: seq<Block>, k: nat)
    requires k <= |a| && Linked(o, a) && AllBlocksFit(a)
    ensures Linked(o, a[..k]) && AllBlocksFit(a[..k])
  {
    hide AllFit, ReceiptRoot, HeaderHash;
  }

  lemma FrontsApart(o: Oracles, a: seq<Block>, b: seq<Block>, m: nat, n: nat)
    requires m <= |a| && n <= |b| && NoCollision(o, a, b)
    ensures NoCollision(o, a[..m], b[..n])
  {
    hide Apart, EncBlockHeader, EncAll;
    forall i, j | 0 <= i < m && 0 <= j < n
      ensures && Apart(o, EncBlockHeader(a[..m][i].header), EncBlockHeader(b[..n][j].header))
              && Apart(o, EncAll(a[..m][i].receipts, EncReceipt), EncAll(b[..n][j].receipts, EncReceipt))
    {
      assert a[..m][i] == a[i] && b[..n][j] == b[j];
    }
  }

  lemma SameTop(o: Oracles, a: seq<Block>, b: seq<Block>)
    requires a != [] && b != [] && Linked(o, a) && Linked(o, b) && NoCollision(o, a, b)
    requires AllBlocksFit(a) && AllBlocksFit(b) && HeaderHash(o, a[|a| - 1]) == HeaderHash(o, b[|b| - 1])
    ensures |a| == |b| && a[|a| - 1].header == b[|b| - 1].header && a[|a| - 1].receipts == b[|b| - 1].receipts
    ensures |a| > 1 ==> HeaderHash(o, a[|a| - 2]) == HeaderHash(o, b[|b| - 2])
  {
    hide EncBlockHeader, AllFit, EncAll;
    var x, y := a[|a| - 1], b[|b| - 1];
    assert x in a && y in b;
    HeadersDiffer(x.header, y.header);
    ReceiptsDiffer(x.receipts, y.receipts);
  }

  /** Equal in all that is under the hash. Rewards and signers are not. */
  predicate SameHistory(a: seq<Block>, b: seq<Block>) {
    |a| == |b| && forall i | 0 <= i < |a| :: a[i].header == b[i].header && a[i].receipts == b[i].receipts
  }

  /** The hash of a block's header leaves no choice for any header and any receipt up to it. */
  lemma {:induction false} HeadNamesChain(o: Oracles, a: seq<Block>, b: seq<Block>)
    requires a != [] && b != [] && Linked(o, a) && Linked(o, b) && NoCollision(o, a, b)
    requires AllBlocksFit(a) && AllBlocksFit(b) && HeaderHash(o, a[|a| - 1]) == HeaderHash(o, b[|b| - 1])
    ensures SameHistory(a, b)
    decreases |a|
  {
    hide Linked, NoCollision, AllBlocksFit, HeaderHash;
    SameTop(o, a, b);
    var m := |a| - 1;
    if m > 0 {
      FrontIsLinked(o, a, m);
      FrontIsLinked(o, b, m);
      FrontsApart(o, a, b, m, m);
      HeadNamesChain(o, a[..m], b[..m]);
      assert forall i | 0 <= i < m :: a[i] == a[..m][i] && b[i] == b[..m][i];
    }
  }

  // ----- and one ledger -----

  /** Every block's rewards are its receipts' fees. */
  predicate PayFees(blocks: seq<Block>) {
    forall b | b in blocks :: FeeTotal(b.receipts) == Some(b.rewards)
  }

  lemma GenesisPaysFees(o: Oracles, owner: KeyPair, keys: seq<PublicKey>, now: Clock)
    requires now + 1 < TWO_64
    ensures PayFees(Genesis(o, owner, keys, now).chain.blocks)
  {
    hide GenesisWallet, ReceiptRoot;
    var rs := GenesisReceipts(owner, keys, now);
    assert rs[..1] == [rs[0]] && rs[..1][..0] == [];
    assert FeeTotal([]) == Some(0) && FeeTotal(rs[..1]) == Some(0) && FeeTotal(rs) == Some(0);
  }

  lemma StepPaysFees(o: Oracles, n: Node, e: Event)
    requires n.chain.blocks != [] && PayFees(n.chain.blocks)
    ensures PayFees(Step(o, n, e).chain.blocks)
  {
    hide Step, FeeTotal, NewChild, Sign;
    StepMakesBlocks(o, n, e);
    if Step(o, n, e).chain.blocks != n.chain.blocks {
      ChildPaysFees(o, e.kp, n, e.blockNow);
    }
  }

  lemma {:induction false} RunPaysFees(o: Oracles, n: Node, events: seq<Event>)
    requires n.chain.blocks != [] && PayFees(n.chain.blocks)
    ensures PayFees(Run(o, n, events).chain.blocks)
  {
    hide Step, PayFees;
    if events != [] {
      RunPaysFees(o, n, events[..|events| - 1]);
      StepPaysFees(o, Run(o, n, events[..|events| - 1]), events[|events| - 1]);
    }
  }

  /** Same receipts and same rewards. */
  predicate SameContent(a: seq<Block>, b: seq<Block>) {
    |a| == |b| && forall i | 0 <= i < |a| :: a[i].receipts == b[i].receipts && a[i].rewards == b[i].rewards
  }

  lemma {:induction false} SameContentSameLedger(l: Ledger, a: seq<Block>, b: seq<Block>)
    requires SameContent(a, b)
    ensures ApplyBlocks(l, a) == ApplyBlocks(l, b)
  {
    hide ApplyReceipts, AddBal;
    if a != [] {
      SameContentSameLedger(l, a[..|a| - 1], b[..|b| - 1]);
    }
  }

  lemma SameContentReplays(a: seq<Block>, b: seq<Block>)
    requires a != [] && SameContent(a, b)
    ensures b != [] && Replay(a) == Replay(b)
  {
    hide ApplyBlocks, CreatedAccounts;
    SameContentSameLedger(PreIndexed(a[0]), a, b);
  }

  /** A node after genesis and a run of transactions that fit their byte form. */
  ghost predicate Fitting(o: Oracles, n: Node) {
    exists owner: KeyPair, keys: seq<PublicKey>, now: Clock, events: seq<Event> ::
      && now + 1 < TWO_64 && |keys| < 256 && (forall e | e in events :: PushFits(e))
      && n == Run(o, Genesis(o, owner, keys, now), events)
  }

  lemma RunOf(o: Oracles, n: Node) returns (owner: KeyPair, keys: seq<PublicKey>, now: Clock, events: seq<Event>)
    requires Fitting(o, n)
    ensures now + 1 < TWO_64 && |keys| < 256 && (forall e | e in events :: PushFits(e))
    ensures n == Run(o, Genesis(o, owner, keys, now), events)
  {
    owner, keys, now, events :|
      && now + 1 < TWO_64 && |keys| < 256 && (forall e | e in events :: PushFits(e))
      && n == Run(o, Genesis(o, owner, keys, now), events);
  }

  lemma FittingIs(o: Oracles, n: Node)
    requires Fitting(o, n)
    ensures n.chain.blocks != [] && Linked(o, n.chain.blocks) && PayFees(n.chain.blocks)
    ensures Replay(n.chain.blocks) == Some(n.chain.ledger)
    ensures AllBlocksFit(n.chain.blocks)
  {
    hide Fitting, PushFits, ReceiptFits, Linked, PayFees, Replay, FeeCapped, AllExecuted, Run;
    var owner, keys, now, events := RunOf(o, n);
    GenesisInv(o, owner, keys, now);
    GenesisIsOk(o, owner, keys, now);
    GenesisPaysFees(o, owner, keys, now);
    hide Genesis;
    var g := Genesis(o, owner, keys, now);
    RunKeeps(o, g, events);
    RunIsOk(o, g, events);
    RunPaysFees(o, g, events);
    forall b | b in n.chain.blocks ensures AllFit(b.receipts) {
      assert ContentFits(b);
    }
  }

  /** Two nodes that agree on the hash of their newest block, after whatever runs, agree on accounts,
      owner and supply, as long as no two of the things hashed collide. */
  lemma HeadNamesLedger(o: Oracles, n: Node, m: Node)
    requires Fitting(o, n) && Fitting(o, m) && NoCollision(o, n.chain.blocks, m.chain.blocks)
    requires n.chain.blocks != [] && m.chain.blocks != [] && HeaderHash(o, Head(n.chain)) == HeaderHash(o, Head(m.chain))
    ensures SameHistory(n.chain.blocks, m.chain.blocks) && n.chain.ledger == m.chain.ledger
  {
    hide Fitting, Linked, NoCollision, Replay, AllBlocksFit, HeaderHash, FeeTotal;
    FittingIs(o, n);
    FittingIs(o, m);
    HeadNamesChain(o, n.chain.blocks, m.chain.blocks);
    assert SameContent(n.chain.blocks, m.chain.blocks) by {
      forall i | 0 <= i < |n.chain.blocks|
        ensures n.chain.blocks[i].rewards == m.chain.blocks[i].rewards
      {
        assert n.chain.blocks[i] in n.chain.blocks && m.chain.blocks[i] in m.chain.blocks;
      }
    }
    SameContentReplays(n.chain.blocks, m.chain.blocks);
  }
}
