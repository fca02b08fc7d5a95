// The log of any run, whole or cut off, and what reindexing it gives back.

module Recovery {
  import opened Wrappers
  import opened Numbers
  import opened Crypto
  import opened Blocks
  import opened Ledgers
  import opened Nodes
  import opened Runs
  import opened WellFormed
  import opened Frames
  import opened Stores
  import opened Blockchains

  // ----- positions -----

  lemma {:induction false} PlacedSnoc(o: Oracles, blocks: seq<Block>, i: nat, k: nat)
    requires i <= k < |blocks|
    ensures Placed(o, blocks, i, k + 1) == Placed(o, blocks, i, k) + [(Pos(o, blocks, k), blocks[k])]
    decreases k - i
  {
    hide Pos;
    if i < k {
      PlacedSnoc(o, blocks, i + 1, k);
    }
  }

  lemma PlacedNone(o: Oracles, blocks: seq<Block>)
    ensures BlocksOf(Placed(o, blocks, 0, 0)) == [] && PositionsOf(Placed(o, blocks, 0, 0)) == map[]
  {
  }

  lemma {:induction false} PlacedMeans(o: Oracles, blocks: seq<Block>, k: nat)
    requires k <= |blocks| && Numbered(blocks)
    ensures BlocksOf(Placed(o, blocks, 0, k)) == blocks[..k]
    ensures PositionsOf(Placed(o, blocks, 0, k)) == WrittenAt(o, blocks[..k])
  {
    PlacedNone(o, blocks);
    hide FileOf, PositionsOf, BlocksOf, Placed;
    if k > 0 {
      PlacedMeans(o, blocks, k - 1);
      PlacedSnoc(o, blocks, 0, k - 1);
      FoundSnoc(Placed(o, blocks, 0, k - 1), Pos(o, blocks, k - 1), blocks[k - 1]);
      assert blocks[..k][..k - 1] == blocks[..k - 1];
    }
  }

  /** The file that is left of a log cut off behind its first `k` blocks. */
  function Left(o: Oracles, blocks: seq<Block>, k: nat, cut: nat): seq<byte>
    requires k <= |blocks| && cut <= |FileOf(o, blocks)|
  {
    Trimmed(FileOf(o, blocks)[..cut], Recovered(o, blocks, k, cut).end)
  }

  /** What the first `k` blocks come to, unless a torn frame behind them must not be trimmed. */
  function RebuiltFrom(o: Oracles, funds: Ledger, blocks: seq<Block>, k: nat, cut: nat, autoTrim: bool): Option<Rebuilt>
    requires k <= |blocks| && cut <= |FileOf(o, blocks)| && ApplyBlocks(funds, blocks[..k]).Some?
  {
    if !autoTrim && cut - Pos(o, blocks, k) >= META then None
    else
      Some(Rebuilt(blocks[..k], ApplyBlocks(funds, blocks[..k]).value, Left(o, blocks, k, cut),
                   WrittenAt(o, blocks[..k])))
  }

  /** Reindexing a log cut off anywhere gives the blocks whose frames are whole, the funds after
      them, and the positions that inserting them had stored. Without trimming it gives up exactly
      if eight or more bytes of a torn frame are left. */
  lemma TornLogRebuilds(o: Oracles, funds: Ledger, blocks: seq<Block>, cut: nat, autoTrim: bool)
    requires AllWritable(blocks) && Numbered(blocks) && cut <= |FileOf(o, blocks)|
    requires ApplyBlocks(funds, blocks[..WholeFrames(o, blocks, |blocks|, cut)]).Some?
    ensures Rebuild(o, funds, FileOf(o, blocks)[..cut], autoTrim)
         == RebuiltFrom(o, funds, blocks, WholeFrames(o, blocks, |blocks|, cut), cut, autoTrim)
  {
    hide Frame, Writable, Scan, WholeFrames, ApplyBlocks, FileOf, PositionsOf, BlocksOf;
    var k := WholeFrames(o, blocks, |blocks|, cut);
    TornTail(o, blocks, cut);
    PlacedMeans(o, blocks, k);
  }

  // ----- earlier moments of a run -----

  lemma StepExtends(o: Oracles, n: Node, e: Event)
    requires n.chain.blocks != []
    ensures var blocks, blocks' := n.chain.blocks, Step(o, n, e).chain.blocks;
            blocks' == blocks || (|blocks'| == |blocks| + 1 && blocks'[..|blocks|] == blocks)
  {
    hide Step, Makes;
    StepMakesBlocks(o, n, e);
  }

  /** A chain passes through all its prefixes, from the one it starts with. */
  lemma {:induction false} EarlierMoment(o: Oracles, n: Node, events: seq<Event>, k: nat) returns (i: nat)
    requires n.chain.blocks != [] && |n.chain.blocks| <= k <= |Run(o, n, events).chain.blocks|
    ensures i <= |events|
    ensures Run(o, n, events[..i]).chain.blocks == Run(o, n, events).chain.blocks[..k]
  {
    var blocks := Run(o, n, events).chain.blocks;
    if k == |blocks| {
      i := |events|;
      assert events[..i] == events && blocks[..k] == blocks;
    } else {
      var front := events[..|events| - 1];
      var before := Run(o, n, front);
      hide Step;
      StepExtends(o, before, events[|events| - 1]);
      hide Run;
      assert blocks[..|before.chain.blocks|] == before.chain.blocks;
      i := EarlierMoment(o, n, front, k);
      assert front[..i] == events[..i];
      assert before.chain.blocks[..k] == blocks[..k];
    }
  }

  lemma RunIsNumbered(o: Oracles, owner: KeyPair, keys: seq<PublicKey>, now: Clock, events: seq<Event>)
    requires now + 1 < TWO_64
    ensures Numbered(Run(o, Genesis(o, owner, keys, now), events).chain.blocks)
  {
    GenesisIsLinked(o, owner, keys, now);
    hide Genesis, Run, ReceiptRoot, HeaderHash;
    RunIsLinked(o, Genesis(o, owner, keys, now), events);
  }

  // ----- the main results -----

  /** An earlier chain of the same run, as the log of its blocks replays to it. */
  lemma PrefixReplays(o: Oracles, n: Node, events: seq<Event>, i: nat)
    requires n.chain.blocks != [] && NodeInv(o, n) && i <= |events|
    ensures var past := Run(o, n, events[..i]).chain;
            Replay(past.blocks) == Some(past.ledger)
  {
    Runs.RunKeeps(o, n, events[..i]);
    hide Replay, Run, Conservation.LedgerInv, FeeCapped, Chains.AllExecuted;
  }

  /** Where the log begins with the genesis frame, replaying starts from the accounts created there. */
  lemma ReplayedFrom(o: Oracles, blocks: seq<Block>, cut: nat, autoTrim: bool)
    requires AllWritable(blocks) && blocks != [] && |blocks[0].receipts| == 2
    requires |Frame(o, blocks[0])| <= cut <= |FileOf(o, blocks)|
    ensures Replayed(o, FileOf(o, blocks)[..cut], autoTrim)
         == Rebuild(o, PreIndexed(blocks[0]), FileOf(o, blocks)[..cut], autoTrim)
    ensures WholeFrames(o, blocks, |blocks|, cut) > 0
  {
    hide Frame, Writable, RawRead, Rebuild, FileOf, WholeFrames;
    PosZero(o, blocks);
    FrameInLog(o, blocks, 0);
    TornAt(o, blocks, 0, cut);
    WholeFramesMost(o, blocks, |blocks|, cut, 1);
  }

  lemma {:induction false} WholeFramesMost(o: Oracles, blocks: seq<Block>, n: nat, cut: nat, k: nat)
    requires k <= n <= |blocks| && Fits(o, blocks, k, cut)
    ensures k <= WholeFrames(o, blocks, n, cut)
  {
    hide Fits;
    if k < n {
      WholeFramesMost(o, blocks, n - 1, cut, k);
    }
  }

  /** Recovery. Take the log of any run whose blocks have a byte form, cut off anywhere behind the
      genesis frame. Reindexing it goes back to an earlier moment of that same run: it finds the
      blocks, the funds and the positions that were stored when the last whole frame was the head.
      Without trimming it gives up exactly when eight or more bytes of a torn frame are left. */
  lemma GoesBackToAnEarlierMoment(o: Oracles, owner: KeyPair, keys: seq<PublicKey>, now: Clock, events: seq<Event>,
                                  cut: nat, autoTrim: bool) returns (i: nat)
    requires now + 1 < TWO_64
    requires var blocks := Run(o, Genesis(o, owner, keys, now), events).chain.blocks;
             && AllWritable(blocks) && blocks != []
             && |Frame(o, blocks[0])| <= cut <= |FileOf(o, blocks)|
    ensures i <= |events|
    ensures var g := Genesis(o, owner, keys, now);
            var blocks, past := Run(o, g, events).chain.blocks, Run(o, g, events[..i]).chain;
            var k := WholeFrames(o, blocks, |blocks|, cut);
            && past.blocks == blocks[..k]
            && Replayed(o, FileOf(o, blocks)[..cut], autoTrim)
            == if !autoTrim && cut - Pos(o, blocks, k) >= META then None
               else Some(Rebuilt(past.blocks, past.ledger, Left(o, blocks, k, cut), WrittenAt(o, past.blocks)))
  {
    var g := Genesis(o, owner, keys, now);
    GenesisInv(o, owner, keys, now);
    GenesisShape(o, owner, keys, now);
    RunIsNumbered(o, owner, keys, now, events);
    hide Genesis, Run, NodeInv, Frame, Writable, FileOf, WholeFrames, Rebuild, Replay, RawRead, Left, Numbered,
         WrittenAt, Pos;
    var blocks := Run(o, g, events).chain.blocks;
    assert blocks[0] == g.chain.blocks[0] by { FirstBlockStays(o, g, events); }
    var k := WholeFrames(o, blocks, |blocks|, cut);
    ReplayedFrom(o, blocks, cut, autoTrim);
    i := EarlierMoment(o, g, events, k);
    PrefixReplays(o, g, events, i);
    ReplayIs(blocks[..k]);
    TornLogRebuilds(o, PreIndexed(blocks[0]), blocks, cut, autoTrim);
  }

  lemma ReplayIs(blocks: seq<Block>)
    requires blocks != [] && Replay(blocks).Some?
    ensures ApplyBlocks(PreIndexed(blocks[0]), blocks) == Replay(blocks)
  {
    hide ApplyBlocks;
  }

  lemma GenesisShape(o: Oracles, kp: KeyPair, keys: seq<PublicKey>, now: Clock)
    requires now + 1 < TWO_64
    ensures |Genesis(o, kp, keys, now).chain.blocks| == 1 && |Genesis(o, kp, keys, now).chain.blocks[0].receipts| == 2
  {
    hide GenesisWallet, GenesisOwner, ReceiptRoot;
  }

  lemma {:induction false} FirstBlockStays(o: Oracles, n: Node, events: seq<Event>)
    requires n.chain.blocks != []
    ensures Run(o, n, events).chain.blocks[0] == n.chain.blocks[0]
  {
    if events != [] {
      hide Step;
      var front := events[..|events| - 1];
      FirstBlockStays(o, n, front);
      StepExtends(o, Run(o, n, front), events[|events| - 1]);
    }
  }

  /** Replay equivalence. The whole log of any run replays to the chain as it is stored: the same
      blocks, accounts, owner and supply, the positions that inserting block by block had stored,
      and the file untouched. */
  lemma WholeLogReplays(o: Oracles, owner: KeyPair, keys: seq<PublicKey>, now: Clock, events: seq<Event>,
                        autoTrim: bool)
    requires now + 1 < TWO_64
    requires AllWritable(Run(o, Genesis(o, owner, keys, now), events).chain.blocks)
    ensures var chain := Run(o, Genesis(o, owner, keys, now), events).chain;
            var stored := Rebuilt(chain.blocks, chain.ledger, FileOf(o, chain.blocks), WrittenAt(o, chain.blocks));
            Replayed(o, FileOf(o, chain.blocks), autoTrim) == Some(stored)
  {
    var g := Genesis(o, owner, keys, now);
    GenesisInv(o, owner, keys, now);
    GenesisShape(o, owner, keys, now);
    RunIsNumbered(o, owner, keys, now, events);
    assert events[..|events|] == events;
    PrefixReplays(o, g, events, |events|);
    hide Genesis, Run, NodeInv, Frame, Writable, FileOf, WholeFrames, Rebuild, Replay, RawRead, Numbered, WrittenAt;
    FirstBlockStays(o, g, events);
    WholeReplays(o, Run(o, g, events).chain.blocks, autoTrim);
  }

  lemma WholeReplays(o: Oracles, blocks: seq<Block>, autoTrim: bool)
    requires AllWritable(blocks) && Numbered(blocks) && blocks != [] && Replay(blocks).Some?
    ensures Replayed(o, FileOf(o, blocks), autoTrim)
         == Some(Rebuilt(blocks, Replay(blocks).value, FileOf(o, blocks), WrittenAt(o, blocks)))
  {
    WholeFacts(o, blocks);
    ReplayIs(blocks);
    GenesisPair(blocks);
    assert AllWritable(blocks);
    hide *;
    var n := |FileOf(o, blocks)|;
    ReplayedFrom(o, blocks, n, autoTrim);
    TornLogRebuilds(o, PreIndexed(blocks[0]), blocks, n, autoTrim);
    WholeRebuilt(o, PreIndexed(blocks[0]), blocks, autoTrim);
  }

  lemma WholeRebuilt(o: Oracles, funds: Ledger, blocks: seq<Block>, autoTrim: bool)
    requires AllWritable(blocks) && blocks != [] && ApplyBlocks(funds, blocks).Some?
    ensures blocks[..|blocks|] == blocks
    ensures RebuiltFrom(o, funds, blocks, |blocks|, |FileOf(o, blocks)|, autoTrim)
         == Some(Rebuilt(blocks, ApplyBlocks(funds, blocks).value, FileOf(o, blocks), WrittenAt(o, blocks)))
  {
    WholeFacts(o, blocks);
    hide Frame, Writable, FileOf, WholeFrames, WrittenAt, ApplyBlocks, Pos, Left;
  }

  /** A log that is not cut off. */
  lemma WholeFacts(o: Oracles, blocks: seq<Block>)
    requires AllWritable(blocks) && blocks != []
    ensures var n := |FileOf(o, blocks)|;
            && FileOf(o, blocks)[..n] == FileOf(o, blocks) && blocks[..|blocks|] == blocks
            && |Frame(o, blocks[0])| <= n && Pos(o, blocks, |blocks|) == n
            && WholeFrames(o, blocks, |blocks|, n) == |blocks|
            && Left(o, blocks, |blocks|, n) == FileOf(o, blocks)
  {
    hide Frame, Writable, FileOf, WholeFrames;
    PosZero(o, blocks);
    FrameInLog(o, blocks, 0);
    assert blocks[..|blocks|] == blocks;
    WholeFramesMost(o, blocks, |blocks|, |FileOf(o, blocks)|, |blocks|);
  }

  lemma GenesisPair(blocks: seq<Block>)
    requires blocks != [] && Replay(blocks).Some?
    ensures |blocks[0].receipts| == 2
  {
    hide ApplyBlocks;
  }
}
