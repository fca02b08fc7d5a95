// Starting the server over what is on disk, and whole runs of it: `start` in server/lib.rs and the
// options that bin/server/main.rs hands to it.

module Servers {
  import opened Wrappers
  import opened Numbers
  import opened Crypto
  import opened Blocks
  import opened Ledgers
  import opened Chains
  import opened Nodes
  import opened Runs
  import opened Frames
  import opened Caches
  import opened Indexes
  import opened Stores
  import opened Blockchains
  import opened Pools
  import opened Recovery
  import opened Identifiers

  /** The index directory is new. */
  ghost predicate NewIndex(indexer: Indexer)
    reads indexer
  {
    && indexer.bytePos == map[] && indexer.height == 0 && indexer.txids == map[] && indexer.status == NoIndex
    && indexer.Funds() == Ledger(map[], None, 0)
  }

  /** A server at work: its objects fit together, the index is complete, and file and positions are
      those of the log. */
  ghost predicate Running(m: Minter)
    reads m, m.receiptPool, m.chain, m.chain.store, m.chain.indexer
  {
    m.Valid() && m.chain.Recorded() && m.chain.indexer.status == Complete
  }

  /** The server is at work and its objects are this state. */
  ghost predicate At(m: Minter, o: Oracles, n: Node)
    reads m, m.receiptPool, m.chain, m.chain.store, m.chain.indexer
  {
    Running(m) && m.chain.o == o && m.State() == n
  }

  /** The minter's key is compared with the indexed owner's; with another key the process stops. */
  method Employ(chain: Blockchain, key: KeyPair, enableStale: bool) returns (m: Option<Minter>)
    requires chain.Valid()
    ensures m.Some? <==> IsMinter(chain.View().ledger, key)
    ensures m.Some? ==>
              && fresh(m.value) && fresh(m.value.receiptPool) && m.value.Valid()
              && m.value.chain == chain && m.value.minterKey == key && m.value.enableStaleProduction == enableStale
              && m.value.State() == Node(chain.View(), chain.indexer.txids, [])
  {
    var owner := chain.indexer.owner;
    if owner.None? || !owner.value.OwnerTx? || owner.value.minter != key.pub {
      return None;
    }
    var minter := new Minter(chain, key, enableStale);
    return Some(minter);
  }

  lemma GenesisEmploys(o: Oracles, kp: KeyPair, keys: seq<PublicKey>, now: Clock)
    requires now + 1 < TWO_64
    ensures var g := Genesis(o, kp, keys, now); IsMinter(g.chain.ledger, kp) && g == Node(g.chain, map[], [])
  {
    hide GenesisBlock, GenesisWallet;
  }

  /** What is on disk can be started from: nothing at all, the complete index of a log, or no index
      and a log whose first two frames are in order. */
  ghost predicate Startable(o: Oracles, file: seq<byte>, indexer: Indexer, written: seq<Block>)
    reads indexer
  {
    && (file == [] ==> NewIndex(indexer))
    && (file != [] && indexer.status == Complete ==> BlockStore.Persisted(o, file, indexer, written))
    && (file != [] && indexer.status == NoIndex ==> NewIndex(indexer) && OpensInOrder(o, file))
  }

  /** A new log gets its genesis block; an index that is not complete is rebuilt, if that was asked
      for. Nothing comes of it where the process stops. */
  method Start(o: Oracles, file: seq<byte>, indexer: Indexer, key: KeyPair, reindex: Option<bool>, enableStale: bool,
               keys: seq<PublicKey>, now: Clock, ghost written: seq<Block>)
    returns (m: Option<Minter>)
    requires Startable(o, file, indexer, written)
    requires file == [] ==> now + 1 < TWO_64 && Writable(GenesisBlock(o, key, keys, now))
    modifies indexer
    ensures m.Some? ==>
              && fresh(m.value) && fresh(m.value.receiptPool) && fresh(m.value.chain) && fresh(m.value.chain.store)
              && m.value.chain.o == o && m.value.chain.indexer == indexer
              && m.value.minterKey == key && m.value.enableStaleProduction == enableStale
              && m.value.Valid() && indexer.status == Complete
    ensures file == [] ==>
              && m.Some? && m.value.State() == Genesis(o, key, keys, now) && m.value.chain.Recorded()
    ensures file != [] && old(indexer.status) == Complete ==>
              && (m.Some? <==> IsMinter(old(indexer.Funds()), key))
              && unchanged(indexer)
              && (m.Some? ==>
                    && m.value.chain.store.file == file
                    && m.value.State() == Node(Chain(indexer.Funds(), written), indexer.txids, []))
    ensures file != [] && old(indexer.status) == NoIndex ==>
              var r := if reindex.Some? then Replayed(o, file, reindex.value) else None;
              && (m.Some? <==> r.Some? && IsMinter(r.value.funds, key))
              && (m.Some? ==>
                    && m.value.chain.store.file == r.value.file && indexer.bytePos == r.value.positions
                    && m.value.State() == Node(Chain(r.value.funds, r.value.blocks),
                                               RebuildTxids(o, r.value.blocks, |r.value.blocks|, now), []))
    ensures file != [] && old(indexer.status) == Partial ==> m == None
  {
    hide GenesisBlock, Writable, OpensInOrder, StoredBelow, Replayed, RebuildTxids, FileOf, WrittenAt, Genesis,
         BlockStore.Sound, BlockStore.Loaded, BlockStore.Synced;
    var store := new BlockStore(o, file, indexer, written);
    var chain := new Blockchain(o, indexer, store);
    if file != [] && indexer.status != Complete {
      if reindex.None? || indexer.status != NoIndex {
        return None;
      }
      var ok := chain.Reindex(reindex.value, now);
      if !ok {
        return None;
      }
    }
    if file == [] {
      chain.CreateGenesisBlock(key, keys, now);
      GenesisEmploys(o, key, keys, now);
    }
    m := Employ(chain, key, enableStale);
  }

  // ----- starting again -----

  lemma LogOnDisk(m: Minter)
    requires Running(m)
    ensures var store := m.chain.store;
            store.file != [] && BlockStore.Persisted(m.chain.o, store.file, m.chain.indexer, store.log)
  {
    var store := m.chain.store;
    hide RawRead, CacheOf, Cached, FileOf, WrittenAt;
    assert StoredAt(m.chain.o, store.file, m.chain.indexer.bytePos, store.log, 0);
    ReadWithin(m.chain.o, store.file, m.chain.indexer.bytePos[0]);
  }

  /** The first process, over no files. */
  method StartNew(o: Oracles, key: KeyPair, keys: seq<PublicKey>, now: Clock) returns (m: Minter)
    requires now + 1 < TWO_64 && Writable(GenesisBlock(o, key, keys, now))
    ensures fresh(m.receiptPool) && fresh(m.chain.store) && fresh(m.chain.indexer)
    ensures At(m, o, Genesis(o, key, keys, now)) && m.minterKey == key && !m.enableStaleProduction
  {
    hide GenesisBlock, Writable, Genesis, FileOf, WrittenAt, BlockStore.Sound, BlockStore.Loaded, BlockStore.Synced;
    var indexer := new Indexer();
    var first := Start(o, [], indexer, key, None, false, keys, now, []);
    m := first.value;
  }

  /** A new process over the same files. */
  method Restart(m: Minter, key: KeyPair, enableStale: bool) returns (q: Option<Minter>)
    requires Running(m)
    modifies m.chain.indexer
    ensures unchanged(m.chain.indexer)
    ensures q.Some? <==> IsMinter(m.State().chain.ledger, key)
    ensures q.Some? ==>
              && fresh(q.value) && fresh(q.value.receiptPool) && fresh(q.value.chain) && fresh(q.value.chain.store)
              && q.value.chain.indexer == m.chain.indexer
              && q.value.chain.o == m.chain.o && q.value.minterKey == key
              && q.value.enableStaleProduction == enableStale
              && Running(q.value)
              && q.value.State() == Nodes.Step(m.chain.o, m.State(), RestartEvent)
  {
    hide StoredBelow, FileOf, WrittenAt, BlockStore.Sound, BlockStore.Loaded, BlockStore.Synced, BlockStore.Persisted;
    LogOnDisk(m);
    q := Start(m.chain.o, m.chain.store.file, m.chain.indexer, key, None, enableStale, [], TX_EXPIRY_ADJUSTMENT,
               m.chain.store.log);
  }

  lemma LogOpensInOrder(o: Oracles, blocks: seq<Block>)
    requires AllWritable(blocks) && Numbered(blocks) && blocks != []
    ensures OpensInOrder(o, FileOf(o, blocks)) && FileOf(o, blocks) != []
  {
    hide Writable, RawRead, Scan, FileOf, OpensInOrder, Frame;
    WholeLog(o, blocks);
    PlacedBlocks(o, blocks, |blocks|);
    assert blocks[..|blocks|] == blocks;
    FoundInOrderIff(o, FileOf(o, blocks));
    FileOpens(o, blocks);
  }

  lemma FileOpens(o: Oracles, blocks: seq<Block>)
    requires OpensInOrder(o, FileOf(o, blocks))
    ensures FileOf(o, blocks) != []
  {
    hide FileOf;
    ReadWithin(o, FileOf(o, blocks), 0);
  }

  lemma LogReplays(o: Oracles, n: Node, autoTrim: bool, now: Clock)
    requires NodeInv(o, n) && AllWritable(n.chain.blocks) && Numbered(n.chain.blocks)
    ensures var blocks := n.chain.blocks;
            var file := FileOf(o, blocks);
            && blocks != [] && file != [] && OpensInOrder(o, file)
            && Replayed(o, file, autoTrim) == Some(Rebuilt(blocks, n.chain.ledger, file, WrittenAt(o, blocks)))
            && Nodes.Step(o, n, ReindexEvent(now))
            == Node(Chain(n.chain.ledger, blocks), RebuildTxids(o, blocks, |blocks|, now), [])
  {
    hide NodeInv, AllWritable, Numbered, Replay, OpensInOrder, Replayed, FileOf, WrittenAt, RebuildTxids, PushTx,
         Produce;
    ReplaysToItself(o, n);
    LogOpensInOrder(o, n.chain.blocks);
    WholeReplays(o, n.chain.blocks, autoTrim);
  }

  lemma ReplaysToItself(o: Oracles, n: Node)
    requires NodeInv(o, n)
    ensures n.chain.blocks != [] && Replay(n.chain.blocks) == Some(n.chain.ledger)
  {
    hide Replay;
  }

  /** The log of a server at work, as the one that starts over will find it. */
  lemma LogStartsOver(m: Minter, autoTrim: bool, now: Clock)
    requires Running(m) && NodeInv(m.chain.o, m.State()) && AllWritable(m.State().chain.blocks)
    ensures var o, file, n := m.chain.o, m.chain.store.file, m.State();
            var r := Rebuilt(n.chain.blocks, n.chain.ledger, file, WrittenAt(o, n.chain.blocks));
            && file == FileOf(o, n.chain.blocks) && file != [] && OpensInOrder(o, file) && n.chain.blocks != []
            && Replayed(o, file, autoTrim) == Some(r)
            && Nodes.Step(o, n, ReindexEvent(now))
            == Node(Chain(r.funds, r.blocks), RebuildTxids(o, r.blocks, |r.blocks|, now), [])
  {
    hide NodeInv, AllWritable, OpensInOrder, Replayed, StoredBelow, FileOf, WrittenAt, Nodes.Step, RebuildTxids;
    LogReplays(m.chain.o, m.State(), autoTrim, now);
  }

  /** A new process over the log alone, the index having been deleted. */
  method StartOver(m: Minter, key: KeyPair, autoTrim: bool, now: Clock, enableStale: bool) returns (q: Option<Minter>)
    requires Running(m) && NodeInv(m.chain.o, m.State()) && AllWritable(m.State().chain.blocks)
    ensures q.Some? <==> IsMinter(m.State().chain.ledger, key)
    ensures q.Some? ==>
              && fresh(q.value) && fresh(q.value.receiptPool) && fresh(q.value.chain) && fresh(q.value.chain.store)
              && fresh(q.value.chain.indexer)
              && q.value.chain.o == m.chain.o && q.value.minterKey == key
              && q.value.enableStaleProduction == enableStale
              && Running(q.value)
              && q.value.State() == Nodes.Step(m.chain.o, m.State(), ReindexEvent(now))
  {
    hide NodeInv, AllWritable, OpensInOrder, Replayed, StoredBelow, FileOf, WrittenAt, RebuildTxids, Nodes.Step,
         BlockStore.Sound, BlockStore.Loaded, BlockStore.Synced, BlockStore.Persisted;
    LogStartsOver(m, autoTrim, now);
    var indexer := new Indexer();
    q := Start(m.chain.o, m.chain.store.file, indexer, key, Some(autoTrim), enableStale, [], now, []);
  }

  // ----- whole runs -----

  predicate Starts(e: Event) {
    e.RestartEvent? || e.ReindexEvent?
  }

  /** The key that the blocks from event `i` on are made with, up to the next start. */
  function NextKey(events: seq<Event>, i: nat, otherwise: KeyPair): KeyPair
    requires i <= |events|
    decreases |events| - i
  {
    if i == |events| || Starts(events[i]) then otherwise
    else if events[i].ProduceEvent? then events[i].kp
    else NextKey(events, i + 1, otherwise)
  }

  /** From event `i` on, a server with this key is given another only when it starts again. */
  predicate Keyed(events: seq<Event>, i: nat, key: KeyPair)
    requires i <= |events|
    decreases |events| - i
  {
    if i == |events| then true
    else
      match events[i]
      case PushEvent(_, _) => Keyed(events, i + 1, key)
      case ProduceEvent(kp, _, _, _) => kp == key && Keyed(events, i + 1, key)
      case RestartEvent => Keyed(events, i + 1, NextKey(events, i + 1, key))
      case ReindexEvent(_) => Keyed(events, i + 1, NextKey(events, i + 1, key))
  }

  lemma {:induction false} EarlierBlocks(o: Oracles, n: Node, events: seq<Event>, i: nat)
    requires n.chain.blocks != [] && i <= |events|
    ensures Run(o, n, events[..i]).chain.blocks <= Run(o, n, events).chain.blocks
    decreases |events|
  {
    if i == |events| {
      assert events[..i] == events;
    } else {
      hide Nodes.Step;
      var front := events[..|events| - 1];
      assert front[..i] == events[..i];
      EarlierBlocks(o, n, front, i);
      StepExtends(o, Run(o, n, front), events[|events| - 1]);
    }
  }

  lemma EarlierWritable(o: Oracles, n: Node, events: seq<Event>, i: nat)
    requires n.chain.blocks != [] && i <= |events| && AllWritable(Run(o, n, events).chain.blocks)
    ensures AllWritable(Run(o, n, events[..i]).chain.blocks)
  {
    hide Run, Writable;
    EarlierBlocks(o, n, events, i);
  }

  ghost predicate Employs(m: Minter, key: KeyPair)
    reads m.chain, m.chain.store, m.chain.indexer
  {
    IsMinter(m.chain.View().ledger, key)
  }

  /** One event, at the state `n`. A start is made with the key `next`, and does not succeed with
      another than the owner's. */
  method Do(m: Minter, o: Oracles, ghost n: Node, e: Event, next: KeyPair, autoTrim: bool) returns (q: Option<Minter>)
    requires At(m, o, n) && !m.enableStaleProduction && (e.ProduceEvent? ==> e.kp == m.minterKey)
    requires NodeInv(o, n) && AllWritable(n.chain.blocks)
    requires n.chain.blocks != [] && AllWritable(Nodes.Step(o, n, e).chain.blocks)
    modifies m.receiptPool, m.chain.store, m.chain.indexer
    ensures q.None? ==> Starts(e) && !Employs(m, next) && At(m, o, n)
    ensures q.Some? ==>
              && At(q.value, o, Nodes.Step(o, n, e))
              && q.value.minterKey == (if Starts(e) then next else m.minterKey) && !q.value.enableStaleProduction
              && (q.value.receiptPool == m.receiptPool || fresh(q.value.receiptPool))
              && (q.value.chain.store == m.chain.store || fresh(q.value.chain.store))
              && (q.value.chain.indexer == m.chain.indexer || fresh(q.value.chain.indexer))
  {
    hide NodeInv, Writable, PushTx, Nodes.Produce, Reindexed, StoredBelow, FileOf, WrittenAt, BlockStore.Sound,
         BlockStore.Loaded, BlockStore.Synced, BlockStore.Persisted, Blockchain.Recorded;
    match e {
      case PushEvent(tx, now) =>
        var _ := m.PushTx(tx, now);
        q := Some(m);
      case ProduceEvent(_, stale, purgeNow, blockNow) =>
        var _ := m.Produce(stale, purgeNow, blockNow);
        q := Some(m);
      case RestartEvent =>
        q := Restart(m, next, false);
      case ReindexEvent(now) =>
        q := StartOver(m, next, autoTrim, now, false);
    }
  }

  /** The run from genesis up to event `i`. */
  function Moment(o: Oracles, firstKey: KeyPair, keys: seq<PublicKey>, start: Clock, events: seq<Event>, i: nat):
    (n: Node)
    requires start + 1 < TWO_64 && i <= |events|
    ensures n.chain.blocks != []
  {
    Run(o, Genesis(o, firstKey, keys, start), events[..i])
  }

  /** Keys change only between processes, and every block of the run has a byte form. */
  predicate Servable(o: Oracles, firstKey: KeyPair, keys: seq<PublicKey>, start: Clock, events: seq<Event>) {
    && start + 1 < TWO_64 && Keyed(events, 0, firstKey)
    && AllWritable(Moment(o, firstKey, keys, start, events, |events|).chain.blocks)
  }

  /** A server from its first start on, doing what the events say, one process after another on the
      same files. Its objects are at each point the state of the run, and it serves all of it, unless
      it is to start again with a key that is not the owner's. */
  method Serve(o: Oracles, firstKey: KeyPair, keys: seq<PublicKey>, start: Clock, events: seq<Event>, autoTrim: bool)
    returns (m: Minter, done: nat)
    requires start + 1 < TWO_64 && Servable(o, firstKey, keys, start, events)
    ensures done <= |events| && At(m, o, Moment(o, firstKey, keys, start, events, done))
    ensures done < |events| ==> Starts(events[done]) && !Employs(m, NextKey(events, done + 1, m.minterKey))
  {
    hide NodeInv, AllWritable, Writable, Keyed, Genesis, Nodes.Step, GenesisBlock, Running, IsMinter, NextKey,
         Servable, Moment, At, Employs;
    FirstMoment(o, firstKey, keys, start, events);
    done := 0;
    m := StartNew(o, firstKey, keys, start);
    while done < |events|
      invariant done <= |events| && At(m, o, Moment(o, firstKey, keys, start, events, done)) && !m.enableStaleProduction
      invariant fresh(m.receiptPool) && fresh(m.chain.store) && fresh(m.chain.indexer)
      invariant Keyed(events, done, m.minterKey)
    {
      NextMoment(o, firstKey, keys, start, events, done);
      KeyedNext(events, done, m.minterKey);
      ghost var n := Moment(o, firstKey, keys, start, events, done);
      var q := Do(m, o, n, events[done], NextKey(events, done + 1, m.minterKey), autoTrim);
      if q.None? {
        return;
      }
      m, done := q.value, done + 1;
    }
  }

  lemma FirstMoment(o: Oracles, kp: KeyPair, keys: seq<PublicKey>, start: Clock, events: seq<Event>)
    requires start + 1 < TWO_64 && Servable(o, kp, keys, start, events)
    ensures Writable(GenesisBlock(o, kp, keys, start)) && Keyed(events, 0, kp)
    ensures Moment(o, kp, keys, start, events, 0) == Genesis(o, kp, keys, start)
  {
    hide Writable, GenesisBlock, GenesisWallet;
    var g := Genesis(o, kp, keys, start);
    assert events[..0] == [] && events[..|events|] == events;
    EarlierWritable(o, g, events, 0);
    assert GenesisBlock(o, kp, keys, start) in g.chain.blocks;
  }

  /** What the next event of the run meets and leaves. */
  lemma NextMoment(o: Oracles, kp: KeyPair, keys: seq<PublicKey>, start: Clock, events: seq<Event>, i: nat)
    requires start + 1 < TWO_64 && Servable(o, kp, keys, start, events) && i < |events|
    ensures var n := Moment(o, kp, keys, start, events, i);
            && NodeInv(o, n) && AllWritable(n.chain.blocks)
            && Moment(o, kp, keys, start, events, i + 1) == Nodes.Step(o, n, events[i])
            && AllWritable(Nodes.Step(o, n, events[i]).chain.blocks)
  {
    var g := Genesis(o, kp, keys, start);
    assert events[..|events|] == events;
    GenesisInv(o, kp, keys, start);
    hide NodeInv, AllWritable, Genesis, Run, Nodes.Step;
    NodeInvChain(o, g);
    Runs.RunKeeps(o, g, events[..i]);
    EarlierWritable(o, g, events, i);
    EarlierWritable(o, g, events, i + 1);
    RunSnoc(o, g, events, i);
  }

  lemma KeyedNext(events: seq<Event>, i: nat, key: KeyPair)
    requires i < |events| && Keyed(events, i, key)
    ensures events[i].ProduceEvent? ==> events[i].kp == key
    ensures Keyed(events, i + 1, if Starts(events[i]) then NextKey(events, i + 1, key) else key)
  {
  }
}
