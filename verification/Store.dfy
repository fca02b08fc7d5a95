// The block store: the append-only log, its cache of recent blocks, and the rebuild of the index
// from the log (blockchain/store.rs).

module Stores {
  import opened Wrappers
  import opened Numbers
  import opened Serializer
  import opened Crypto
  import opened Blocks
  import opened Ledgers
  import opened Nodes
  import opened Frames
  import opened Caches
  import opened Indexes

  /** A block that was found, none, or a checksum that ends the process. */
  datatype BlockRead = Found(block: Block) | Missing | ReadPanicked

  predicate ReadsAs(o: Oracles, file: seq<byte>, pos: nat, b: Block) {
    var r := RawRead(o, file, pos);
    r.ReadOk? && r.block == b
  }

  lemma ReadsAsAppended(o: Oracles, file: seq<byte>, more: seq<byte>, pos: nat, b: Block)
    requires ReadsAs(o, file, pos, b)
    ensures ReadsAs(o, file + more, pos, b)
  {
    var next := RawRead(o, file, pos).next;
    ReadWithin(o, file, pos);
    assert (file + more)[..next] == file[..next];
    ReadIsLocal(o, file, file + more, pos);
  }

  lemma ReadWithin(o: Oracles, file: seq<byte>, pos: nat)
    requires RawRead(o, file, pos).ReadOk?
    ensures pos + META <= RawRead(o, file, pos).next <= |file|
  {
  }

  // ----- what can be read -----

  /** The block at `h` can be read through the index. */
  predicate StoredAt(o: Oracles, file: seq<byte>, bytePos: map<nat, nat>, log: seq<Block>, h: nat)
    requires h < |log|
  {
    h in bytePos && ReadsAs(o, file, bytePos[h], log[h])
  }

  predicate StoredBelow(o: Oracles, file: seq<byte>, bytePos: map<nat, nat>, log: seq<Block>, n: nat)
    requires n <= |log|
  {
    forall h | 0 <= h < n :: StoredAt(o, file, bytePos, log, h)
  }

  lemma Appended(o: Oracles, file: seq<byte>, bytePos: map<nat, nat>, log: seq<Block>, b: Block)
    requires StoredBelow(o, file, bytePos, log, |log|)
    ensures StoredBelow(o, file + Frame(o, b), bytePos, log + [b], |log|)
  {
    hide Frame, RawRead, IsFrame, ReadsAs;
    forall h | 0 <= h < |log| ensures StoredAt(o, file + Frame(o, b), bytePos, log + [b], h) {
      assert StoredAt(o, file, bytePos, log, h);
      ReadsAsAppended(o, file, Frame(o, b), bytePos[h], log[h]);
    }
  }

  lemma AppendedReads(o: Oracles, file: seq<byte>, b: Block)
    requires Writable(b)
    ensures ReadsAs(o, file + Frame(o, b), |file|, b)
  {
    hide Frame, Writable, RawRead, IsFrame;
    FrameIsFrame(o, b);
    var f := Frame(o, b);
    assert (file + f)[|file|..] == f;
    ReadsFrame(o, file + f, |file|, f, b);
  }

  /** After the position of the last block is committed, every block can be read. */
  lemma Committed(o: Oracles, file: seq<byte>, bytePos: map<nat, nat>, log: seq<Block>, pos: nat)
    requires log != [] && StoredBelow(o, file, bytePos, log, |log| - 1) && ReadsAs(o, file, pos, log[|log| - 1])
    ensures StoredBelow(o, file, bytePos + map[|log| - 1 := pos], log, |log|)
  {
    hide ReadsAs;
    var bytePos' := bytePos + map[|log| - 1 := pos];
    forall h | 0 <= h < |log| ensures StoredAt(o, file, bytePos', log, h) {
      if h < |log| - 1 {
        assert StoredAt(o, file, bytePos, log, h);
      }
    }
  }

  lemma NumberedSnoc(log: seq<Block>, b: Block)
    requires Numbered(log) && b.header.height == |log|
    ensures Numbered(log + [b])
  {
  }

  /** The lowest height that is loaded into the cache. */
  function Oldest(height: nat): nat {
    if height >= MAX_CACHE_SIZE then height - MAX_CACHE_SIZE else 0
  }

  /** Loading does not stop the process: the first block has no wrong checksum and, over a complete
      index of a log that is not empty, every block to be cached can be read. */
  predicate CanLoad(o: Oracles, file: seq<byte>, bytePos: map<nat, nat>, height: nat, complete: bool) {
    && !(0 in bytePos && RawRead(o, file, bytePos[0]).ReadPanic?)
    && (complete && file != [] ==>
          forall h | Oldest(height) <= h <= height :: h in bytePos && RawRead(o, file, bytePos[h]).ReadOk?)
  }

  // ----- reindexing -----

  /** Whatever a scan has found can be read through the positions it noted. */
  lemma ScanStored(o: Oracles, file: seq<byte>)
    requires Numbered(BlocksOf(Scan(o, file, 0, 0).found))
    ensures var s := Scan(o, file, 0, 0);
            StoredBelow(o, Trimmed(file, s.end), PositionsOf(s.found), BlocksOf(s.found), |s.found|)
  {
    var s := Scan(o, file, 0, 0);
    var kept := Trimmed(file, s.end);
    FoundIsNumbered(s.found);
    hide Scan, RawRead, PositionsOf, BlocksOf, Trimmed, StoredAt;
    PositionsByHeight(s.found);
    forall h | 0 <= h < |s.found|
      ensures StoredAt(o, kept, PositionsOf(s.found), BlocksOf(s.found), h)
    {
      KeptReads(o, file, h);
      StoredFrom(o, kept, PositionsOf(s.found), BlocksOf(s.found), h);
    }
  }

  lemma FoundIsNumbered(found: seq<(nat, Block)>)
    requires Numbered(BlocksOf(found))
    ensures forall h | 0 <= h < |found| :: found[h].1.header.height == h
  {
    hide BlocksOf;
    forall h | 0 <= h < |found| ensures found[h].1.header.height == h {
      assert BlocksOf(found)[h] == found[h].1;
    }
  }

  lemma StoredFrom(o: Oracles, file: seq<byte>, bytePos: map<nat, nat>, log: seq<Block>, h: nat)
    requires h < |log| && h in bytePos && ReadsAs(o, file, bytePos[h], log[h])
    ensures StoredAt(o, file, bytePos, log, h)
  {
  }

  lemma KeptReads(o: Oracles, file: seq<byte>, h: nat)
    requires h < |Scan(o, file, 0, 0).found|
    ensures var s := Scan(o, file, 0, 0);
            ReadsAs(o, Trimmed(file, s.end), s.found[h].0, s.found[h].1)
  {
    hide Scan, RawRead;
    ScanReads(o, file, 0, 0);
    var s := Scan(o, file, 0, 0);
    var pos, kept := s.found[h].0, Trimmed(file, s.end);
    var next := RawRead(o, file, pos).next;
    assert file[..next] == kept[..next];
    ReadIsLocal(o, file, kept, pos);
  }

  /** A failure to index one block is a failure to index them all. */
  lemma {:induction false} ApplyBlocksFails(l: Ledger, blocks: seq<Block>, k: nat)
    requires k <= |blocks| && ApplyBlocks(l, blocks[..k]).None?
    ensures ApplyBlocks(l, blocks).None?
    decreases |blocks| - k
  {
    if k == |blocks| {
      assert blocks[..k] == blocks;
    } else {
      assert blocks[..k + 1][..k] == blocks[..k];
      ApplyBlocksFails(l, blocks, k + 1);
    }
  }

  /** What reindexing a file is meant to come to: the blocks found, and the funds after them. */
  datatype Rebuilt = Rebuilt(blocks: seq<Block>, funds: Ledger, file: seq<byte>, positions: map<nat, nat>)

  function Rebuild(o: Oracles, funds: Ledger, file: seq<byte>, autoTrim: bool): Option<Rebuilt> {
    var s := Scan(o, file, 0, 0);
    if s.end.ScanPanic? || (s.end.ScanBad? && !autoTrim) then None
    else
      var blocks := BlocksOf(s.found);
      var l :- ApplyBlocks(funds, blocks);
      Some(Rebuilt(blocks, l, Trimmed(file, s.end), PositionsOf(s.found)))
  }

  /** The height stored for a chain of these blocks; without any it is 0. */
  function HeightOf(blocks: seq<Block>): nat {
    if blocks == [] then 0 else blocks[|blocks| - 1].header.height
  }

  function LastHeightOf(blocks: seq<Block>): Option<u64> {
    if blocks == [] then None else Some(blocks[|blocks| - 1].header.height)
  }

  /** What is rebuilt can be read back. */
  lemma RebuiltStored(o: Oracles, funds: Ledger, file: seq<byte>, autoTrim: bool)
    requires Rebuild(o, funds, file, autoTrim).Some? && Numbered(Rebuild(o, funds, file, autoTrim).value.blocks)
    ensures var r := Rebuild(o, funds, file, autoTrim).value;
            StoredBelow(o, r.file, r.positions, r.blocks, |r.blocks|)
  {
    hide Scan, StoredBelow, PositionsOf;
    ScanStored(o, file);
  }

  /** There are blocks and they are numbered from 0, exactly if the first two frames of the file are. */
  lemma RebuiltInOrderIff(o: Oracles, funds: Ledger, file: seq<byte>, autoTrim: bool)
    requires Rebuild(o, funds, file, autoTrim).Some?
    ensures var blocks := Rebuild(o, funds, file, autoTrim).value.blocks;
            blocks != [] && Numbered(blocks) <==> OpensInOrder(o, file)
  {
    hide Scan, OpensInOrder, Numbered, ApplyBlocks, PositionsOf, Trimmed;
    FoundInOrderIff(o, file);
  }

  // ----- the loop of a scan -----

  /** So far `found` has been read, and the scan goes on from `pos`. */
  ghost predicate Progress(o: Oracles, file: seq<byte>, found: seq<(nat, Block)>, pos: nat, last: nat) {
    var rest := Scan(o, file, pos, last);
    Scan(o, file, 0, 0) == Scanned(found + rest.found, rest.end)
  }

  lemma StartOfScan(o: Oracles, file: seq<byte>, funds: Ledger)
    ensures Progress(o, file, [], 0, 0)
    ensures ApplyBlocks(funds, BlocksOf([])) == Some(funds) && PositionsOf([]) == map[]
  {
    hide Scan;
    var s := Scan(o, file, 0, 0);
    assert [] + s.found == s.found;
  }

  lemma ScanGoesOn(o: Oracles, file: seq<byte>, found: seq<(nat, Block)>, pos: nat, last: nat)
    requires Progress(o, file, found, pos, last)
    requires RawRead(o, file, pos).ReadOk? && Follows(last, RawRead(o, file, pos).block.header.height)
    ensures var r := RawRead(o, file, pos);
            Progress(o, file, found + [(pos, r.block)], r.next, r.block.header.height)
  {
    hide RawRead;
    var r := RawRead(o, file, pos);
    var rest := Scan(o, file, r.next, r.block.header.height);
    assert Scan(o, file, pos, last) == Scanned([(pos, r.block)] + rest.found, rest.end);
    hide Scan;
    assert found + ([(pos, r.block)] + rest.found) == found + [(pos, r.block)] + rest.found;
  }

  /** How a scan ends where this is read and no further block is taken. */
  function EndOf(r: ReadResult, pos: nat): ScanEnd {
    if r.ReadEof? then ScanEof else if r.ReadPanic? then ScanEnd.ScanPanic else ScanBad(pos)
  }

  lemma ScanEnds(o: Oracles, file: seq<byte>, found: seq<(nat, Block)>, pos: nat, last: nat)
    requires Progress(o, file, found, pos, last)
    requires var r := RawRead(o, file, pos); !r.ReadOk? || !Follows(last, r.block.header.height)
    ensures Scan(o, file, 0, 0) == Scanned(found, EndOf(RawRead(o, file, pos), pos))
  {
    hide RawRead;
    assert found + [] == found;
  }

  lemma FoundNext(funds: Ledger, found: seq<(nat, Block)>, pos: nat, b: Block)
    ensures var more := found + [(pos, b)];
            && PositionsOf(more) == PositionsOf(found)[b.header.height := pos]
            && LastHeightOf(BlocksOf(more)) == Some(b.header.height)
            && ApplyBlocks(funds, BlocksOf(more))
            == if ApplyBlocks(funds, BlocksOf(found)).Some? then ApplyBlock(ApplyBlocks(funds, BlocksOf(found)).value, b)
               else None
  {
    hide ApplyBlock, BlocksOf, PositionsOf;
    FoundSnoc(found, pos, b);
    assert (BlocksOf(found) + [b])[..|found|] == BlocksOf(found);
  }

  lemma IndexingFails(o: Oracles, funds: Ledger, file: seq<byte>, found: seq<(nat, Block)>, pos: nat, last: nat,
                      autoTrim: bool)
    requires Progress(o, file, found, pos, last) && ApplyBlocks(funds, BlocksOf(found)).None?
    ensures Rebuild(o, funds, file, autoTrim).None?
  {
    hide Scan, ApplyBlocks, BlocksOf;
    var all := BlocksOf(Scan(o, file, 0, 0).found);
    assert all[..|found|] == BlocksOf(found);
    ApplyBlocksFails(funds, all, |found|);
  }

  class BlockStore {
    const o: Oracles
    const indexer: Indexer
    var height: u64
    var blocks: map<nat, Block>
    var genesisBlock: Option<Block>
    var file: seq<byte>
    var bytePosTail: nat
    ghost var log: seq<Block>   // the blocks written, oldest first
    ghost var first: nat        // the lowest height since which every block has been cached

    ghost predicate Synced()
      reads this, indexer
    {
      log != [] && indexer.height == |log| - 1 && StoredBelow(o, file, indexer.bytePos, log, |log|)
    }

    /** Every written block can be had, from the cache or from the log. */
    ghost predicate Sound()
      reads this, indexer
    {
      && Numbered(log)
      && log != [] && height == |log| - 1
      && (genesisBlock.Some? ==> genesisBlock.value == log[0])
      && Cached(blocks, log)
      && (forall h | 0 < h < |log| && h !in blocks :: StoredAt(o, file, indexer.bytePos, log, h))
      && (genesisBlock.None? && 0 !in blocks ==> StoredAt(o, file, indexer.bytePos, log, 0))
    }

    /** What the store holds in memory is right. */
    ghost predicate Loaded()
      reads this
    {
      && Numbered(log) && log != [] && height == |log| - 1
      && genesisBlock == Some(log[0]) && CacheOf(blocks, log, first)
    }

    ghost predicate Valid()
      reads this, indexer
    {
      Sound() && Loaded() && bytePosTail == |file|
    }

    lemma SyncedIsValid()
      requires Loaded() && bytePosTail == |file| && Synced()
      ensures Valid()
    {
      hide CacheOf, Cached, Numbered, StoredAt;
      CacheIsCached(blocks, log, first);
    }

    /** Memory being right, only the newest block need not be readable: it is in memory itself. */
    lemma LoadedIsSound()
      requires Loaded() && StoredBelow(o, file, indexer.bytePos, log, |log| - 1)
      ensures Sound()
    {
      hide Cached, Numbered, StoredAt;
    }

    /** Nothing is known of the blocks in the file. */
    ghost predicate Blank()
      reads this, indexer
    {
      && log == [] && height == 0 && blocks == map[] && genesisBlock == None && bytePosTail == |file|
      && indexer.bytePos == map[] && indexer.height == 0 && indexer.status == NoIndex
    }

    /** A complete index of the blocks `written` in the file, before anything is loaded. */
    ghost predicate Loadable(written: seq<Block>)
      reads this, indexer
    {
      && blocks == map[] && genesisBlock == None && bytePosTail == |file|
      && Persisted(o, file, indexer, written)
    }

    static ghost predicate Persisted(o: Oracles, file: seq<byte>, indexer: Indexer, written: seq<Block>)
      reads indexer
    {
      && Numbered(written) && written != []
      && indexer.height == |written| - 1 && indexer.status == Complete
      && StoredBelow(o, file, indexer.bytePos, written, |written|)
    }

    /** Opening: a complete index is loaded; with no index, nothing is. */
    constructor (o: Oracles, file: seq<byte>, indexer: Indexer, ghost written: seq<Block>)
      ensures this.o == o && this.indexer == indexer && this.file == file
      ensures Persisted(o, file, indexer, written) ==> Valid() && Synced() && log == written
      ensures indexer.bytePos == map[] && indexer.height == 0 && indexer.status == NoIndex ==> Blank()
    {
      this.o, this.indexer := o, indexer;
      height, blocks, genesisBlock := 0, map[], None;
      this.file, bytePosTail := file, |file|;
      log, first := [], 0;
      new;
      var _ := InitState(written);
    }

    method ReadFromDisk(h: u64) returns (r: BlockRead)
      ensures h > height || h !in indexer.bytePos ==> r == Missing
      ensures h <= height && h in indexer.bytePos ==>
                var raw := RawRead(o, file, indexer.bytePos[h]);
                r == if raw.ReadOk? then Found(raw.block) else if raw.ReadPanic? then ReadPanicked else Missing
    {
      if h > height || h !in indexer.bytePos {
        return Missing;
      }
      match RawRead(o, file, indexer.bytePos[h])
      case ReadOk(b, _) => r := Found(b);
      case ReadPanic => r := ReadPanicked;
      case ReadEof | ReadCorrupt => r := Missing;
    }

    /** The block at height `h`: the one written there, and nothing above the height. */
    method Get(h: u64) returns (r: BlockRead)
      ensures Sound() ==> r == if h < |log| then Found(log[h]) else Missing
      ensures Blank() ==> r == Missing
      ensures blocks == map[] && genesisBlock == None && h == 0 ==>
                (r.ReadPanicked? <==> 0 in indexer.bytePos && RawRead(o, file, indexer.bytePos[0]).ReadPanic?)
    {
      if h > height {
        return Missing;
      } else if h == 0 && genesisBlock.Some? {
        return Found(genesisBlock.value);
      }
      if h in blocks {
        r := Found(blocks[h]);
      } else {
        r := ReadFromDisk(h);
      }
    }

    /** Caches the blocks from `min` up to the height; fails when one of them cannot be read. */
    method FillCache(min: u64) returns (ok: bool)
      modifies this`blocks
      ensures ok <==> forall h | min <= h <= height :: OnDisk(h).Some?
      ensures ok && min <= height ==> Range(blocks, min, height + 1)
      ensures ok ==> forall h: nat | min <= h <= height :: h in blocks && Some(blocks[h]) == OnDisk(h)
    {
      hide RawRead, Range;
      blocks := map[];
      RangeEmpty<Block>(min);
      var h := min;
      while h <= height
        invariant min <= h
        invariant h <= height + 1 || (h == min && blocks == map[])
        invariant Range(blocks, min, h)
        invariant forall k: nat | min <= k < h :: k in blocks && Some(blocks[k]) == OnDisk(k)
      {
        var r := ReadFromDisk(h);
        if !r.Found? {
          assert OnDisk(h).None?;
          return false;
        }
        RangeNext(blocks, min, h, r.block);
        blocks := blocks[h := r.block];
        h := h + 1;
      }
      ok := true;
    }

    /** What the index and the log hold at a height. */
    ghost function OnDisk(h: nat): Option<Block>
      reads indexer, this`file
    {
      if h !in indexer.bytePos then None
      else
        var r := RawRead(o, file, indexer.bytePos[h]);
        if r.ReadOk? then Some(r.block) else None
    }

    /** Fails when a block within the cached range cannot be read. */
    method InitState(ghost written: seq<Block>) returns (ok: bool)
      modifies this`height, this`blocks, this`genesisBlock, this`log, this`first
      ensures old(Loadable(written)) ==> ok && Valid() && Synced() && log == written
      ensures old(Blank()) ==> ok && Blank()
      ensures old(blocks == map[] && genesisBlock == None) ==>
                (ok <==> CanLoad(o, file, indexer.bytePos, indexer.height, indexer.status == Complete))
      ensures ok ==> height == indexer.height
    {
      hide RawRead, Writable;
      ghost var loadable := Loadable(written);
      height := indexer.height;
      if loadable {
        log, first := written, 0;
        OnDiskAll(written);
      }
      var g := Get(0);
      if g.ReadPanicked? {
        return false;
      }
      genesisBlock := if g.Found? then Some(g.block) else None;
      if file != [] && indexer.status == Complete {
        var min := Oldest(height);
        ok := FillCache(min);
        WindowOnDisk(min, height);
        if !ok {
          return;
        }
        if loadable {
          CacheLoaded(blocks, log, min);
        }
      }
      if loadable {
        SyncedIsValid();
      }
      ok := true;
      hide Sound, CacheOf, Cached;
    }

    lemma WindowOnDisk(lo: nat, hi: nat)
      ensures (forall h | lo <= h <= hi :: OnDisk(h).Some?)
         <==> (forall h | lo <= h <= hi :: h in indexer.bytePos && RawRead(o, file, indexer.bytePos[h]).ReadOk?)
    {
      hide RawRead;
      if forall h | lo <= h <= hi :: OnDisk(h).Some? {
        forall h | lo <= h <= hi
          ensures h in indexer.bytePos && RawRead(o, file, indexer.bytePos[h]).ReadOk?
        {
          assert OnDisk(h).Some?;
        }
      }
    }

    lemma OnDiskAll(written: seq<Block>)
      requires Persisted(o, file, indexer, written)
      ensures file != []
      ensures forall h | 0 <= h < |written| :: OnDisk(h) == Some(written[h])
    {
      hide RawRead;
      forall h | 0 <= h < |written| ensures OnDisk(h) == Some(written[h]) {
        assert StoredAt(o, file, indexer.bytePos, written, h);
      }
      assert StoredAt(o, file, indexer.bytePos, written, 0);
      ReadWithin(o, file, indexer.bytePos[0]);
    }

    /** The tail moves by the length as it stands in the frame, cast to 32 bits. */
    method WriteToDisk(b: Block)
      requires b.signer.Some?
      modifies this`file, this`bytePosTail
      ensures file == old(file) + Frame(o, b)
      ensures Writable(b) ==> bytePosTail == old(bytePosTail) + |Frame(o, b)|
      ensures bytePosTail == old(bytePosTail) + META + |EncBlock(b)| % 0x1_0000_0000
    {
      hide EncU32, EncBlock;
      var bytes := EncBlock(b);
      var len := |bytes| % 0x1_0000_0000;
      file := file + (EncU32(len) + (EncU32(o.crc(bytes)) + bytes));
      bytePosTail := bytePosTail + len + META;
    }

    /** When the cache is over its size, the block a hundred heights down leaves it. */
    method Cache(b: Block)
      requires |blocks[height := b]| > MAX_CACHE_SIZE ==> height >= MAX_CACHE_SIZE && height - MAX_CACHE_SIZE in blocks
      modifies this`blocks
      ensures blocks == CacheAfter(old(blocks), height, b)
    {
      blocks := blocks[height := b];
      if |blocks| > MAX_CACHE_SIZE {
        blocks := blocks - {height - MAX_CACHE_SIZE};
      }
    }

    /** Appends the next block. The block that has to leave the cache is always there to leave. A
        block whose length does not fit its frame is cached all the same, but is not read back. */
    method Insert(batch: WriteBatch, b: Block)
      requires Valid() && Synced() && b.header.height == height + 1 && b.signer.Some?
      modifies this, batch`bytePos, batch`height
      ensures Sound() && Loaded() && log == old(log) + [b] && file == old(file) + Frame(o, b)
      ensures Writable(b) ==> Valid() && ReadsAs(o, file, old(|file|), b)
      ensures StoredBelow(o, file, indexer.bytePos, log, |log| - 1)
      ensures batch.bytePos == old(batch.bytePos)[b.header.height := old(|file|)]
      ensures batch.height == Some(b.header.height)
    {
      hide Frame, Writable, RawRead, ReadsAs, CacheOf, CacheAfter, Numbered, StoredBelow, EncBlock;
      var pos := bytePosTail;
      Appended(o, file, indexer.bytePos, log, b);
      if Writable(b) {
        AppendedReads(o, file, b);
      }
      CacheNext(blocks, log, first, b);
      NumberedSnoc(log, b);
      WriteToDisk(b);
      height := b.header.height;
      batch.SetBlockBytePos(height, pos);
      batch.SetChainHeight(height);
      Cache(b);
      log := log + [b];
      LoadedIsSound();
      hide Sound;
    }

    /** The first block of an empty log. Its height is not recorded in the batch. */
    method InsertGenesis(batch: WriteBatch, b: Block)
      requires Blank() && file == [] && b.header.height == 0 && b.signer.Some?
      modifies this, batch`bytePos
      ensures Sound() && Loaded() && log == [b] && file == Frame(o, b)
      ensures Writable(b) ==> Valid() && ReadsAs(o, file, 0, b)
      ensures batch.bytePos == old(batch.bytePos)[0 := 0]
    {
      hide Frame, Writable, RawRead, ReadsAs, EncBlock, StoredAt;
      WriteToDisk(b);
      if Writable(b) {
        AppendedReads(o, [], b);
      }
      assert [] + Frame(o, b) == Frame(o, b);
      genesisBlock := Some(b);
      batch.SetBlockBytePos(0, 0);
      log, first := [b], 1;
      LoadedIsSound();
      hide Sound;
    }

    /** The loop over the log, into one batch. Fails where the process would stop: at a wrong
        checksum, at corruption that must not be trimmed, or when a block cannot be indexed. */
    method ReindexInto(batch: WriteBatch, autoTrim: bool) returns (ok: bool)
      requires bytePosTail == |file| && batch.bytePos == map[] && batch.height == None
      modifies this`file, this`bytePosTail, batch
      ensures ok == Rebuild(o, old(batch.View()), old(file), autoTrim).Some?
      ensures ok ==>
                var r := Rebuild(o, old(batch.View()), old(file), autoTrim).value;
                && file == r.file && bytePosTail == |file|
                && batch.View() == r.funds && batch.bytePos == r.positions
                && batch.height == LastHeightOf(r.blocks)
    {
      hide RawRead, ApplyBlock, Scan, Progress, BlocksOf, PositionsOf;
      var last, pos := 0, 0;
      ghost var found: seq<(nat, Block)> := [];
      ghost var funds := batch.View();
      StartOfScan(o, file, funds);
      var bad := false;
      while true
        invariant pos <= |file|
        invariant Progress(o, file, found, pos, last)
        invariant ApplyBlocks(funds, BlocksOf(found)) == Some(batch.View())
        invariant batch.bytePos == PositionsOf(found)
        invariant batch.height == LastHeightOf(BlocksOf(found))
        decreases |file| - pos
        modifies batch
      {
        var read := RawRead(o, file, pos);
        if read.ReadPanic? {
          ScanEnds(o, file, found, pos, last);
          return false;
        }
        if !read.ReadOk? || !Follows(last, read.block.header.height) {
          bad := !read.ReadEof?;
          break;
        }
        var b := read.block;
        ReadWithin(o, file, pos);
        ScanGoesOn(o, file, found, pos, last);
        batch.SetBlockBytePos(b.header.height, pos);
        batch.SetChainHeight(b.header.height);
        FoundNext(funds, found, pos, b);
        found := found + [(pos, b)];
        last, pos := b.header.height, read.next;
        ok := IndexBlock(batch, b);
        if !ok {
          IndexingFails(o, funds, file, found, pos, last, autoTrim);
          return;
        }
      }
      ScanEnds(o, file, found, pos, last);
      if bad {
        if !autoTrim {
          return false;
        }
        file, bytePosTail := file[..pos], pos;
      }
      ok := true;
    }

    /** Rebuilds the index from the log: one batch over all the blocks and one commit, after which
        the blocks found are the blocks of the store. */
    method ReindexBlocks(autoTrim: bool) returns (ok: bool)
      requires Blank()
      modifies this, indexer
      ensures Rebuild(o, old(indexer.Funds()), old(file), autoTrim).None? ==> !ok
      ensures var r := Rebuild(o, old(indexer.Funds()), old(file), autoTrim);
              r.Some? ==>
                && file == r.value.file && indexer.Funds() == r.value.funds && indexer.bytePos == r.value.positions
                && indexer.height == HeightOf(r.value.blocks)
                && indexer.txids == old(indexer.txids) && indexer.status == Complete
                && (ok <==> CanLoad(o, r.value.file, r.value.positions, HeightOf(r.value.blocks), true))
      ensures var r := Rebuild(o, old(indexer.Funds()), old(file), autoTrim);
              r.Some? && OpensInOrder(o, old(file)) ==>
                ok && Valid() && Synced() && log == r.value.blocks
    {
      hide Rebuild, RawRead, OpensInOrder;
      var batch := new WriteBatch(indexer);
      ghost var r := Rebuild(o, indexer.Funds(), file, autoTrim);
      ok := ReindexInto(batch, autoTrim);
      if !ok {
        return;
      }
      batch.Commit();
      assert map[] + batch.bytePos == batch.bytePos;
      indexer.status := Complete;
      RebuiltInOrderIff(o, old(indexer.Funds()), old(file), autoTrim);
      if OpensInOrder(o, old(file)) {
        RebuiltStored(o, old(indexer.Funds()), old(file), autoTrim);
      }
      ok := InitState(r.value.blocks);
    }
  }
}
