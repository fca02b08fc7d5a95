// The block log as bytes: how frames are written and read, and what a scan of a damaged log finds
// (blockchain/store.rs).

module Frames {
  import opened Numbers
  import opened Serializer
  import opened Crypto
  import opened Blocks

  const META := 8

  /** A block whose bytes can be read back, their number fitting the frame's length. */
  predicate Writable(b: Block) {
    BlockFits(b) && |EncBlock(b)| < 0x1_0000_0000
  }

  /** Length, checksum and the bytes of the block. An unsigned block has none and is never written. */
  function Frame(o: Oracles, b: Block): seq<byte> {
    if b.signer.None? then []
    else
      var bytes := EncBlock(b);
      EncU32(|bytes| % 0x1_0000_0000) + (EncU32(o.crc(bytes)) + bytes)
  }

  // ----- reading -----

  /** A block and where the next frame starts; a checksum that is wrong ends the process. */
  datatype ReadResult = ReadOk(block: Block, next: nat) | ReadEof | ReadCorrupt | ReadPanic

  function RawRead(o: Oracles, file: seq<byte>, pos: nat): ReadResult {
    if pos + META > |file| then ReadEof
    else
      var len := DecU32(file[pos..pos + 4]);
      var crc := DecU32(file[pos + 4..pos + META]);
      if pos + META + len > |file| then ReadCorrupt
      else
        var bytes := file[pos + META..pos + META + len];
        if crc != o.crc(bytes) then ReadPanic
        else
          match TakeBlock(bytes)
          case NotParsed => ReadCorrupt
          case Parsed(b, _) => ReadOk(b, pos + META + len)
  }

  /** The file has the bytes `s` at `pos`. */
  predicate At(file: seq<byte>, pos: nat, s: seq<byte>) {
    pos <= |file| && s <= file[pos..]
  }

  lemma AtSlice(file: seq<byte>, pos: nat, s: seq<byte>, i: nat, j: nat)
    requires At(file, pos, s) && i <= j <= |s|
    ensures pos + |s| <= |file| && file[pos + i..pos + j] == s[i..j]
  {
    assert s == file[pos..][..|s|];
  }

  /** The bytes of a frame, as a reader sees them. */
  predicate IsFrame(o: Oracles, f: seq<byte>, b: Block) {
    && |f| >= META
    && DecU32(f[..4]) == |f| - META
    && DecU32(f[4..META]) == o.crc(f[META..])
    && TakeBlock(f[META..]) == Parsed(b, [])
  }

  lemma FrameIsFrame(o: Oracles, b: Block)
    requires Writable(b)
    ensures IsFrame(o, Frame(o, b), b)
  {
    TakeBlockOf(b, []);
    var bytes := EncBlock(b);
    FrameUnfolds(o, b);
    hide EncBlock, BlockFits, TakeBlock, Frame;
    assert bytes + [] == bytes;
    BytesFramed(o, bytes, b);
  }

  lemma FrameUnfolds(o: Oracles, b: Block)
    requires Writable(b)
    ensures Frame(o, b) == EncU32(|EncBlock(b)|) + (EncU32(o.crc(EncBlock(b))) + EncBlock(b))
  {
    hide EncU32, EncSigPair, EncReceipts, EncBlockHeader;
  }

  lemma BytesFramed(o: Oracles, bytes: seq<byte>, b: Block)
    requires |bytes| < 0x1_0000_0000 && TakeBlock(bytes) == Parsed(b, [])
    ensures IsFrame(o, EncU32(|bytes|) + (EncU32(o.crc(bytes)) + bytes), b)
  {
    hide EncU32, DecU32, TakeBlock;
    FrameParts(EncU32(|bytes|), EncU32(o.crc(bytes)), bytes);
    U32RoundTrip(|bytes|);
    U32RoundTrip(o.crc(bytes));
  }

  lemma FrameParts(len: seq<byte>, crc: seq<byte>, bytes: seq<byte>)
    requires |len| == 4 && |crc| == 4
    ensures var f := len + (crc + bytes);
            |f| == META + |bytes| && f[..4] == len && f[4..META] == crc && f[META..] == bytes
  {
  }

  lemma ReadsFrame(o: Oracles, file: seq<byte>, pos: nat, f: seq<byte>, b: Block)
    requires IsFrame(o, f, b) && At(file, pos, f)
    ensures RawRead(o, file, pos) == ReadOk(b, pos + |f|)
  {
    hide DecU32, TakeBlock;
    AtSlice(file, pos, f, 0, 4);
    AtSlice(file, pos, f, 4, META);
    AtSlice(file, pos, f, META, |f|);
    hide At;
    assert f[0..4] == f[..4] && f[META..|f|] == f[META..];
  }

  /** A frame cut short is the end of the file, or corrupt once its first eight bytes are there. */
  lemma ReadsTorn(o: Oracles, file: seq<byte>, pos: nat, f: seq<byte>, b: Block, m: nat)
    requires IsFrame(o, f, b) && m < |f| && pos + m == |file| && At(file, pos, f[..m])
    ensures RawRead(o, file, pos) == if m < META then ReadEof else ReadCorrupt
  {
    hide DecU32, TakeBlock;
    if m >= META {
      AtSlice(file, pos, f[..m], 0, 4);
      hide At;
      assert f[..m][0..4] == f[..4];
    }
  }

  /** A read depends only on the bytes it consumes. */
  lemma ReadIsLocal(o: Oracles, file: seq<byte>, file': seq<byte>, pos: nat)
    requires RawRead(o, file, pos).ReadOk?
    requires var next := RawRead(o, file, pos).next; next <= |file'| && file[..next] == file'[..next]
    ensures RawRead(o, file', pos) == RawRead(o, file, pos)
  {
    hide TakeBlock, DecU32;
    var next := RawRead(o, file, pos).next;
    assert forall i, j | 0 <= i <= j <= next :: file[i..j] == file[..next][i..j] && file'[i..j] == file'[..next][i..j];
  }

  // ----- logs -----

  predicate AllWritable(blocks: seq<Block>) {
    forall b | b in blocks :: Writable(b)
  }

  /** The log of the blocks. */
  function FileOf(o: Oracles, blocks: seq<Block>): seq<byte> {
    if blocks == [] then [] else FileOf(o, blocks[..|blocks| - 1]) + Frame(o, blocks[|blocks| - 1])
  }

  /** Where the frame of block `k` starts, or the log ends. */
  function Pos(o: Oracles, blocks: seq<Block>, k: nat): nat
    requires k <= |blocks|
  {
    |FileOf(o, blocks[..k])|
  }

  lemma {:induction false} FilePrefix(o: Oracles, blocks: seq<Block>, k: nat)
    requires k <= |blocks|
    ensures Pos(o, blocks, k) <= |FileOf(o, blocks)|
    ensures FileOf(o, blocks)[..Pos(o, blocks, k)] == FileOf(o, blocks[..k])
  {
    hide Frame, Writable;
    if k == |blocks| {
      assert blocks[..k] == blocks;
    } else {
      var front := blocks[..|blocks| - 1];
      assert front[..k] == blocks[..k];
      FilePrefix(o, front, k);
    }
  }

  lemma FrameInLog(o: Oracles, blocks: seq<Block>, k: nat)
    requires AllWritable(blocks) && k < |blocks|
    ensures Pos(o, blocks, k + 1) == Pos(o, blocks, k) + |Frame(o, blocks[k])| <= |FileOf(o, blocks)|
    ensures At(FileOf(o, blocks), Pos(o, blocks, k), Frame(o, blocks[k]))
  {
    hide Frame, Writable;
    var p, q := Pos(o, blocks, k), Pos(o, blocks, k + 1);
    assert blocks[..k + 1][..k] == blocks[..k];
    FilePrefix(o, blocks, k + 1);
    assert FileOf(o, blocks)[..q] == FileOf(o, blocks[..k]) + Frame(o, blocks[k]);
    assert FileOf(o, blocks)[p..][..q - p] == Frame(o, blocks[k]);
  }

  /** The positions that inserting the blocks one by one has stored. */
  function WrittenAt(o: Oracles, blocks: seq<Block>): map<nat, nat> {
    if blocks == [] then map[]
    else
      var front := blocks[..|blocks| - 1];
      WrittenAt(o, front)[|front| := |FileOf(o, front)|]
  }

  /** Appending a block keeps the file and the stored positions those of its log. */
  lemma AppendingIsIncremental(o: Oracles, blocks: seq<Block>, b: Block)
    requires b.header.height == |blocks|
    ensures FileOf(o, blocks + [b]) == FileOf(o, blocks) + Frame(o, b)
    ensures WrittenAt(o, blocks + [b]) == WrittenAt(o, blocks)[b.header.height := |FileOf(o, blocks)|]
  {
    hide Frame;
    assert (blocks + [b])[..|blocks|] == blocks;
  }

  // ----- scanning a log -----

  datatype ScanEnd =
    | ScanEof              // fewer bytes than a frame's header are left
    | ScanBad(pos: nat)    // something at `pos` is not the next block
    | ScanPanic            // a checksum is wrong

  /** The blocks that a scan comes upon with their positions, and how it ends. */
  datatype Scanned = Scanned(found: seq<(nat, Block)>, end: ScanEnd)

  /** The height check is off while the last good height is 0. */
  predicate Follows(last: nat, height: nat) {
    last == 0 || height == last + 1
  }

  /** The scan from `pos`, the last good height being `last`. */
  function Scan(o: Oracles, file: seq<byte>, pos: nat, last: nat): Scanned
    decreases |file| - pos
  {
    match RawRead(o, file, pos)
    case ReadEof => Scanned([], ScanEof)
    case ReadCorrupt => Scanned([], ScanBad(pos))
    case ReadPanic => Scanned([], ScanPanic)
    case ReadOk(b, next) =>
      if !Follows(last, b.header.height) then Scanned([], ScanBad(pos))
      else
        var rest := Scan(o, file, next, b.header.height);
        Scanned([(pos, b)] + rest.found, rest.end)
  }

  /** Blocks `i` up to `k` at the places where they were written. */
  function Placed(o: Oracles, blocks: seq<Block>, i: nat, k: nat): seq<(nat, Block)>
    requires i <= k <= |blocks|
    decreases k - i
  {
    if i == k then [] else [(Pos(o, blocks, i), blocks[i])] + Placed(o, blocks, i + 1, k)
  }

  predicate Fits(o: Oracles, blocks: seq<Block>, k: nat, cut: nat)
    requires k <= |blocks|
  {
    Pos(o, blocks, k) <= cut
  }

  function LastHeight(blocks: seq<Block>, i: nat): nat
    requires i <= |blocks|
  {
    if i == 0 then 0 else blocks[i - 1].header.height
  }

  /** The first `k` blocks are whole below `cut` and pass the height check. */
  predicate Good(o: Oracles, blocks: seq<Block>, k: nat, cut: nat)
    requires k <= |blocks|
  {
    && Fits(o, blocks, k, cut)
    && forall i | 0 <= i < k :: Follows(LastHeight(blocks, i), blocks[i].header.height)
  }

  /** What is read where block `i` was written. */
  function ExpectedRead(o: Oracles, blocks: seq<Block>, i: nat, cut: nat): ReadResult
    requires i <= |blocks| && Fits(o, blocks, i, cut)
  {
    if i < |blocks| && Fits(o, blocks, i + 1, cut) then ReadOk(blocks[i], Pos(o, blocks, i + 1))
    else if cut - Pos(o, blocks, i) < META then ReadEof
    else ReadCorrupt
  }

  lemma TornAt(o: Oracles, blocks: seq<Block>, i: nat, cut: nat)
    requires AllWritable(blocks) && i <= |blocks| && cut <= |FileOf(o, blocks)| && Fits(o, blocks, i, cut)
    ensures RawRead(o, FileOf(o, blocks)[..cut], Pos(o, blocks, i)) == ExpectedRead(o, blocks, i, cut)
  {
    hide Frame, Writable, RawRead, FileOf, IsFrame;
    if i == |blocks| {
      assert blocks[..i] == blocks;
      EofAtEnd(o, FileOf(o, blocks)[..cut], Pos(o, blocks, i));
    } else {
      FrameInLog(o, blocks, i);
      FrameIsFrame(o, blocks[i]);
      TornFrame(o, FileOf(o, blocks), cut, Pos(o, blocks, i), Frame(o, blocks[i]), blocks[i]);
    }
  }

  lemma TornFrame(o: Oracles, file: seq<byte>, cut: nat, p: nat, f: seq<byte>, b: Block)
    requires IsFrame(o, f, b) && At(file, p, f) && p <= cut <= |file|
    ensures RawRead(o, file[..cut], p)
         == if p + |f| <= cut then ReadOk(b, p + |f|) else if cut - p < META then ReadEof else ReadCorrupt
  {
    hide RawRead, IsFrame;
    assert f == file[p..][..|f|];
    if p + |f| <= cut {
      assert f == file[..cut][p..][..|f|];
      ReadsFrame(o, file[..cut], p, f, b);
    } else {
      assert f[..cut - p] == file[..cut][p..][..cut - p];
      ReadsTorn(o, file[..cut], p, f, b, cut - p);
    }
  }

  lemma EofAtEnd(o: Oracles, file: seq<byte>, pos: nat)
    requires |file| < pos + META
    ensures RawRead(o, file, pos) == ReadEof
  {
  }

  /** The first `k` blocks, and the end that comes of what lies behind them. */
  function Recovered(o: Oracles, blocks: seq<Block>, k: nat, cut: nat): Scanned
    requires k <= |blocks|
  {
    Scanned(Placed(o, blocks, 0, k), if cut - Pos(o, blocks, k) < META then ScanEof else ScanBad(Pos(o, blocks, k)))
  }

  lemma {:induction false} ScanFrom(o: Oracles, blocks: seq<Block>, cut: nat, i: nat, k: nat)
    requires AllWritable(blocks) && i <= k <= |blocks| && cut <= |FileOf(o, blocks)| && Good(o, blocks, k, cut)
    requires k < |blocks| ==> !Good(o, blocks, k + 1, cut)
    ensures Scan(o, FileOf(o, blocks)[..cut], Pos(o, blocks, i), LastHeight(blocks, i))
         == Scanned(Placed(o, blocks, i, k), Recovered(o, blocks, k, cut).end)
    decreases k - i
  {
    hide Frame, Writable, RawRead, Pos, FileOf, Follows;
    FitsEarlier(o, blocks, i, k, cut);
    TornAt(o, blocks, i, cut);
    if i < k {
      FitsEarlier(o, blocks, i + 1, k, cut);
      hide Fits;
      ScanFrom(o, blocks, cut, i + 1, k);
      assert Follows(LastHeight(blocks, i), blocks[i].header.height);
      hide Good;
    } else if k < |blocks| && Fits(o, blocks, k + 1, cut) {
      NextOutOfOrder(o, blocks, k, cut);
    }
  }

  lemma NextOutOfOrder(o: Oracles, blocks: seq<Block>, k: nat, cut: nat)
    requires AllWritable(blocks) && k < |blocks| && Fits(o, blocks, k + 1, cut)
    requires Good(o, blocks, k, cut) && !Good(o, blocks, k + 1, cut)
    ensures !Follows(LastHeight(blocks, k), blocks[k].header.height)
    ensures Pos(o, blocks, k) + META <= cut
  {
    hide Frame, Writable, Follows, FileOf, DecU32, TakeBlock;
    FrameInLog(o, blocks, k);
    FrameIsFrame(o, blocks[k]);
  }

  lemma FitsEarlier(o: Oracles, blocks: seq<Block>, i: nat, k: nat, cut: nat)
    requires AllWritable(blocks) && i <= k <= |blocks| && Fits(o, blocks, k, cut)
    ensures Fits(o, blocks, i, cut)
  {
    assert blocks[..k][..i] == blocks[..i];
    FilePrefix(o, blocks[..k], i);
  }

  /** What a scan makes of any log of well-formed frames cut off anywhere: it finds the blocks up to
      the first that is torn or out of order, where they were written, and no others. */
  lemma ScanFinds(o: Oracles, blocks: seq<Block>, cut: nat, k: nat)
    requires AllWritable(blocks) && k <= |blocks| && cut <= |FileOf(o, blocks)| && Good(o, blocks, k, cut)
    requires k < |blocks| ==> !Good(o, blocks, k + 1, cut)
    ensures Scan(o, FileOf(o, blocks)[..cut], 0, 0) == Recovered(o, blocks, k, cut)
  {
    PosZero(o, blocks);
    ScanFrom(o, blocks, cut, 0, k);
  }

  lemma PosZero(o: Oracles, blocks: seq<Block>)
    ensures Pos(o, blocks, 0) == 0
  {
    assert blocks[..0] == [];
  }

  predicate Numbered(blocks: seq<Block>) {
    forall h | 0 <= h < |blocks| :: blocks[h].header.height == h
  }

  lemma FitsZero(o: Oracles, blocks: seq<Block>, cut: nat)
    ensures Fits(o, blocks, 0, cut)
  {
    PosZero(o, blocks);
  }

  /** The number of whole frames below `cut`, of the first `n`. */
  function WholeFrames(o: Oracles, blocks: seq<Block>, n: nat, cut: nat): (k: nat)
    requires n <= |blocks|
    ensures k <= n && Fits(o, blocks, k, cut)
    ensures k < n ==> !Fits(o, blocks, k + 1, cut)
  {
    hide Fits;
    if n == 0 then FitsZero(o, blocks, cut); 0
    else if Fits(o, blocks, n, cut) then n
    else WholeFrames(o, blocks, n - 1, cut)
  }

  /** The file after the scan, when trimming is on: cut where the first bad bytes start. */
  function Trimmed(file: seq<byte>, end: ScanEnd): seq<byte> {
    if end.ScanBad? && end.pos <= |file| then file[..end.pos] else file
  }

  lemma NumberedIsGood(o: Oracles, blocks: seq<Block>, k: nat, cut: nat)
    requires Numbered(blocks) && k <= |blocks|
    ensures Good(o, blocks, k, cut) <==> Fits(o, blocks, k, cut)
  {
    hide Fits;
  }

  /** Torn-tail recovery. Cut a log off anywhere: the scan finds exactly the blocks whose frames
      are whole, where they were written. */
  lemma TornTail(o: Oracles, blocks: seq<Block>, cut: nat)
    requires AllWritable(blocks) && Numbered(blocks) && cut <= |FileOf(o, blocks)|
    ensures Scan(o, FileOf(o, blocks)[..cut], 0, 0) == Recovered(o, blocks, WholeFrames(o, blocks, |blocks|, cut), cut)
  {
    var k := WholeFrames(o, blocks, |blocks|, cut);
    hide *;
    NumberedIsGood(o, blocks, k, cut);
    if k < |blocks| {
      NumberedIsGood(o, blocks, k + 1, cut);
    }
    ScanFinds(o, blocks, cut, k);
  }

  /** With trimming, exactly the frames of the blocks found are left in the file, unless the torn
      frame has fewer than eight bytes: those stay behind. */
  lemma TrimmedTail(o: Oracles, blocks: seq<Block>, k: nat, cut: nat)
    requires k <= |blocks| && Fits(o, blocks, k, cut) && cut <= |FileOf(o, blocks)|
    ensures Trimmed(FileOf(o, blocks)[..cut], Recovered(o, blocks, k, cut).end) == FileOf(o, blocks[..k])
       <==> !(0 < cut - Pos(o, blocks, k) < META)
  {
    hide FileOf, Placed;
    FilePrefix(o, blocks, k);
    CutTwice(FileOf(o, blocks), cut, Pos(o, blocks, k));
  }

  lemma CutTwice(s: seq<byte>, cut: nat, p: nat)
    requires p <= cut <= |s|
    ensures s[..cut][..p] == s[..p]
  {
  }

  /** Without a cut the scan finds every block and leaves the file as it is. */
  lemma WholeLog(o: Oracles, blocks: seq<Block>)
    requires AllWritable(blocks) && Numbered(blocks)
    ensures Scan(o, FileOf(o, blocks), 0, 0) == Scanned(Placed(o, blocks, 0, |blocks|), ScanEof)
  {
    var file := FileOf(o, blocks);
    assert blocks[..|blocks|] == blocks && file[..|file|] == file;
    NumberedIsGood(o, blocks, |blocks|, |file|);
    hide Frame, Writable, FileOf, Scan;
    ScanFinds(o, blocks, |file|, |blocks|);
  }

  // ----- what a scan has read -----

  function BlocksOf(found: seq<(nat, Block)>): (blocks: seq<Block>)
    ensures |blocks| == |found|
    ensures forall i | 0 <= i < |found| :: blocks[i] == found[i].1
  {
    if found == [] then [] else BlocksOf(found[..|found| - 1]) + [found[|found| - 1].1]
  }

  /** The positions by height; of several blocks of one height, the last. */
  function PositionsOf(found: seq<(nat, Block)>): map<nat, nat> {
    if found == [] then map[]
    else
      var last := found[|found| - 1];
      PositionsOf(found[..|found| - 1])[last.1.header.height := last.0]
  }

  lemma FoundSnoc(found: seq<(nat, Block)>, pos: nat, b: Block)
    ensures BlocksOf(found + [(pos, b)]) == BlocksOf(found) + [b]
    ensures PositionsOf(found + [(pos, b)]) == PositionsOf(found)[b.header.height := pos]
  {
    var more := found + [(pos, b)];
    assert more[..|more| - 1] == found;
  }

  lemma {:induction false} PositionsByHeight(found: seq<(nat, Block)>)
    requires forall i | 0 <= i < |found| :: found[i].1.header.height == i
    ensures forall h: nat :: h in PositionsOf(found) <==> h < |found|
    ensures forall h | 0 <= h < |found| :: PositionsOf(found)[h] == found[h].0
  {
    if found != [] {
      PositionsByHeight(found[..|found| - 1]);
    }
  }

  // ----- when what is found is in order -----

  /** The first frame in the file holds a block of height 0, and the one behind it, if there is a
      block to be read there, one of height 1. */
  predicate OpensInOrder(o: Oracles, file: seq<byte>) {
    var genesis := RawRead(o, file, 0);
    && genesis.ReadOk? && genesis.block.header.height == 0
    && var second := RawRead(o, file, genesis.next);
       second.ReadOk? ==> second.block.header.height == 1
  }

  /** Behind a good height other than 0 the height check is on: what is found counts up. */
  lemma {:induction false} CountsUp(o: Oracles, file: seq<byte>, pos: nat, last: nat, i: nat)
    requires last > 0 && i < |Scan(o, file, pos, last).found|
    ensures Scan(o, file, pos, last).found[i].1.header.height == last + 1 + i
    decreases i
  {
    hide RawRead;
    if i > 0 {
      var r := RawRead(o, file, pos);
      CountsUp(o, file, r.next, r.block.header.height, i - 1);
    }
  }

  /** What a scan of any file finds has heights that count up from 0, exactly if its first two frames
      do. Nothing else need be looked at. */
  lemma {:induction false} FoundInOrderIff(o: Oracles, file: seq<byte>)
    ensures var found := Scan(o, file, 0, 0).found;
            found != [] && Numbered(BlocksOf(found)) <==> OpensInOrder(o, file)
  {
    hide RawRead, BlocksOf;
    var found := Scan(o, file, 0, 0).found;
    var genesis := RawRead(o, file, 0);
    if genesis.ReadOk? {
      var second := RawRead(o, file, genesis.next);
      var rest := Scan(o, file, genesis.next, genesis.block.header.height).found;
      assert found == [(0, genesis.block)] + rest && BlocksOf(found)[0] == genesis.block;
      if genesis.block.header.height == 0 && second.ReadOk? {
        var more := Scan(o, file, second.next, second.block.header.height).found;
        assert rest == [(genesis.next, second.block)] + more && BlocksOf(found)[1] == second.block;
        forall h | 1 < h < |found| && second.block.header.height == 1
          ensures BlocksOf(found)[h].header.height == h
        {
          CountsUp(o, file, second.next, 1, h - 2);
        }
      }
    }
  }

  lemma {:induction false} PlacedAt(o: Oracles, blocks: seq<Block>, i: nat, k: nat, j: nat)
    requires i + j < k <= |blocks|
    ensures |Placed(o, blocks, i, k)| == k - i && Placed(o, blocks, i, k)[j] == (Pos(o, blocks, i + j), blocks[i + j])
    decreases k - i
  {
    hide Pos;
    if i + 1 < k {
      PlacedAt(o, blocks, i + 1, k, if j > 0 then j - 1 else 0);
    }
  }

  lemma PlacedBlocks(o: Oracles, blocks: seq<Block>, k: nat)
    requires k <= |blocks|
    ensures BlocksOf(Placed(o, blocks, 0, k)) == blocks[..k]
  {
    hide Pos, BlocksOf;
    forall j | 0 <= j < k
      ensures |Placed(o, blocks, 0, k)| == k && Placed(o, blocks, 0, k)[j].1 == blocks[j]
    {
      PlacedAt(o, blocks, 0, k, j);
    }
  }

  /** Heights that follow one another count up from 0, exactly if the first two do. */
  lemma {:induction false} FollowsIsNumberedIff(blocks: seq<Block>, k: nat)
    requires k <= |blocks| && forall i | 0 <= i < k :: Follows(LastHeight(blocks, i), blocks[i].header.height)
    ensures Numbered(blocks[..k])
       <==> (k > 0 ==> blocks[0].header.height == 0) && (k > 1 ==> blocks[1].header.height == 1)
  {
    if k > 0 {
      FollowsIsNumberedIff(blocks, k - 1);
      assert forall h | 0 <= h < k :: blocks[..k][h] == blocks[h];
      assert forall h | 0 <= h < k - 1 :: blocks[..k - 1][h] == blocks[h];
    }
  }

  /** For a log of well-formed frames with any heights, cut off anywhere: what the scan finds, and
      exactly when it is in order. */
  lemma LogInOrderIff(o: Oracles, blocks: seq<Block>, cut: nat, k: nat)
    requires AllWritable(blocks) && k <= |blocks| && cut <= |FileOf(o, blocks)| && Good(o, blocks, k, cut)
    requires k < |blocks| ==> !Good(o, blocks, k + 1, cut)
    ensures var found := Scan(o, FileOf(o, blocks)[..cut], 0, 0).found;
            && BlocksOf(found) == blocks[..k]
            && (Numbered(BlocksOf(found))
                <==> (k > 0 ==> blocks[0].header.height == 0) && (k > 1 ==> blocks[1].header.height == 1))
  {
    hide Scan, Placed, FileOf, Writable, Fits, Numbered;
    ScanFinds(o, blocks, cut, k);
    PlacedBlocks(o, blocks, k);
    FollowsIsNumberedIff(blocks, k);
  }

  /** The height check misses a gap right after the genesis block: a second block of any height is
      taken for the next, and only height 1 is in order. */
  lemma GapAfterGenesis(o: Oracles, genesis: Block, b: Block)
    requires AllWritable([genesis, b]) && genesis.header.height == 0
    ensures var s := Scan(o, FileOf(o, [genesis, b]), 0, 0);
            && s == Scanned(Placed(o, [genesis, b], 0, 2), ScanEof)
            && BlocksOf(s.found) == [genesis, b]
            && (Numbered([genesis, b]) <==> b.header.height == 1)
  {
    var blocks := [genesis, b];
    hide Frame, Writable, Scan, FileOf, Placed;
    var file := FileOf(o, blocks);
    assert blocks[..2] == blocks && file[..|file|] == file;
    ScanFinds(o, blocks, |file|, 2);
    LogInOrderIff(o, blocks, |file|, 2);
  }

  /** Everything found was read in front of the place where the scan ended. */
  lemma {:induction false} ScanReads(o: Oracles, file: seq<byte>, pos: nat, last: nat)
    requires pos <= |file|
    ensures var s := Scan(o, file, pos, last);
            && (s.end.ScanBad? ==> pos <= s.end.pos <= |file|)
            && forall i | 0 <= i < |s.found| ::
                 var r := RawRead(o, file, s.found[i].0);
                 r.ReadOk? && r.block == s.found[i].1 && r.next <= |Trimmed(file, s.end)|
    decreases |file| - pos
  {
    hide DecU32, TakeBlock, Follows;
    var r := RawRead(o, file, pos);
    if r.ReadOk? && Follows(last, r.block.header.height) {
      ScanReads(o, file, r.next, r.block.header.height);
    }
  }
}
