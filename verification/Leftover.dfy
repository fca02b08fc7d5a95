// What the bytes of a torn frame that trimming leaves in the file come to, once further blocks have
// been written behind them (blockchain/store.rs).

module Leftovers {
  import opened Numbers
  import opened Serializer
  import opened Crypto
  import opened Blocks
  import opened Frames
  import opened Recovery

  // ----- logs behind logs -----

  lemma {:induction false} FileOfAppend(o: Oracles, a: seq<Block>, b: seq<Block>)
    ensures FileOf(o, a + b) == FileOf(o, a) + FileOf(o, b)
  {
    hide Frame;
    if b == [] {
      assert a + b == a;
    } else {
      var front := b[..|b| - 1];
      assert (a + b)[..|a + b| - 1] == a + front;
      FileOfAppend(o, a, front);
    }
  }

  function Shifted(found: seq<(nat, Block)>, shift: nat): (s: seq<(nat, Block)>)
    ensures |s| == |found| && forall i | 0 <= i < |s| :: s[i] == (found[i].0 + shift, found[i].1)
  {
    seq(|found|, i requires 0 <= i < |found| => (found[i].0 + shift, found[i].1))
  }

  lemma PlacedAppend(o: Oracles, a: seq<Block>, b: seq<Block>)
    ensures Placed(o, a + b, 0, |a + b|) == Placed(o, a, 0, |a|) + Shifted(Placed(o, b, 0, |b|), |FileOf(o, a)|)
  {
    hide FileOf, Placed;
    PlacedLength(o, a);
    PlacedLength(o, b);
    PlacedLength(o, a + b);
    forall j | 0 <= j < |a + b|
      ensures Placed(o, a + b, 0, |a + b|)[j]
           == (Placed(o, a, 0, |a|) + Shifted(Placed(o, b, 0, |b|), |FileOf(o, a)|))[j]
    {
      PlacedAt(o, a + b, 0, |a + b|, j);
      if j < |a| {
        PlacedAt(o, a, 0, |a|, j);
        assert (a + b)[..j] == a[..j];
      } else {
        PlacedAt(o, b, 0, |b|, j - |a|);
        assert (a + b)[..j] == a + b[..j - |a|];
        FileOfAppend(o, a, b[..j - |a|]);
      }
    }
  }

  lemma PlacedLength(o: Oracles, blocks: seq<Block>)
    ensures |Placed(o, blocks, 0, |blocks|)| == |blocks|
  {
    hide Pos;
    if blocks != [] {
      PlacedAt(o, blocks, 0, |blocks|, 0);
    }
  }

  // ----- a scan that comes to the end of a log -----

  /** Where a scan goes on, the blocks of the log lying behind it. */
  function Beyond(o: Oracles, blocks: seq<Block>, more: seq<byte>): Scanned {
    Scan(o, FileOf(o, blocks) + more, |FileOf(o, blocks)|, LastHeight(blocks, |blocks|))
  }

  function Behind(front: seq<(nat, Block)>, s: Scanned): Scanned {
    Scanned(front + s.found, s.end)
  }

  lemma ReadsInLog(o: Oracles, blocks: seq<Block>, more: seq<byte>, i: nat)
    requires AllWritable(blocks) && i < |blocks|
    ensures RawRead(o, FileOf(o, blocks) + more, Pos(o, blocks, i)) == ReadOk(blocks[i], Pos(o, blocks, i + 1))
  {
    hide Frame, Writable, RawRead, FileOf, IsFrame;
    var file, p, f := FileOf(o, blocks), Pos(o, blocks, i), Frame(o, blocks[i]);
    FrameInLog(o, blocks, i);
    FrameIsFrame(o, blocks[i]);
    assert (file + more)[p..] == file[p..] + more;
    ReadsFrame(o, file + more, p, f, blocks[i]);
  }

  lemma {:induction false} ScanOver(o: Oracles, blocks: seq<Block>, more: seq<byte>, i: nat)
    requires AllWritable(blocks) && Numbered(blocks) && i <= |blocks|
    ensures Scan(o, FileOf(o, blocks) + more, Pos(o, blocks, i), LastHeight(blocks, i))
         == Behind(Placed(o, blocks, i, |blocks|), Beyond(o, blocks, more))
    decreases |blocks| - i
  {
    hide Writable, RawRead, Pos, FileOf;
    if i == |blocks| {
      EndOfLog(o, blocks);
      assert [] + Beyond(o, blocks, more).found == Beyond(o, blocks, more).found;
    } else {
      ReadsInLog(o, blocks, more, i);
      ScanOver(o, blocks, more, i + 1);
      var rest := Beyond(o, blocks, more).found;
      var here := [(Pos(o, blocks, i), blocks[i])];
      assert here + (Placed(o, blocks, i + 1, |blocks|) + rest) == here + Placed(o, blocks, i + 1, |blocks|) + rest;
    }
  }

  lemma EndOfLog(o: Oracles, blocks: seq<Block>)
    ensures Pos(o, blocks, |blocks|) == |FileOf(o, blocks)|
  {
    assert blocks[..|blocks|] == blocks;
  }

  // ----- bytes in between -----

  /** The bytes at `pos` pass for a frame: its length is there and its checksum is right. */
  predicate PassesForFrame(o: Oracles, file: seq<byte>, pos: nat) {
    && pos + META <= |file|
    && var len := DecU32(file[pos..pos + 4]);
       && pos + META + len <= |file|
       && DecU32(file[pos + 4..pos + META]) == o.crc(file[pos + META..pos + META + len])
  }

  lemma NoFrameRead(o: Oracles, file: seq<byte>, pos: nat, last: nat)
    requires pos + META <= |file| && !PassesForFrame(o, file, pos)
    ensures Scan(o, file, pos, last) == Scanned([], ScanBad(pos)) || Scan(o, file, pos, last) == Scanned([], ScanPanic)
  {
    hide DecU32, TakeBlock;
  }

  lemma FirstFound(o: Oracles, file: seq<byte>, pos: nat, last: nat)
    ensures var found := Scan(o, file, pos, last).found; found != [] ==> found[0].0 == pos
  {
    hide RawRead;
  }

  /** A log, a few bytes that trimming has left, and the frames of further blocks behind them. */
  function WithLeftover(o: Oracles, blocks: seq<Block>, leftover: seq<byte>, more: seq<Block>): seq<byte> {
    FileOf(o, blocks) + (leftover + FileOf(o, more))
  }

  /** Everything is found, and where it was written. */
  predicate AllFound(o: Oracles, blocks: seq<Block>, leftover: seq<byte>, more: seq<Block>) {
    Scan(o, WithLeftover(o, blocks, leftover, more), 0, 0).found
    == Placed(o, blocks, 0, |blocks|) + Shifted(Placed(o, more, 0, |more|), |FileOf(o, blocks)| + |leftover|)
  }

  lemma ScanWithLeftover(o: Oracles, blocks: seq<Block>, leftover: seq<byte>, more: seq<Block>)
    requires AllWritable(blocks) && Numbered(blocks)
    ensures Scan(o, WithLeftover(o, blocks, leftover, more), 0, 0)
         == Behind(Placed(o, blocks, 0, |blocks|), Beyond(o, blocks, leftover + FileOf(o, more)))
  {
    hide Writable, Numbered, Scan, FileOf, Placed;
    PosZero(o, blocks);
    ScanOver(o, blocks, leftover + FileOf(o, more), 0);
  }

  /** A second scan finds everything where it was written exactly if nothing was left over, whatever
      the checksum. */
  lemma AllFoundIff(o: Oracles, blocks: seq<Block>, leftover: seq<byte>, more: seq<Block>)
    requires AllWritable(blocks) && AllWritable(more) && more != [] && Numbered(blocks + more)
    ensures AllFound(o, blocks, leftover, more) <==> leftover == []
  {
    hide Writable, Scan, FileOf, Placed;
    assert blocks == (blocks + more)[..|blocks|];
    if leftover == [] {
      FileOfAppend(o, blocks, more);
      assert [] + FileOf(o, more) == FileOf(o, more);
      WholeLog(o, blocks + more);
      PlacedAppend(o, blocks, more);
    } else {
      var rest := Beyond(o, blocks, leftover + FileOf(o, more)).found;
      ScanWithLeftover(o, blocks, leftover, more);
      FirstFound(o, WithLeftover(o, blocks, leftover, more), |FileOf(o, blocks)|, LastHeight(blocks, |blocks|));
      PlacedLength(o, blocks);
      PlacedAt(o, more, 0, |more|, 0);
      var s := Scan(o, WithLeftover(o, blocks, leftover, more), 0, 0).found;
      assert |s| > |blocks| ==> s[|blocks|] == rest[0];
    }
  }

  lemma LogIsLong(o: Oracles, blocks: seq<Block>)
    requires AllWritable(blocks) && blocks != []
    ensures |FileOf(o, blocks)| >= META
  {
    hide FileOf, Frame, Writable, TakeBlock, DecU32;
    FrameInLog(o, blocks, 0);
    FrameIsFrame(o, blocks[0]);
  }

  /** What is left over is read as the start of a frame. Unless it passes for one together with the
      bytes behind it, the scan finds nothing more. */
  lemma LeftoverHides(o: Oracles, blocks: seq<Block>, leftover: seq<byte>, more: seq<Block>)
    requires AllWritable(blocks) && Numbered(blocks) && AllWritable(more) && more != []
    requires !PassesForFrame(o, WithLeftover(o, blocks, leftover, more), |FileOf(o, blocks)|)
    ensures var s := Scan(o, WithLeftover(o, blocks, leftover, more), 0, 0);
            && BlocksOf(s.found) == blocks
            && (s.end == ScanBad(|FileOf(o, blocks)|) || s.end == ScanPanic)
  {
    hide Writable, Scan, FileOf, Placed, PassesForFrame;
    ScanWithLeftover(o, blocks, leftover, more);
    LogIsLong(o, more);
    NoFrameRead(o, WithLeftover(o, blocks, leftover, more), |FileOf(o, blocks)|, LastHeight(blocks, |blocks|));
    PlacedBlocks(o, blocks, |blocks|);
    assert blocks[..|blocks|] == blocks;
    assert Placed(o, blocks, 0, |blocks|) + [] == Placed(o, blocks, 0, |blocks|);
  }

  lemma NothingHidden(o: Oracles, blocks: seq<Block>, more: seq<Block>)
    requires AllWritable(blocks) && AllWritable(more) && Numbered(blocks + more)
    ensures var s := Scan(o, WithLeftover(o, blocks, [], more), 0, 0);
            BlocksOf(s.found) == blocks + more && s.end == ScanEof
  {
    hide Writable, Scan, FileOf, Placed, Numbered;
    FileOfAppend(o, blocks, more);
    assert [] + FileOf(o, more) == FileOf(o, more);
    WholeLog(o, blocks + more);
    PlacedBlocks(o, blocks + more, |blocks + more|);
    assert (blocks + more)[..|blocks + more|] == blocks + more;
  }

  // ----- recovery, appending, and recovery again -----

  /** The bytes of the torn frame that the first recovery leaves in the file. */
  function Spare(o: Oracles, log: seq<Block>, k: nat, cut: nat): seq<byte>
    requires k <= |log| && Fits(o, log, k, cut) && cut <= |FileOf(o, log)|
  {
    if cut - Pos(o, log, k) < META then FileOf(o, log)[..cut][Pos(o, log, k)..] else []
  }

  lemma LeftIs(o: Oracles, log: seq<Block>, k: nat, cut: nat)
    requires k <= |log| && Fits(o, log, k, cut) && cut <= |FileOf(o, log)|
    ensures Left(o, log, k, cut) == FileOf(o, log[..k]) + Spare(o, log, k, cut)
    ensures Spare(o, log, k, cut) != [] <==> 0 < cut - Pos(o, log, k) < META
  {
    hide FileOf, Placed;
    FilePrefix(o, log, k);
    CutTwice(FileOf(o, log), cut, Pos(o, log, k));
    var torn := FileOf(o, log)[..cut];
    assert torn == torn[..Pos(o, log, k)] + torn[Pos(o, log, k)..];
  }

  /** A log is cut off, recovered with trimming, written to again, and scanned once more. The second
      scan finds all that is in the file, where it was written, exactly if the first cut did not leave
      one to seven bytes of a torn frame. If it did, these bytes are taken for the start of a frame, and
      unless they pass for one, everything written behind them is lost to the scan: it comes upon a
      wrong checksum, or trims the file where the torn frame began. */
  lemma SecondRecovery(o: Oracles, log: seq<Block>, cut: nat, more: seq<Block>)
    requires AllWritable(log) && Numbered(log) && cut <= |FileOf(o, log)|
    requires var kept := log[..WholeFrames(o, log, |log|, cut)];
             AllWritable(more) && more != [] && Numbered(kept + more)
    ensures var k := WholeFrames(o, log, |log|, cut);
            var kept, spare, file := log[..k], Spare(o, log, k, cut), Left(o, log, k, cut) + FileOf(o, more);
            var s := Scan(o, file, 0, 0);
            && file == WithLeftover(o, kept, spare, more)
            && (AllFound(o, kept, spare, more) <==> !(0 < cut - Pos(o, log, k) < META))
            && (spare == [] ==> BlocksOf(s.found) == kept + more && s.end == ScanEof)
            && (spare != [] && !PassesForFrame(o, file, Pos(o, log, k)) ==>
                  && BlocksOf(s.found) == kept
                  && (s.end == ScanPanic || Trimmed(file, s.end) == FileOf(o, kept)))
  {
    hide AllWritable, Numbered, WithLeftover, Scan, FileOf, WholeFrames, Left, Spare, PassesForFrame, AllFound, Fits;
    var k := WholeFrames(o, log, |log|, cut);
    var kept, spare := log[..k], Spare(o, log, k, cut);
    LeftIs(o, log, k, cut);
    FrontIsGood(log, k);
    WithLeftoverIs(o, kept, spare, more);
    AllFoundIff(o, kept, spare, more);
    if spare == [] {
      NothingHidden(o, kept, more);
    } else if !PassesForFrame(o, WithLeftover(o, kept, spare, more), |FileOf(o, kept)|) {
      LeftoverHides(o, kept, spare, more);
      TrimsToLog(o, kept, spare, more);
    }
  }

  lemma FrontIsGood(blocks: seq<Block>, k: nat)
    requires AllWritable(blocks) && Numbered(blocks) && k <= |blocks|
    ensures AllWritable(blocks[..k]) && Numbered(blocks[..k])
  {
    hide Writable;
  }

  lemma WithLeftoverIs(o: Oracles, blocks: seq<Block>, leftover: seq<byte>, more: seq<Block>)
    ensures FileOf(o, blocks) + leftover + FileOf(o, more) == WithLeftover(o, blocks, leftover, more)
  {
    hide FileOf;
    assert FileOf(o, blocks) + leftover + FileOf(o, more) == FileOf(o, blocks) + (leftover + FileOf(o, more));
  }

  lemma TrimsToLog(o: Oracles, blocks: seq<Block>, leftover: seq<byte>, more: seq<Block>)
    ensures Trimmed(WithLeftover(o, blocks, leftover, more), ScanBad(|FileOf(o, blocks)|)) == FileOf(o, blocks)
  {
    hide FileOf;
  }
}
