/** The sequential reader and the machine bounds of block arithmetic (reader.go). */
module Reader {
  import opened Basics
  import opened Blocks

  /** The blocks `lo` to `hi` of a file, in order. */
  ghost function BlockRange(f: Bytes, bs: nat, lo: nat, hi: nat): (r: seq<(nat, Bytes)>)
    ensures |r| == if lo <= hi then hi - lo else 0
    decreases hi - lo
  {
    if lo < hi then BlockRange(f, bs, lo, hi - 1) + [(hi - 1, BlockOf(f, bs, hi - 1))] else []
  }

  lemma {:induction false} BlockRangeAt(f: Bytes, bs: nat, lo: nat, hi: nat, i: nat)
    requires lo <= i < hi
    ensures BlockRange(f, bs, lo, hi)[i - lo] == (i, BlockOf(f, bs, i))
    decreases hi - lo
  {
    if i < hi - 1 {
      BlockRangeAt(f, bs, lo, hi - 1, i);
    }
  }

  lemma BlocksInOrder(f: Bytes, bs: nat, lo: nat, hi: nat, r: seq<(nat, Bytes)>)
    requires r == BlockRange(f, bs, lo, hi)
    ensures forall k :: 0 <= k < |r| ==> r[k] == (lo + k, BlockOf(f, bs, lo + k))
  {
    forall k | 0 <= k < |r|
      ensures r[k] == (lo + k, BlockOf(f, bs, lo + k))
    {
      BlockRangeAt(f, bs, lo, hi, lo + k);
    }
  }

  class SequentialReader {
    const file: Bytes
    const blockSize: uint32
    const lastBlockNum: uint32
    const skipIdx: uint32
    var blockChan: seq<(nat, Bytes)>
    var closed: bool

    /** `lastBlockNum` is the conversion of a 64-bit quotient to 32 bits. */
    constructor (file: Bytes, blockSize: uint32, skipIdx: uint32)
      requires 0 < blockSize && 0 < |file|
      ensures this.file == file && this.blockSize == blockSize && this.skipIdx == skipIdx
      ensures lastBlockNum == LastBlock(|file|, blockSize) % 0x1_0000_0000
      ensures blockChan == [] && !closed
    {
      this.file := file;
      this.blockSize := blockSize;
      this.lastBlockNum := LastBlock(|file|, blockSize) % 0x1_0000_0000;
      this.skipIdx := skipIdx;
      blockChan, closed := [], false;
    }

    /** Pushes every block from `skipIdx` to the last, each as a copy of the bytes read. The
        loop compares with `<=`, so it ends only because the last block is below 2^32 - 1. */
    method Start()
      requires 0 < blockSize && lastBlockNum < 0xffff_ffff && blockChan == [] && !closed
      modifies this
      ensures closed
      ensures |blockChan| == if skipIdx <= lastBlockNum then lastBlockNum + 1 - skipIdx else 0
      ensures forall k :: 0 <= k < |blockChan| ==>
        blockChan[k].0 == skipIdx + k && blockChan[k].1 == ReadAt(file, (skipIdx + k) * blockSize, blockSize)
      ensures blockChan == BlockRange(file, blockSize, skipIdx, lastBlockNum + 1)
    {
      var buf := Zeros(blockSize);
      var blockIdx: uint32 := skipIdx;
      while blockIdx <= lastBlockNum
        invariant !closed && |buf| == blockSize
        invariant skipIdx <= blockIdx && (blockIdx <= lastBlockNum + 1 || blockIdx == skipIdx)
        invariant blockChan == BlockRange(file, blockSize, skipIdx, blockIdx)
        decreases lastBlockNum + 1 - blockIdx
      {
        var data := ReadAt(file, blockIdx * blockSize, blockSize);
        buf := data + buf[|data|..];
        var dataCopy := buf[..|data|];
        blockChan := blockChan + [(blockIdx, dataCopy)];
        blockIdx := blockIdx + 1;
      }
      closed := true;
      BlocksInOrder(file, blockSize, skipIdx, lastBlockNum + 1, blockChan);
    }
  }

  ghost function Joined(blocks: seq<(nat, Bytes)>): Bytes {
    if blocks == [] then [] else Joined(blocks[..|blocks| - 1]) + blocks[|blocks| - 1].1
  }

  lemma ReadsJoin(f: Bytes, a: nat, n: nat, b: nat, m: nat)
    requires b == a + n
    ensures ReadAt(f, a, n) + ReadAt(f, b, m) == ReadAt(f, a, n + m)
  {
  }

  /** The blocks read are disjoint and leave nothing out: joined, they are one read from the
      first one's offset to the last one's end. */
  lemma {:induction false} BlocksJoin(f: Bytes, bs: nat, lo: nat, hi: nat, off: nat, end: nat)
    requires lo <= hi && off == lo * bs && end == hi * bs && off <= end
    ensures Joined(BlockRange(f, bs, lo, hi)) == ReadAt(f, off, end - off)
    decreases hi - lo
  {
    if lo < hi {
      var mid := (hi - 1) * bs;
      MulMonotone(lo, hi - 1, bs);
      BlocksJoin(f, bs, lo, hi - 1, off, mid);
      assert end == mid + bs;
      ReadsJoin(f, off, mid - off, mid, bs);
      LastJoins(BlockRange(f, bs, lo, hi - 1), (hi - 1, BlockOf(f, bs, hi - 1)));
    }
  }

  lemma LastJoins(blocks: seq<(nat, Bytes)>, last: (nat, Bytes))
    ensures Joined(blocks + [last]) == Joined(blocks) + last.1
  {
    assert (blocks + [last])[..|blocks|] == blocks;
  }

  lemma ReadReaches(f: Bytes, off: nat, n: nat)
    ensures ReadAt(f, off, n) == f[Min(off, |f|)..] <==> off + n >= |f| || off >= |f|
  {
  }

  ghost function Output(f: Bytes, bs: uint32, skip: uint32): Bytes
    requires 0 < bs && 0 < |f|
  {
    Joined(BlockRange(f, bs, skip, LastBlock(|f|, bs) % 0x1_0000_0000 + 1))
  }

  lemma OutputIsOneRead(f: Bytes, bs: uint32, skip: uint32, last: nat, off: nat, end: nat)
    requires 0 < bs && 0 < |f| && last == LastBlock(|f|, bs) % 0x1_0000_0000
    requires off == skip * bs && end == (last + 1) * bs && skip <= last
    ensures off <= end && Output(f, bs, skip) == ReadAt(f, off, end - off)
  {
    MulMonotone(skip, last + 1, bs);
    BlocksJoin(f, bs, skip, last + 1, off, end);
  }

  lemma ReachesEnd(f: Bytes, bs: uint32, skip: uint32, last: nat, off: nat, end: nat)
    requires 0 < bs && 0 < |f| && last == LastBlock(|f|, bs) < 0x1_0000_0000
    requires off == skip * bs && end == (last + 1) * bs && skip <= last && |f| <= end
    ensures Output(f, bs, skip) == f[Min(off, |f|)..]
  {
    OutputIsOneRead(f, bs, skip, last, off, end);
    ReadReaches(f, off, end - off);
  }

  lemma PastTheEnd(f: Bytes, bs: uint32, skip: uint32, off: nat)
    requires 0 < bs && 0 < |f| <= off && LastBlock(|f|, bs) < skip
    ensures Output(f, bs, skip) == f[Min(off, |f|)..]
  {
    assert Output(f, bs, skip) == [];
  }

  lemma BlocksToEnd(f: Bytes, bs: uint32, skip: uint32, off: nat)
    requires 0 < bs && 0 < |f| && off == skip * bs && LastBlock(|f|, bs) < 0x1_0000_0000
    ensures Output(f, bs, skip) == f[Min(off, |f|)..]
  {
    var last := LastBlock(|f|, bs);
    if skip <= last {
      LastBlockBounds(|f|, bs);
      ReachesEnd(f, bs, skip, last, off, (last + 1) * bs);
    } else {
      InsideIffUpToLast(|f|, bs, skip);
      PastTheEnd(f, bs, skip, off);
    }
  }

  lemma BlocksCutShort(f: Bytes, bs: uint32, skip: uint32, off: nat)
    requires 0 < bs && 0 < |f| && off == skip * bs && LastBlock(|f|, bs) >= 0x1_0000_0000
    ensures Output(f, bs, skip) != f[Min(off, |f|)..]
  {
    var last := LastBlock(|f|, bs) % 0x1_0000_0000;
    InsideIffUpToLast(|f|, bs, skip);
    InsideIffUpToLast(|f|, bs, last + 1);
    if skip <= last {
      var end := (last + 1) * bs;
      OutputIsOneRead(f, bs, skip, last, off, end);
      ReadReaches(f, off, end - off);
    } else {
      assert Output(f, bs, skip) == [];
    }
  }

  /** The reader's output, joined, is the rest of the file from `skip` blocks on exactly when
      the number of the last block survives its conversion to 32 bits. */
  lemma ReaderCoversIff(f: Bytes, bs: uint32, skip: uint32, off: nat)
    requires 0 < bs && 0 < |f| && off == skip * bs
    ensures Output(f, bs, skip) == f[Min(off, |f|)..] <==> LastBlock(|f|, bs) < 0x1_0000_0000
  {
    if LastBlock(|f|, bs) < 0x1_0000_0000 {
      BlocksToEnd(f, bs, skip, off);
    } else {
      BlocksCutShort(f, bs, skip, off);
    }
  }

  /** For every block of a file of less than 2^63 bytes the offset product fits in an int64. */
  lemma OffsetFitsInt64(size: nat, bs: uint32, i: nat)
    requires 0 < bs && 0 < size < 0x8000_0000_0000_0000 && i <= LastBlock(size, bs)
    ensures i * bs < 0x8000_0000_0000_0000
    ensures 0 < BlockLen(size, bs, i) <= bs
  {
    InsideIffUpToLast(size, bs, i);
  }
}
