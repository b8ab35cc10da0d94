/** The checksum cache and the two loops that fill it and prepare blocks (checksum.go). Here
    each loop runs alone; how pool workers and handlers interleave is module Protocol's. */
module Checksum {
  import opened Basics
  import opened Blocks
  import opened Hashing
  import opened Packing
  import ZeroTest

  /** The marker cached for a block past the end of the file: "EOF" in ASCII. */
  const EOF_MARK: Bytes := [69, 79, 70]

  /** The marker cached for a block that could not be read: "ERR" in ASCII. */
  const ERR_MARK: Bytes := [69, 82, 82]

  /** What the pool caches for the bytes it has read. */
  function JobHash(data: Bytes): Bytes {
    if data == [] then EOF_MARK else BlockHash(data)
  }

  /** What a wait for entry `i` returns; None as long as it would block. */
  function Lookup(maxId: nat, data: map<nat, Bytes>, i: nat): Option<Bytes> {
    if i > maxId then Some(ZERO_HASH)
    else if i in data then Some(data[i])
    else None
  }

  class ChecksumCache {
    var data: map<nat, Bytes>
    var ready: map<nat, bool>
    const maxId: nat

    ghost predicate Valid()
      reads this
    {
      data.Keys == ready.Keys && forall i :: i in ready ==> ready[i]
    }

    constructor (maxId: nat)
      ensures Valid() && data == map[] && this.maxId == maxId
    {
      data, ready := map[], map[];
      this.maxId := maxId;
    }

    method Set(idx: nat, checksum: Bytes)
      requires Valid()
      modifies this
      ensures Valid() && data == old(data)[idx := checksum]
    {
      data := data[idx := checksum];
      ready := ready[idx := true];
    }

    /** One look under the lock: None means that the caller goes on waiting. */
    method WaitFor(idx: nat) returns (r: Option<Bytes>)
      requires Valid()
      ensures r == Lookup(maxId, data, idx)
    {
      if idx > maxId {
        return Some(Zeros(16));
      }
      if !(idx in ready && ready[idx]) {
        return None;
      }
      return Some(data[idx]);
    }
  }

  /** One turn of a pool worker: what was read goes through the shared buffer and is hashed. */
  method HashRead(data: Bytes, buf: Bytes) returns (buf': Bytes, hash: Bytes)
    requires |data| <= |buf|
    ensures |buf'| == |buf| && hash == JobHash(data)
  {
    var n := |data|;
    buf' := data + buf[n..];
    assert buf'[..n] == data;
    if n == 0 {
      hash := EOF_MARK;
    } else {
      var zero := ZeroTest.IsZeroBlock(buf'[..n]);
      hash := if zero then ZERO_HASH else Fnv(buf'[..n]);
    }
  }

  /** What is cached for block `i` of a file some blocks of which cannot be read. */
  ghost function Entry(file: Bytes, bs: nat, bad: set<nat>, i: nat): Bytes {
    if i in bad then ERR_MARK else JobHash(BlockOf(file, bs, i))
  }

  /** The cache content with the entries of blocks `lo` to `hi` of a file made over `m`. */
  ghost function Filled(m: map<nat, Bytes>, file: Bytes, bs: nat, bad: set<nat>, lo: nat, hi: nat): map<nat, Bytes>
    decreases hi - lo
  {
    if lo < hi then Filled(m, file, bs, bad, lo, hi - 1)[hi - 1 := Entry(file, bs, bad, hi - 1)] else m
  }

  /** Exactly the range is new or renewed, with the entry of each block. */
  lemma {:induction false} FilledAt(m: map<nat, Bytes>, file: Bytes, bs: nat, bad: set<nat>, lo: nat, hi: nat, i: nat)
    ensures var f := Filled(m, file, bs, bad, lo, hi);
      if lo <= i < hi then i in f && f[i] == Entry(file, bs, bad, i)
      else (i in f <==> i in m) && (i in m ==> f[i] == m[i])
    decreases hi - lo
  {
    if lo < hi {
      FilledAt(m, file, bs, bad, lo, hi - 1, i);
    }
  }

  /** Reading and hashing block after block, as one worker does with the numbers it takes. */
  method PrecomputeChecksums(
      file: Bytes, blockSize: uint32, lastBlockNum: uint32, cache: ChecksumCache, skipIdx: uint32, bad: set<nat>)
    requires cache.Valid() && lastBlockNum < 0xffff_ffff
    modifies cache
    ensures cache.Valid()
    ensures cache.data == Filled(old(cache.data), file, blockSize, bad, skipIdx, lastBlockNum + 1)
  {
    var buf := Zeros(blockSize);
    var idx: uint32 := skipIdx;
    while idx <= lastBlockNum
      invariant cache.Valid() && |buf| == blockSize
      invariant skipIdx <= idx && (idx <= lastBlockNum + 1 || idx == skipIdx)
      invariant cache.data == Filled(old(cache.data), file, blockSize, bad, skipIdx, idx)
      decreases lastBlockNum + 1 - idx
    {
      if idx in bad {
        cache.Set(idx, ERR_MARK);
      } else {
        BlockLength(file, blockSize, idx);
        var hash: Bytes;
        buf, hash := HashRead(BlockOf(file, blockSize, idx), buf);
        cache.Set(idx, hash);
      }
      idx := idx + 1;
    }
  }

  ghost function Awaited(file: Bytes, bs: nat, bad: set<nat>, skip: nat, maxId: nat, i: nat): Option<Bytes> {
    if i > maxId then Some(ZERO_HASH)
    else if 0 < |file| && skip <= i then Some(Entry(file, bs, bad, i))
    else None
  }

  /** A wait after the pool has run over a fresh cache returns exactly for the blocks past its
      range and those of the range covered, with zeros and with the block's entry. */
  method PrecomputeAll(file: Bytes, blockSize: uint32, skipIdx: uint32, bad: set<nat>) returns (cache: ChecksumCache)
    requires 0 < blockSize && (0 < |file| ==> LastBlock(|file|, blockSize) < 0xffff_ffff)
    ensures fresh(cache) && cache.Valid()
    ensures cache.maxId == if 0 < |file| then LastBlock(|file|, blockSize) else 0
    ensures forall i: nat ::
      Lookup(cache.maxId, cache.data, i) == Awaited(file, blockSize, bad, skipIdx, cache.maxId, i)
  {
    if |file| > 0 {
      var lastBlockNum := LastBlock(|file|, blockSize);
      cache := new ChecksumCache(lastBlockNum);
      PrecomputeChecksums(file, blockSize, lastBlockNum, cache, skipIdx, bad);
      forall i: nat
        ensures Lookup(cache.maxId, cache.data, i) == Awaited(file, blockSize, bad, skipIdx, cache.maxId, i)
      {
        FilledAt(map[], file, blockSize, bad, skipIdx, lastBlockNum + 1, i);
      }
    } else {
      cache := new ChecksumCache(0);
    }
  }

  /** The cache content with the hashes of prepared blocks entered over `m`, in order. */
  ghost function Entered(m: map<nat, Bytes>, out: seq<PackedBlock>): map<nat, Bytes> {
    if out == [] then m else Entered(m, out[..|out| - 1])[out[|out| - 1].idx := out[|out| - 1].hash]
  }

  /** One hash worker's loop over the blocks it takes: each is tested, hashed, compressed when that
      helps, cached, and handed on in the form module Packing describes. Compression never fails
      (compress.go). */
  method PackBlocks(codec: Codec, blocks: seq<(nat, Bytes)>, cache: ChecksumCache) returns (out: seq<PackedBlock>)
    requires cache.Valid()
    modifies cache
    ensures cache.Valid() && |out| == |blocks|
    ensures forall k :: 0 <= k < |blocks| ==>
      out[k].idx == blocks[k].0 && out[k].hash == BlockHash(blocks[k].1) && out[k].isZero == IsZero(blocks[k].1)
    ensures forall k :: 0 <= k < |blocks| && !out[k].isZero ==>
      if out[k].useCompressed then out[k].compressed == codec.compress(blocks[k].1)
      else out[k].data == blocks[k].1
    ensures forall k :: 0 <= k < |blocks| ==> out[k] == PackBlock(codec, blocks[k].0, blocks[k].1)
    ensures cache.data == Entered(old(cache.data), out)
  {
    out := [];
    for k := 0 to |blocks|
      invariant cache.Valid() && |out| == k
      invariant forall j :: 0 <= j < k ==> out[j] == PackBlock(codec, blocks[j].0, blocks[j].1)
      invariant cache.data == Entered(old(cache.data), out)
    {
      var (idx, data) := blocks[k];
      var hash: Bytes, compressed: Bytes, original: Bytes, useCompressed := ZERO_HASH, [], [], false;
      var isZero := ZeroTest.IsZeroBlock(data);
      if !isZero {
        hash := Fnv(data);
        var comp := codec.compress(data);
        if |comp| < |data| {
          compressed, useCompressed := comp, true;
        } else {
          original := data;
        }
      }
      cache.Set(idx, hash);
      var packed := PackedBlock(idx, hash, original, compressed, useCompressed, isZero);
      assert (out + [packed])[..|out|] == out;
      out := out + [packed];
    }
  }
}
