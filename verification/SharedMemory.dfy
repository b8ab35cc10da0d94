/** What always holds of the destination file, the checksum cache and the hash pool together,
    however handlers and pool workers interleave (server.go, checksum.go). */
module SharedMemory {
  import opened Basics
  import opened Blocks
  import opened Hashing
  import opened Packing
  import opened Checksum
  import opened Protocol

  ghost function PriorBlock(c: Cfg, i: nat): Bytes {
    BlockOf(c.prior, c.bs, i)
  }

  /** Block `i` of the old destination once it has the source's length. */
  ghost function GrownBlock(c: Cfg, i: nat): Bytes {
    BlockOf(Resized(c.prior, |c.src|), c.bs, i)
  }

  /** The run's hypotheses: one block size on both ends, a codec that restores what it packs,
      and hashes that tell a source block from the two old contents it is compared with. */
  ghost predicate Hypotheses(c: Cfg) {
    && c.srvBs == c.bs
    && Faithful(c.codec)
    && forall i :: 0 <= i <= Last(c) ==>
      HashDecides(SrcBlock(c, i), PriorBlock(c, i)) && HashDecides(SrcBlock(c, i), GrownBlock(c, i))
  }

  /** The part of the destination that matters: as long as the source, which resizing never changes. */
  ghost function View(c: Cfg, sh: Shared): Bytes {
    Resized(sh.dst, |c.src|)
  }

  ghost function ViewBlock(c: Cfg, sh: Shared, i: nat): Bytes {
    BlockOf(View(c, sh), c.bs, i)
  }

  ghost predicate Synced(c: Cfg, sh: Shared, i: nat) {
    i <= Last(c) && sh.resized && ViewBlock(c, sh, i) == SrcBlock(c, i)
  }

  /** A hash for block `i` is available, so a request for it can be answered. */
  ghost predicate Known(c: Cfg, sh: Shared, i: nat) {
    WaitFor(c, sh, i).Some?
  }

  /** There is something to send for block `b`. */
  ghost predicate Transferable(c: Cfg, b: nat) {
    Packed(c, b).isZero || ToSend(c, b) != []
  }

  // ---- the invariant ----

  ghost predicate SizeInv(c: Cfg, sh: Shared) {
    && |sh.dst| >= |c.src|
    && (|sh.dst| != |c.src| ==>
          && |sh.dst| == (Last(c) + 1) * c.bs && Known(c, sh, Last(c)) && c.skip <= Last(c)
          && IsZero(SrcBlock(c, Last(c))) && !IsZero(PriorBlock(c, Last(c))))
    && IsZero(sh.dst[|c.src|..])
  }

  ghost predicate BlockInv(c: Cfg, sh: Shared, i: nat) {
    || ViewBlock(c, sh, i) == GrownBlock(c, i)
    || (c.skip <= i && Known(c, sh, i) && Transferable(c, i) && ViewBlock(c, sh, i) == SrcBlock(c, i))
  }

  ghost predicate DstInv(c: Cfg, sh: Shared) {
    if sh.resized then SizeInv(c, sh) && forall i :: 0 <= i <= Last(c) ==> BlockInv(c, sh, i)
    else sh.dst == c.prior
  }

  ghost predicate EntryInv(c: Cfg, sh: Shared, i: nat)
    requires i in sh.cache
  {
    || (i <= MaxId(c) && sh.cache[i] == BlockHash(PriorBlock(c, i)))
    || sh.cache[i] == BlockHash(GrownBlock(c, i))
    || (Synced(c, sh, i) && sh.cache[i] == BlockHash(SrcBlock(c, i)))
  }

  ghost predicate CacheInv(c: Cfg, sh: Shared) {
    forall i :: i in sh.cache && i <= Last(c) ==> EntryInv(c, sh, i)
  }

  /** In the range a wait can block on, exactly the blocks whose precomputed hash was stored
      have an entry: no handler is ever the first to make one. */
  ghost predicate JobsInv(c: Cfg, sh: Shared) {
    && (forall i :: i in sh.jobs <==> 0 <= i && InPool(c, i))
    && (forall i :: i in sh.cache && i <= MaxId(c) ==> i in sh.jobs && sh.jobs[i].Stored?)
    && (forall i :: i in sh.jobs && sh.jobs[i].Stored? ==> i in sh.cache)
    && (forall i :: i in sh.jobs && !sh.jobs[i].Todo? ==> 0 < c.srvWorkers)
    && (forall i :: i in sh.jobs && sh.jobs[i].Reading? && i <= Last(c) ==>
          sh.jobs[i].data == PriorBlock(c, i) || sh.jobs[i].data == GrownBlock(c, i))
  }

  ghost predicate SharedInv(c: Cfg, sh: Shared) {
    DstInv(c, sh) && CacheInv(c, sh) && JobsInv(c, sh)
  }

  /** What every step of the server may be relied on to keep. */
  ghost predicate Grows(c: Cfg, sh: Shared, sh': Shared) {
    && (sh.resized ==> sh'.resized)
    && (forall i :: Known(c, sh, i) ==> Known(c, sh', i))
    && (forall i :: Synced(c, sh, i) ==> Synced(c, sh', i))
  }

  // ---- facts about block contents ----

  lemma BlockInside(c: Cfg, i: nat)
    requires i <= Last(c)
    ensures i * c.bs < |c.src| && 0 < BlockLen(|c.src|, c.bs, i) <= c.bs
    ensures |SrcBlock(c, i)| == |GrownBlock(c, i)| == BlockLen(|c.src|, c.bs, i)
    ensures GrownBlock(c, i) == Resized(PriorBlock(c, i), BlockLen(|c.src|, c.bs, i))
  {
    InsideIffUpToLast(|c.src|, c.bs, i);
    ResizedBlock(c.prior, |c.src|, c.bs, i);
    ResizedBlock(c.src, |c.src|, c.bs, i);
  }

  lemma PastPrior(c: Cfg, i: nat)
    requires Hypotheses(c)
    ensures i > MaxId(c) ==> PriorBlock(c, i) == []
    ensures i <= MaxId(c) && 0 < |c.prior| ==> PriorBlock(c, i) != []
  {
    if 0 < |c.prior| {
      InsideIffUpToLast(|c.prior|, c.bs, i);
    }
    ReadEmptyIff(c.prior, i * c.bs, c.bs);
  }

  lemma ReadEmptyIff(f: Bytes, off: nat, n: nat)
    requires 0 < n
    ensures ReadAt(f, off, n) == [] <==> off >= |f|
  {
  }

  /** If the hash of an old content, short or grown, equals the source block's, the grown
      content is the source block. */
  lemma PriorHashDecides(c: Cfg, i: nat)
    requires Hypotheses(c) && i <= Last(c)
    requires BlockHash(PriorBlock(c, i)) == BlockHash(SrcBlock(c, i))
    ensures GrownBlock(c, i) == SrcBlock(c, i)
  {
    BlockInside(c, i);
    assert HashDecides(SrcBlock(c, i), PriorBlock(c, i));
    if PriorBlock(c, i) != SrcBlock(c, i) {
      assert IsZero(GrownBlock(c, i)) && IsZero(SrcBlock(c, i));
    }
  }

  /** Cache agreement: whatever was hashed, resized, overwritten or never cached meanwhile, when
      the hash a wait would return is the source block's, the destination block is the source
      block. */
  lemma CacheAgreement(c: Cfg, sh: Shared, i: nat)
    requires Hypotheses(c) && SharedInv(c, sh) && sh.resized && i <= Last(c)
    requires WaitFor(c, sh, i) == Some(BlockHash(SrcBlock(c, i)))
    ensures Synced(c, sh, i)
  {
    assert BlockInv(c, sh, i);
    if i > MaxId(c) {
      PastPrior(c, i);
      PriorHashDecides(c, i);
    } else {
      assert EntryInv(c, sh, i);
      if sh.cache[i] == BlockHash(PriorBlock(c, i)) {
        PriorHashDecides(c, i);
      } else if sh.cache[i] == BlockHash(GrownBlock(c, i)) {
        assert HashDecides(SrcBlock(c, i), GrownBlock(c, i));
        BlockInside(c, i);
      }
    }
  }

  /** The answer for a block of zeros is another hash only if the old block was not all zeros. */
  lemma NonZeroAnswer(c: Cfg, sh: Shared, i: nat)
    requires SharedInv(c, sh) && i <= Last(c) && IsZero(SrcBlock(c, i)) && Known(c, sh, i)
    requires WaitFor(c, sh, i) != Some(ZERO_HASH)
    ensures !IsZero(PriorBlock(c, i))
  {
    assert EntryInv(c, sh, i);
    BlockInside(c, i);
  }

  /** Every answer to a block of the source is sixteen bytes: neither of the two three-byte
      markers is ever cached for it, across all resizes. */
  lemma ReplyIsSixteenBytes(c: Cfg, sh: Shared, i: nat)
    requires SharedInv(c, sh) && i <= Last(c) && Known(c, sh, i)
    ensures |WaitFor(c, sh, i).value| == 16
  {
    if i <= MaxId(c) {
      assert EntryInv(c, sh, i);
    }
  }

  // ---- the steps on shared memory ----

  lemma SameView(c: Cfg, sh: Shared, sh': Shared)
    requires SharedInv(c, sh)
    requires View(c, sh) == View(c, sh') && sh'.resized && sh'.cache == sh.cache && sh'.jobs == sh.jobs
    requires |sh'.dst| == |c.src|
    ensures SharedInv(c, sh') && Grows(c, sh, sh')
  {
    forall i | 0 <= i <= Last(c)
      ensures BlockInv(c, sh', i)
    {
      assert ViewBlock(c, sh', i) == ViewBlock(c, sh, i);
      if sh.resized {
        assert BlockInv(c, sh, i);
      }
    }
    forall i | i in sh'.cache && i <= Last(c)
      ensures EntryInv(c, sh', i)
    {
      assert EntryInv(c, sh, i);
    }
  }

  lemma MeasureKeeps(c: Cfg, sh: Shared)
    requires SharedInv(c, sh) && |sh.dst| == |c.src|
    ensures SharedInv(c, sh.(resized := true)) && Grows(c, sh, sh.(resized := true))
  {
    SameView(c, sh, sh.(resized := true));
  }

  lemma TruncateKeeps(c: Cfg, sh: Shared)
    requires SharedInv(c, sh)
    ensures var sh' := sh.(dst := Resized(sh.dst, |c.src|), resized := true);
      SharedInv(c, sh') && Grows(c, sh, sh')
  {
    SameView(c, sh, sh.(dst := Resized(sh.dst, |c.src|), resized := true));
  }

  /** A write of a source block: exact, or a whole block of zeros over an old block that is not. */
  ghost predicate CarriesBlock(c: Cfg, i: nat, data: Bytes) {
    && c.skip <= i <= Last(c)
    && (|| data == SrcBlock(c, i)
        || (IsZero(SrcBlock(c, i)) && !IsZero(PriorBlock(c, i)) && data == Zeros(c.bs)))
  }

  /** Only block `i` of the view has changed, and it has become the source block. */
  ghost predicate Rewrote(c: Cfg, sh: Shared, sh': Shared, i: nat) {
    && sh' == sh.(dst := sh'.dst) && i <= Last(c)
    && ViewBlock(c, sh', i) == SrcBlock(c, i)
    && (forall j: nat :: j != i && j <= Last(c) ==> ViewBlock(c, sh', j) == ViewBlock(c, sh, j))
  }

  lemma WriteEffect(c: Cfg, sh: Shared, i: nat, data: Bytes, off: nat)
    requires SizeInv(c, sh) && CarriesBlock(c, i, data) && off == i * c.bs
    ensures Rewrote(c, sh, sh.(dst := Written(sh.dst, off, data)), i)
  {
    var sh' := sh.(dst := Written(sh.dst, off, data));
    BlockInside(c, i);
    WriteOneBlock(sh.dst, |c.src|, c.bs, i, data, i);
    assert data[..BlockLen(|c.src|, c.bs, i)] == SrcBlock(c, i);
    forall j: nat | j != i && j <= Last(c)
      ensures ViewBlock(c, sh', j) == ViewBlock(c, sh, j)
    {
      WriteOneBlock(sh.dst, |c.src|, c.bs, i, data, j);
    }
  }

  /** A write that stays within `size`, or writes zeros up to exactly `top`, leaves a file of
      one of these two lengths with nothing but zeros past `size`. */
  lemma WriteLength(f: Bytes, size: nat, top: nat, off: nat, data: Bytes)
    requires data != [] && size <= top && (|f| == size || |f| == top) && IsZero(f[size..])
    requires off + |data| <= size || (off + |data| == top && IsZero(data))
    ensures var w := Written(f, off, data);
      && (|w| == |f| || (|w| == top && off + |data| == top)) && |w| >= size && IsZero(w[size..])
  {
    WrittenAt(f, off, data);
  }

  /** A carried block stays within the source's length, but for a whole block of zeros at the
      end, which stops where the last block would if it were full. */
  lemma CarriedSpan(c: Cfg, i: nat, data: Bytes, off: nat, top: nat)
    requires CarriesBlock(c, i, data) && off == i * c.bs && top == (Last(c) + 1) * c.bs
    ensures data != [] && |c.src| <= top
    ensures || off + |data| <= |c.src|
            || (&& i == Last(c) && off + |data| == top && IsZero(data)
                && IsZero(SrcBlock(c, i)) && !IsZero(PriorBlock(c, i)))
  {
    BlockInside(c, i);
    InsideIffUpToLast(|c.src|, c.bs, i);
    LastBlockBounds(|c.src|, c.bs);
    NextOffset(i, c.bs);
  }

  lemma TwoSizes(c: Cfg, sh: Shared, top: nat)
    requires SizeInv(c, sh) && top == (Last(c) + 1) * c.bs
    ensures |sh.dst| == |c.src| || |sh.dst| == top
  {
  }

  /** The size stays, or becomes the other one by a write of zeros at the end. */
  lemma SizeStays(c: Cfg, sh: Shared, sh': Shared, i: nat, top: nat)
    requires SizeInv(c, sh) && top == (Last(c) + 1) * c.bs && sh' == sh.(dst := sh'.dst)
    requires |sh'.dst| >= |c.src| && IsZero(sh'.dst[|c.src|..])
    requires |sh'.dst| == |sh.dst| || |sh'.dst| == top
    requires |sh'.dst| != |sh.dst| ==>
      i == Last(c) && c.skip <= i && Known(c, sh, i) && IsZero(SrcBlock(c, i)) && !IsZero(PriorBlock(c, i))
    ensures SizeInv(c, sh')
  {
  }

  lemma WriteKeepsSize(c: Cfg, sh: Shared, i: nat, data: Bytes, off: nat)
    requires SizeInv(c, sh) && CarriesBlock(c, i, data) && Known(c, sh, i) && off == i * c.bs
    ensures SizeInv(c, sh.(dst := Written(sh.dst, off, data)))
  {
    var top := (Last(c) + 1) * c.bs;
    CarriedSpan(c, i, data, off, top);
    TwoSizes(c, sh, top);
    WriteLength(sh.dst, |c.src|, top, off, data);
    SizeStays(c, sh, sh.(dst := Written(sh.dst, off, data)), i, top);
  }

  lemma RewriteGrows(c: Cfg, sh: Shared, sh': Shared, i: nat)
    requires sh.resized && Rewrote(c, sh, sh', i)
    ensures Grows(c, sh, sh') && Synced(c, sh', i)
  {
  }

  lemma RewriteKeepsBlocks(c: Cfg, sh: Shared, sh': Shared, i: nat)
    requires DstInv(c, sh) && sh.resized && Rewrote(c, sh, sh', i) && SizeInv(c, sh')
    requires c.skip <= i && Known(c, sh, i) && Transferable(c, i)
    ensures DstInv(c, sh')
  {
    forall j | 0 <= j <= Last(c)
      ensures BlockInv(c, sh', j)
    {
      assert BlockInv(c, sh, j);
    }
  }

  lemma RewriteKeepsEntries(c: Cfg, sh: Shared, sh': Shared, i: nat)
    requires CacheInv(c, sh) && sh.resized && Rewrote(c, sh, sh', i)
    ensures CacheInv(c, sh')
  {
    RewriteGrows(c, sh, sh', i);
    forall j | j in sh'.cache && j <= Last(c)
      ensures EntryInv(c, sh', j)
    {
      assert EntryInv(c, sh, j);
      assert 0 <= j;
      assert Synced(c, sh, j) ==> Synced(c, sh', j);
    }
  }

  lemma RewriteKeepsJobs(c: Cfg, sh: Shared, sh': Shared, i: nat)
    requires JobsInv(c, sh) && Rewrote(c, sh, sh', i)
    ensures JobsInv(c, sh')
  {
  }

  lemma WriteKeeps(c: Cfg, sh: Shared, i: nat, data: Bytes, off: nat)
    requires SharedInv(c, sh) && sh.resized && CarriesBlock(c, i, data) && off == i * c.bs
    requires Known(c, sh, i) && Transferable(c, i)
    ensures var sh' := sh.(dst := Written(sh.dst, off, data));
      SharedInv(c, sh') && Grows(c, sh, sh') && Synced(c, sh', i)
  {
    var sh' := sh.(dst := Written(sh.dst, off, data));
    WriteKeepsSize(c, sh, i, data, off);
    WriteEffect(c, sh, i, data, off);
    RewriteGrows(c, sh, sh', i);
    RewriteKeepsBlocks(c, sh, sh', i);
    RewriteKeepsEntries(c, sh, sh', i);
    RewriteKeepsJobs(c, sh, sh', i);
  }

  lemma MarkKeeps(c: Cfg, sh: Shared, i: nat, hash: Bytes)
    requires SharedInv(c, sh) && Known(c, sh, i) && Synced(c, sh, i) && hash == BlockHash(SrcBlock(c, i))
    ensures var sh' := sh.(cache := sh.cache[i := hash]); SharedInv(c, sh') && Grows(c, sh, sh')
  {
    var sh' := sh.(cache := sh.cache[i := hash]);
    forall j | 0 <= j <= Last(c)
      ensures BlockInv(c, sh', j)
    {
      assert BlockInv(c, sh, j);
    }
    forall j | j in sh'.cache && j <= Last(c)
      ensures EntryInv(c, sh', j)
    {
      if j != i {
        assert EntryInv(c, sh, j);
      }
    }
  }

  /** Before its hash is known, a block reads as the grown old content. */
  lemma UnknownReadsGrown(c: Cfg, sh: Shared, i: nat)
    requires DstInv(c, sh) && sh.resized && !Known(c, sh, i) && i <= Last(c)
    ensures BlockOf(sh.dst, c.bs, i) == GrownBlock(c, i)
  {
    assert BlockInv(c, sh, i);
    if |sh.dst| == |c.src| {
      assert View(c, sh) == sh.dst;
    } else {
      BlockOfView(c, sh, i);
    }
  }

  /** A pool worker reads the old content or the grown one, never a block already rewritten:
      a write needs an answer, an answer needs the hash this read is for. */
  lemma PoolReadsOldContent(c: Cfg, sh: Shared, i: nat)
    requires SharedInv(c, sh) && i in sh.jobs && !sh.jobs[i].Stored? && i <= Last(c)
    ensures BlockOf(sh.dst, c.bs, i) == PriorBlock(c, i) || BlockOf(sh.dst, c.bs, i) == GrownBlock(c, i)
    ensures !Known(c, sh, i)
  {
    assert i <= MaxId(c) && i !in sh.cache;
    if sh.resized {
      UnknownReadsGrown(c, sh, i);
    }
  }

  lemma BlockOfView(c: Cfg, sh: Shared, i: nat)
    requires i < Last(c) && |sh.dst| >= |c.src|
    ensures BlockOf(sh.dst, c.bs, i) == ViewBlock(c, sh, i)
  {
    InsideIffUpToLast(|c.src|, c.bs, i);
    NextOffset(i, c.bs);
    ReadBelow(sh.dst, |c.src|, i * c.bs, c.bs);
  }

  lemma ReadBelow(f: Bytes, size: nat, off: nat, n: nat)
    requires off + n <= size <= |f|
    ensures ReadAt(f, off, n) == ReadAt(Resized(f, size), off, n)
  {
  }

  lemma JobReadKeeps(c: Cfg, sh: Shared, i: nat)
    requires Hypotheses(c) && SharedInv(c, sh) && i in sh.jobs && sh.jobs[i].Todo? && 0 < c.srvWorkers
    ensures var sh' := sh.(jobs := sh.jobs[i := Reading(BlockOf(sh.dst, c.bs, i))]);
      SharedInv(c, sh') && Grows(c, sh, sh')
  {
    var sh' := sh.(jobs := sh.jobs[i := Reading(BlockOf(sh.dst, c.bs, i))]);
    if i <= Last(c) {
      PoolReadsOldContent(c, sh, i);
    }
    forall j | 0 <= j <= Last(c) && sh.resized
      ensures BlockInv(c, sh', j)
    {
      assert BlockInv(c, sh, j);
    }
    forall j | j in sh'.cache && j <= Last(c)
      ensures EntryInv(c, sh', j)
    {
      assert EntryInv(c, sh, j);
    }
  }

  lemma JobStoreKeeps(c: Cfg, sh: Shared, i: nat)
    requires Hypotheses(c) && SharedInv(c, sh) && i in sh.jobs && sh.jobs[i].Reading?
    ensures var sh' := sh.(jobs := sh.jobs[i := Stored], cache := sh.cache[i := JobHash(sh.jobs[i].data)]);
      SharedInv(c, sh') && Grows(c, sh, sh')
  {
    var sh' := sh.(jobs := sh.jobs[i := Stored], cache := sh.cache[i := JobHash(sh.jobs[i].data)]);
    forall j | 0 <= j <= Last(c) && sh.resized
      ensures BlockInv(c, sh', j)
    {
      assert BlockInv(c, sh, j);
    }
    forall j | j in sh'.cache && j <= Last(c)
      ensures EntryInv(c, sh', j)
    {
      if j != i {
        assert EntryInv(c, sh, j);
      } else {
        PastPrior(c, i);
        BlockInside(c, i);
      }
    }
  }

  lemma InitSharedInv(c: Cfg)
    ensures SharedInv(c, Init(c).sh)
  {
  }
}
