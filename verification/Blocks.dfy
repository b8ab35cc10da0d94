/** The destination file as a byte sequence: positioned reads and writes, resizing,
    and how blocks of `bs` bytes move under them (reader.go, util_unix.go). */
module Blocks {
  import opened Basics

  /** Resizing: cut off the tail, or extend with zeros (ftruncate). */
  function Resized(f: Bytes, size: nat): (r: Bytes)
    ensures |r| == size
  {
    if size <= |f| then f[..size] else f + Zeros(size - |f|)
  }

  /** A positioned write: the file grows with zeros up to the offset when needed;
      writing nothing changes nothing. */
  function Written(f: Bytes, off: nat, data: Bytes): (r: Bytes) {
    if data == [] then f else
    var g := if |f| < off + |data| then Resized(f, off + |data|) else f;
    g[..off] + data + g[off + |data|..]
  }

  /** A positioned read of at most `n` bytes; empty at or past the end. */
  function ReadAt(f: Bytes, off: nat, n: nat): Bytes {
    f[Min(off, |f|)..Min(off + n, |f|)]
  }

  function BlockOf(f: Bytes, bs: nat, i: nat): Bytes {
    ReadAt(f, i * bs, bs)
  }

  /** A write at block `i`'s offset. */
  function PutBlock(f: Bytes, bs: nat, i: nat, data: Bytes): Bytes {
    Written(f, i * bs, data)
  }

  /** Index of the last block of a non-empty file. */
  function LastBlock(size: nat, bs: nat): nat
    requires 0 < size && 0 < bs
  {
    (size - 1) / bs
  }

  lemma LastBlockBounds(size: nat, bs: nat)
    requires 0 < size && 0 < bs
    ensures LastBlock(size, bs) * bs < size <= (LastBlock(size, bs) + 1) * bs
  {
  }

  lemma MulMonotone(a: nat, b: nat, n: nat)
    requires a <= b
    ensures a * n <= b * n
  {
  }

  /** Block `i` starts inside the file exactly when it is not past the last block. */
  lemma InsideIffUpToLast(size: nat, bs: nat, i: nat)
    requires 0 < size && 0 < bs
    ensures i * bs < size <==> i <= LastBlock(size, bs)
    ensures i < LastBlock(size, bs) ==> (i + 1) * bs <= size
  {
    var last := LastBlock(size, bs);
    LastBlockBounds(size, bs);
    if i < last {
      MulMonotone(i + 1, last, bs);
    } else if last < i {
      MulMonotone(last + 1, i, bs);
    }
  }

  function BlockLen(size: nat, bs: nat, i: nat): (n: nat)
    requires i * bs <= size
  {
    Min(bs, size - i * bs)
  }

  lemma ResizedAt(f: Bytes, size: nat, k: nat)
    requires k < size
    ensures Resized(f, size)[k] == if k < |f| then f[k] else 0
  {
  }

  lemma ResizedRead(f: Bytes, size: nat, off: nat, n: nat)
    requires off <= size
    ensures ReadAt(Resized(f, size), off, n) == Resized(ReadAt(f, off, n), Min(n, size - off))
  {
    var l, r := ReadAt(Resized(f, size), off, n), Resized(ReadAt(f, off, n), Min(n, size - off));
    assert |l| == |r| == Min(n, size - off);
    forall k | 0 <= k < |l|
      ensures l[k] == r[k]
    {
      assert l[k] == Resized(f, size)[off + k];
      ResizedAt(f, size, off + k);
      ResizedAt(ReadAt(f, off, n), |r|, k);
    }
  }

  /** Every block of a resized file is the resized block. */
  lemma ResizedBlock(f: Bytes, size: nat, bs: nat, i: nat)
    requires i * bs <= size
    ensures BlockOf(Resized(f, size), bs, i) == Resized(BlockOf(f, bs, i), BlockLen(size, bs, i))
  {
    ResizedRead(f, size, i * bs, bs);
  }

  lemma WrittenAt(f: Bytes, off: nat, data: Bytes)
    requires data != []
    ensures var w := Written(f, off, data);
      && |w| == (if |f| < off + |data| then off + |data| else |f|)
      && forall k :: 0 <= k < |w| ==>
        w[k] == (if off <= k < off + |data| then data[k - off] else if k < |f| then f[k] else 0)
  {
    var g := if |f| < off + |data| then Resized(f, off + |data|) else f;
    assert forall k :: 0 <= k < |g| ==> g[k] == if k < |f| then f[k] else 0;
  }

  lemma ReadLength(f: Bytes, off: nat, n: nat)
    ensures |ReadAt(f, off, n)| <= n
  {
  }

  lemma BlockLength(f: Bytes, bs: nat, i: nat)
    ensures |BlockOf(f, bs, i)| <= bs
  {
    ReadLength(f, i * bs, bs);
  }

  /** Reading back what was written, and reading elsewhere, in the first `size` bytes. */
  lemma WrittenReadHere(f: Bytes, size: nat, off: nat, data: Bytes, n: nat)
    requires off < size <= |f| && 0 < n && Min(n, size - off) <= |data| <= n
    ensures ReadAt(Resized(Written(f, off, data), size), off, n) == data[..Min(n, size - off)]
  {
    var w := Written(f, off, data);
    WrittenAt(f, off, data);
    var l := ReadAt(Resized(w, size), off, n);
    forall k | 0 <= k < |l|
      ensures k < |data| && l[k] == data[k]
    {
      ByteOfRead(Resized(w, size), off, n, k);
      ResizedAt(w, size, off + k);
    }
  }

  lemma WrittenReadElsewhere(f: Bytes, size: nat, off: nat, data: Bytes, at: nat, n: nat)
    requires off < size <= |f| && 0 < |data| <= n && (at + n <= off || off + n <= at)
    ensures ReadAt(Resized(Written(f, off, data), size), at, n) == ReadAt(Resized(f, size), at, n)
  {
    var w := Written(f, off, data);
    WrittenAt(f, off, data);
    var l, r := ReadAt(Resized(w, size), at, n), ReadAt(Resized(f, size), at, n);
    assert |l| == |r|;
    forall k | 0 <= k < |l|
      ensures l[k] == r[k]
    {
      ByteOfRead(Resized(w, size), at, n, k);
      ByteOfRead(Resized(f, size), at, n, k);
      ResizedAt(w, size, at + k);
      ResizedAt(f, size, at + k);
    }
  }

  /** Writing one block: that block of the first `size` bytes becomes the data written,
      every other block stays as it was, whatever is written past `size`. */
  lemma WriteOneBlock(f: Bytes, size: nat, bs: nat, i: nat, data: Bytes, j: nat)
    requires 0 < bs && i * bs < size <= |f|
    requires BlockLen(size, bs, i) <= |data| <= bs
    ensures j == i ==> BlockOf(Resized(Written(f, i * bs, data), size), bs, j) == data[..BlockLen(size, bs, i)]
    ensures j != i ==>
      BlockOf(Resized(Written(f, i * bs, data), size), bs, j) == BlockOf(Resized(f, size), bs, j)
  {
    if j == i {
      WrittenReadHere(f, size, i * bs, data, bs);
    } else {
      BlocksDisjoint(bs, i, j);
      WrittenReadElsewhere(f, size, i * bs, data, j * bs, bs);
    }
  }

  /** Distinct blocks do not overlap. */
  lemma BlocksDisjoint(bs: nat, i: nat, j: nat)
    requires i != j
    ensures i < j ==> i * bs + bs <= j * bs
    ensures j < i ==> j * bs + bs <= i * bs
  {
    if i < j {
      MulMonotone(i + 1, j, bs);
      NextOffset(i, bs);
    } else {
      MulMonotone(j + 1, i, bs);
      NextOffset(j, bs);
    }
  }

  lemma NextOffset(i: nat, bs: nat)
    ensures (i + 1) * bs == i * bs + bs
  {
  }

  // ---- from blocks to bytes ----

  lemma ByteOfBlock(f: Bytes, bs: nat, i: nat, off: nat)
    requires off < bs && i * bs + off < |f|
    ensures off < |BlockOf(f, bs, i)| && BlockOf(f, bs, i)[off] == f[i * bs + off]
  {
    ByteOfRead(f, i * bs, bs, off);
  }

  lemma ByteOfRead(f: Bytes, at: nat, n: nat, off: nat)
    requires off < n && at + off < |f|
    ensures off < |ReadAt(f, at, n)| && ReadAt(f, at, n)[off] == f[at + off]
  {
  }

  lemma Position(size: nat, bs: nat, p: nat) returns (i: nat, off: nat)
    requires 0 < bs && p < size
    ensures off < bs && p == i * bs + off && i <= LastBlock(size, bs)
  {
    i, off := p / bs, p % bs;
    InsideIffUpToLast(size, bs, i);
  }

  lemma SameBlockSameByte(f: Bytes, g: Bytes, bs: nat, i: nat, off: nat)
    requires off < bs && i * bs + off < |f| == |g| && BlockOf(f, bs, i) == BlockOf(g, bs, i)
    ensures f[i * bs + off] == g[i * bs + off]
  {
    ByteOfBlock(f, bs, i, off);
    ByteOfBlock(g, bs, i, off);
  }
}
