/** The eight-bytes-at-a-time zero test and the shared buffer of zeros (util.go). */
module ZeroTest {
  import opened Basics
  import Wire

  /** The word loaded from eight bytes in memory. */
  function Load64(b: Bytes, i: nat): nat
    requires i + 8 <= |b|
  {
    Wire.Value(b[i..i + 8])
  }

  lemma {:induction false} ValueIsZero(b: Bytes)
    ensures Wire.Value(b) == 0 <==> IsZero(b)
  {
    if b != [] {
      ValueIsZero(b[1..]);
      assert forall k :: 1 <= k < |b| ==> b[k] == b[1..][k - 1];
    }
  }

  lemma LoadIsZero(b: Bytes, i: nat)
    requires i + 8 <= |b|
    ensures Load64(b, i) == 0 <==> forall k :: i <= k < i + 8 ==> b[k] == 0
  {
    ValueIsZero(b[i..i + 8]);
    assert forall k :: i <= k < i + 8 ==> b[k] == b[i..i + 8][k - i];
  }

  /** True exactly when every byte is zero; every load and index is within the block. */
  method IsZeroBlock(b: Bytes) returns (zero: bool)
    ensures zero <==> IsZero(b)
  {
    if |b| < 8 {
      for k := 0 to |b|
        invariant forall j :: 0 <= j < k ==> b[j] == 0
      {
        if b[k] != 0 {
          return false;
        }
      }
      return true;
    }
    var n := |b|;
    var i := 0;
    while i < n - 7
      invariant 0 <= i <= n && i % 8 == 0
      invariant forall j :: 0 <= j < i ==> b[j] == 0
    {
      LoadIsZero(b, i);
      if Load64(b, i) != 0 {
        return false;
      }
      i := i + 8;
    }
    assert i == n - n % 8;
    i := n - n % 8;
    while i < n
      invariant n - n % 8 <= i <= n
      invariant forall j :: 0 <= j < i ==> b[j] == 0
    {
      if b[i] != 0 {
        return false;
      }
      i := i + 1;
    }
    return true;
  }

  const ZERO_BUF_MAX := 100 * 1024 * 1024

  /** The buffer is made on first use and handed out in slices; larger sizes get their own. */
  class ZeroPool {
    var buf: array?<byte>

    ghost predicate Valid()
      reads this, buf
    {
      buf != null ==> buf.Length == ZERO_BUF_MAX && IsZero(buf[..])
    }

    constructor ()
      ensures Valid() && buf == null
    {
      buf := null;
    }

    method Get(size: nat) returns (zeros: Bytes)
      requires Valid()
      modifies this
      ensures Valid() && zeros == Zeros(size)
      ensures old(buf) != null ==> buf == old(buf)
      ensures buf != old(buf) ==> fresh(buf)
    {
      if size <= ZERO_BUF_MAX {
        if buf == null {
          buf := new byte[ZERO_BUF_MAX](i => 0);
        }
        zeros := buf[..size];
      } else {
        zeros := Zeros(size);
      }
    }
  }
}
