/** The block hash (checksum.go): FNV-128a of a non-zero block, sixteen zero bytes for a
    block of zeros. FNV-128a is section 2 of draft-eastlake-fnv. */
module Hashing {
  import opened Basics

  const MODULUS: int := 0x1_00000000000000000000000000000000
  const BASIS: int := 0x6c62272e07bb014262b821756295c58d
  const PRIME: int := 0x0000000001000000000000000000013b

  type uint128 = x: int | 0 <= x < MODULUS

  /** Bitwise exclusive-or of the low `n` bits. */
  function Xor(a: nat, b: nat, n: nat): (r: nat)
    ensures r < Pow2(n)
  {
    if n == 0 then 0
    else 2 * Xor(a / 2, b / 2, n - 1) + (if a % 2 == b % 2 then 0 else 1)
  }

  function Pow2(n: nat): (p: nat) {
    if n == 0 then 1 else 2 * Pow2(n - 1)
  }

  /** The byte is mixed into the low eight bits of the state. */
  function Mix(h: uint128, x: byte): (r: uint128)
    ensures r / 256 == h / 256 && r % 256 == Xor(h % 256, x, 8)
  {
    assert Pow2(8) == 256;
    h - h % 256 + Xor(h % 256, x, 8)
  }

  function Times(a: uint128): uint128 {
    a * PRIME % MODULUS
  }

  function Absorb(h: uint128, x: byte): uint128 {
    Times(Mix(h, x))
  }

  function Fold(h: uint128, b: Bytes): uint128
    decreases b
  {
    if b == [] then h else Fold(Absorb(h, b[0]), b[1..])
  }

  /** Big-endian encoding in `n` bytes, as the hasher's Sum writes it. */
  function BigEndian(h: nat, n: nat): (b: Bytes)
    ensures |b| == n
  {
    if n == 0 then [] else BigEndian(h / 256, n - 1) + [h % 256]
  }

  /** The digest, byte by byte. */
  function Fnv(b: Bytes): (h: Bytes)
    ensures |h| == 16
  {
    seq(16, i requires 0 <= i < 16 => BigEndian(Fold(BASIS, b), 16)[i])
  }

  lemma FnvIsBigEndian(b: Bytes)
    ensures Fnv(b) == BigEndian(Fold(BASIS, b), 16)
  {
  }

  const ZERO_HASH: Bytes := Zeros(16)

  /** What both sides cache and compare for a block. */
  function BlockHash(b: Bytes): (h: Bytes)
    ensures |h| == 16
  {
    if IsZero(b) then ZERO_HASH else Fnv(b)
  }

  /** Equal hashes of these two contents mean equal contents, or zeros on both sides:
      the only form of collision-freedom the synchronisation relies on. */
  ghost predicate HashDecides(x: Bytes, y: Bytes) {
    BlockHash(x) == BlockHash(y) ==> x == y || (IsZero(x) && IsZero(y))
  }

  // ---- no single-byte change is missed, with no assumption on collisions ----

  lemma {:induction false} XorInjective(a: nat, b: nat, x: nat, n: nat)
    requires a < Pow2(n) && b < Pow2(n)
    requires Xor(a, x, n) == Xor(b, x, n)
    ensures a == b
  {
    if n > 0 {
      XorInjective(a / 2, b / 2, x / 2, n - 1);
    }
  }

  lemma {:induction false} XorCommutes(a: nat, b: nat, n: nat)
    ensures Xor(a, b, n) == Xor(b, a, n)
  {
    if n > 0 {
      XorCommutes(a / 2, b / 2, n - 1);
    }
  }

  lemma Remainder(x: int, a: uint128, t: int)
    requires x == a + MODULUS * t
    ensures x % MODULUS == a
  {
    var q, r := x / MODULUS, x % MODULUS;
    assert x == MODULUS * q + r;
    assert MODULUS * (t - q) == r - a;
  }

  const INVERSE: int := 0xb1041ad2562ff2ff2ff2ff2ff2ff2ff3
  const CARRY: int := 0xb1041ad2562ff2ff2ff3d9

  lemma InverseOfPrime()
    ensures PRIME * INVERSE == 1 + CARRY * MODULUS
  {
  }

  lemma Rearranged(a: int, p: int, q: int, n: int, v: int, k: int)
    requires p * v == 1 + k * n
    ensures (a * p - q * n) * v == a + n * (a * k - q * v)
  {
    calc {
      (a * p - q * n) * v;
      a * (p * v) - q * n * v;
      a * (1 + k * n) - q * n * v;
      a + n * (a * k - q * v);
    }
  }

  /** Multiplying by the odd prime is undone by multiplying by its inverse modulo 2^128. */
  lemma TimesInvertible(a: uint128)
    ensures Times(a) * INVERSE % MODULUS == a
  {
    InverseOfPrime();
    var q := a * PRIME / MODULUS;
    Rearranged(a, PRIME, q, MODULUS, INVERSE, CARRY);
    Remainder(Times(a) * INVERSE, a, a * CARRY - q * INVERSE);
  }

  lemma TimesInjective(a: uint128, b: uint128)
    requires Times(a) == Times(b)
    ensures a == b
  {
    TimesInvertible(a);
    TimesInvertible(b);
  }

  lemma AbsorbInjective(g: uint128, h: uint128, x: byte)
    requires Absorb(g, x) == Absorb(h, x)
    ensures g == h
  {
    TimesInjective(Mix(g, x), Mix(h, x));
    assert Pow2(8) == 256;
    XorInjective(g % 256, h % 256, x, 8);
  }

  lemma AbsorbSeparates(h: uint128, x: byte, y: byte)
    requires Absorb(h, x) == Absorb(h, y)
    ensures x == y
  {
    TimesInjective(Mix(h, x), Mix(h, y));
    assert Pow2(8) == 256;
    XorCommutes(h % 256, x, 8);
    XorCommutes(h % 256, y, 8);
    XorInjective(x, y, h % 256, 8);
  }

  lemma {:induction false} FoldInjective(g: uint128, h: uint128, b: Bytes)
    requires Fold(g, b) == Fold(h, b)
    ensures g == h
    decreases b
  {
    if b != [] {
      FoldInjective(Absorb(g, b[0]), Absorb(h, b[0]), b[1..]);
      AbsorbInjective(g, h, b[0]);
    }
  }

  lemma {:induction false} FoldSplits(h: uint128, a: Bytes, b: Bytes)
    ensures Fold(h, a + b) == Fold(Fold(h, a), b)
    decreases a
  {
    if a == [] {
      assert a + b == b;
    } else {
      assert (a + b)[1..] == a[1..] + b;
      FoldSplits(Absorb(h, a[0]), a[1..], b);
    }
  }

  lemma {:induction false} BigEndianInjective(g: nat, h: nat, n: nat)
    requires g < Pow256(n) && h < Pow256(n) && BigEndian(g, n) == BigEndian(h, n)
    ensures g == h
  {
    if n > 0 {
      var x, y := BigEndian(g / 256, n - 1), BigEndian(h / 256, n - 1);
      assert x == BigEndian(g, n)[..n - 1] == BigEndian(h, n)[..n - 1] == y;
      assert BigEndian(g, n)[n - 1] == BigEndian(h, n)[n - 1];
      BigEndianInjective(g / 256, h / 256, n - 1);
    }
  }

  /** The state after absorbing a block tells two blocks apart that differ in one byte. */
  lemma FoldSeparates(pre: Bytes, x: byte, y: byte, post: Bytes)
    requires Fold(BASIS, pre + ([x] + post)) == Fold(BASIS, pre + ([y] + post))
    ensures x == y
  {
    FoldSplits(BASIS, pre, [x] + post);
    FoldSplits(BASIS, pre, [y] + post);
    var h := Fold(BASIS, pre);
    assert ([x] + post)[1..] == post && ([y] + post)[1..] == post;
    FoldInjective(Absorb(h, x), Absorb(h, y), post);
    AbsorbSeparates(h, x, y);
  }

  /** Two non-zero blocks of equal length that differ in exactly one byte have different
      hashes, so the change is always transferred. */
  lemma SingleByteChangeDetected(x: Bytes, y: Bytes, k: nat)
    requires |x| == |y| && k < |x| && x[k] != y[k]
    requires forall j :: 0 <= j < |x| && j != k ==> x[j] == y[j]
    requires !IsZero(x) && !IsZero(y)
    ensures BlockHash(x) != BlockHash(y)
  {
    var pre, post := x[..k], x[k + 1..];
    assert x == pre + ([x[k]] + post) && y == pre + ([y[k]] + post);
    if Fold(BASIS, x) == Fold(BASIS, y) {
      FoldSeparates(pre, x[k], y[k], post);
    }
    if BlockHash(x) == BlockHash(y) {
      Pow256At16();
      FnvIsBigEndian(x);
      FnvIsBigEndian(y);
      BigEndianInjective(Fold(BASIS, x), Fold(BASIS, y), 16);
    }
  }

  lemma {:induction false} BigEndianZero(n: nat)
    ensures BigEndian(0, n) == Zeros(n)
  {
    if n > 0 {
      BigEndianZero(n - 1);
    }
  }

  /** The digest of a single byte is never the hash that stands for zeros. */
  lemma OneByteHash(x: byte)
    ensures Fnv([x]) != ZERO_HASH
  {
    var b: Bytes := [x];
    var h := Absorb(BASIS, x);
    assert b[0] == x && b[1..] == [];
    assert Fold(BASIS, b) == Fold(h, b[1..]) == h;
    if Fnv(b) == ZERO_HASH {
      FnvIsBigEndian(b);
      BigEndianZero(16);
      Pow256At16();
      BigEndianInjective(h, 0, 16);
      TimesInjective(Mix(BASIS, x), 0);
    }
  }

  lemma Pow256At16()
    ensures Pow256(16) == MODULUS
  {
    assert Pow256(4) == 0x1_0000_0000;
    assert Pow256(8) == 0x1_0000_0000_0000_0000;
    assert Pow256(12) == 0x1_000000000000000000000000;
  }

  // ---- known digests of FNV-128a ----

  lemma FnvIs(b: Bytes, h: uint128, digest: Bytes)
    requires Fold(BASIS, b) == h && BigEndian(h, 16) == digest
    ensures Fnv(b) == digest
  {
    FnvIsBigEndian(b);
  }

  lemma LastByte(h: nat, n: nat, q: nat, x: byte)
    requires h == q * 256 + x
    ensures BigEndian(h, n + 1) == BigEndian(q, n) + [x]
  {
  }

  lemma LastFourBytes(h: nat, n: nat, q: nat, v: byte, x: byte, y: byte, z: byte)
    requires h == (((q * 256 + v) * 256 + x) * 256 + y) * 256 + z
    ensures BigEndian(h, n + 4) == BigEndian(q, n) + [v, x, y, z]
  {
    LastByte(h, n + 3, ((q * 256 + v) * 256 + x) * 256 + y, z);
    LastByte(((q * 256 + v) * 256 + x) * 256 + y, n + 2, (q * 256 + v) * 256 + x, y);
    LastByte((q * 256 + v) * 256 + x, n + 1, q * 256 + v, x);
    LastByte(q * 256 + v, n, q, v);
  }

  lemma BytesOfBasis()
    ensures BigEndian(0x6c62272e07bb014262b821756295c58d, 16) ==
      [0x6c, 0x62, 0x27, 0x2e, 0x07, 0xbb, 0x01, 0x42, 0x62, 0xb8, 0x21, 0x75, 0x62, 0x95, 0xc5, 0x8d]
  {
    LastFourBytes(0x6c62272e07bb014262b821756295c58d, 12, 0x6c62272e07bb014262b82175, 0x62, 0x95, 0xc5, 0x8d);
    LastFourBytes(0x6c62272e07bb014262b82175, 8, 0x6c62272e07bb0142, 0x62, 0xb8, 0x21, 0x75);
    LastFourBytes(0x6c62272e07bb0142, 4, 0x6c62272e, 0x07, 0xbb, 0x01, 0x42);
    LastFourBytes(0x6c62272e, 0, 0, 0x6c, 0x62, 0x27, 0x2e);
  }

  /** The digest of nothing is the offset basis, most significant byte first. */
  lemma EmptyDigest()
    ensures Fnv([]) == [0x6c, 0x62, 0x27, 0x2e, 0x07, 0xbb, 0x01, 0x42, 0x62, 0xb8, 0x21, 0x75, 0x62, 0x95, 0xc5, 0x8d]
  {
    BytesOfBasis();
    FnvIs([], 0x6c62272e07bb014262b821756295c58d,
      [0x6c, 0x62, 0x27, 0x2e, 0x07, 0xbb, 0x01, 0x42, 0x62, 0xb8, 0x21, 0x75, 0x62, 0x95, 0xc5, 0x8d]);
  }

  lemma AbsorbIs(h: uint128, x: byte, last: byte, low: byte, q: nat, r: uint128)
    requires h % 256 == last && Xor(last, x, 8) == low && (h - last + low) * PRIME == r + MODULUS * q
    ensures Absorb(h, x) == r
  {
    Remainder((h - last + low) * PRIME, r, q);
  }

  lemma XorBit(a: nat, b: nat, i: nat, j: nat, n: nat)
    requires i < 2 && j < 2
    ensures Xor(2 * a + i, 2 * b + j, n + 1) == 2 * Xor(a, b, n) + if i == j then 0 else 1
  {
  }

  lemma MixedA()
    ensures Xor(0x8d, 0x61, 8) == 0xec
  {
    XorBit(0x00, 0x00, 1, 0, 0);
    XorBit(0x01, 0x00, 0, 1, 1);
    XorBit(0x02, 0x01, 0, 1, 2);
    XorBit(0x04, 0x03, 0, 0, 3);
    XorBit(0x08, 0x06, 1, 0, 4);
    XorBit(0x11, 0x0c, 1, 0, 5);
    XorBit(0x23, 0x18, 0, 0, 6);
    XorBit(0x46, 0x30, 1, 1, 7);
  }

  lemma MixedB()
    ensures Xor(0x64, 0x62, 8) == 0x06
  {
    XorBit(0x00, 0x00, 0, 0, 0);
    XorBit(0x00, 0x00, 1, 1, 1);
    XorBit(0x01, 0x01, 1, 1, 2);
    XorBit(0x03, 0x03, 0, 0, 3);
    XorBit(0x06, 0x06, 0, 0, 4);
    XorBit(0x0c, 0x0c, 1, 0, 5);
    XorBit(0x19, 0x18, 0, 1, 6);
    XorBit(0x32, 0x31, 0, 0, 7);
  }

  lemma MixedC()
    ensures Xor(0x62, 0x63, 8) == 0x01
  {
    XorBit(0x00, 0x00, 0, 0, 0);
    XorBit(0x00, 0x00, 1, 1, 1);
    XorBit(0x01, 0x01, 1, 1, 2);
    XorBit(0x03, 0x03, 0, 0, 3);
    XorBit(0x06, 0x06, 0, 0, 4);
    XorBit(0x0c, 0x0c, 0, 0, 5);
    XorBit(0x18, 0x18, 1, 1, 6);
    XorBit(0x31, 0x31, 0, 1, 7);
  }

  lemma FoldOne(h: uint128, x: byte, b: Bytes)
    ensures Fold(h, [x] + b) == Fold(Absorb(h, x), b)
  {
    assert ([x] + b)[1..] == b;
  }

  lemma ProductA()
    ensures BASIS % 256 == 0x8d
    ensures (BASIS - 0x8d + 0xec) * PRIME == 0xd228cb696f1a8caf78912b704e4a8964 + MODULUS * 0x6c62272e07bb014262b8a6
  {
  }

  lemma AfterA()
    ensures Absorb(BASIS, 0x61) == 0xd228cb696f1a8caf78912b704e4a8964
  {
    MixedA();
    ProductA();
    AbsorbIs(BASIS, 0x61, 0x8d, 0xec, 0x6c62272e07bb014262b8a6, 0xd228cb696f1a8caf78912b704e4a8964);
  }

  lemma AfterAb()
    ensures Absorb(0xd228cb696f1a8caf78912b704e4a8964, 0x62) == 0x8809544bbab1be95aa0733055b69a62
  {
    MixedB();
    AbsorbIs(
      0xd228cb696f1a8caf78912b704e4a8964, 0x62, 0x64, 0x06, 0xd228cb696f1a8caf78922e,
      0x8809544bbab1be95aa0733055b69a62);
  }

  lemma AfterAbc()
    ensures Absorb(0x8809544bbab1be95aa0733055b69a62, 0x63) == 0xa68d622cec8b5822836dbc7977af7f3b
  {
    MixedC();
    AbsorbIs(
      0x8809544bbab1be95aa0733055b69a62, 0x63, 0x62, 0x01, 0x8809544bbab1be95aa07d, 0xa68d622cec8b5822836dbc7977af7f3b);
  }

  lemma BytesOfA()
    ensures BigEndian(0xd228cb696f1a8caf78912b704e4a8964, 16) ==
      [0xd2, 0x28, 0xcb, 0x69, 0x6f, 0x1a, 0x8c, 0xaf, 0x78, 0x91, 0x2b, 0x70, 0x4e, 0x4a, 0x89, 0x64]
  {
    LastFourBytes(0xd228cb696f1a8caf78912b704e4a8964, 12, 0xd228cb696f1a8caf78912b70, 0x4e, 0x4a, 0x89, 0x64);
    LastFourBytes(0xd228cb696f1a8caf78912b70, 8, 0xd228cb696f1a8caf, 0x78, 0x91, 0x2b, 0x70);
    LastFourBytes(0xd228cb696f1a8caf, 4, 0xd228cb69, 0x6f, 0x1a, 0x8c, 0xaf);
    LastFourBytes(0xd228cb69, 0, 0, 0xd2, 0x28, 0xcb, 0x69);
  }

  lemma BytesOfAbc()
    ensures BigEndian(0xa68d622cec8b5822836dbc7977af7f3b, 16) ==
      [0xa6, 0x8d, 0x62, 0x2c, 0xec, 0x8b, 0x58, 0x22, 0x83, 0x6d, 0xbc, 0x79, 0x77, 0xaf, 0x7f, 0x3b]
  {
    LastFourBytes(0xa68d622cec8b5822836dbc7977af7f3b, 12, 0xa68d622cec8b5822836dbc79, 0x77, 0xaf, 0x7f, 0x3b);
    LastFourBytes(0xa68d622cec8b5822836dbc79, 8, 0xa68d622cec8b5822, 0x83, 0x6d, 0xbc, 0x79);
    LastFourBytes(0xa68d622cec8b5822, 4, 0xa68d622c, 0xec, 0x8b, 0x58, 0x22);
    LastFourBytes(0xa68d622c, 0, 0, 0xa6, 0x8d, 0x62, 0x2c);
  }

  /** The digest of "a". */
  lemma DigestOfA()
    ensures Fnv([0x61]) ==
      [0xd2, 0x28, 0xcb, 0x69, 0x6f, 0x1a, 0x8c, 0xaf, 0x78, 0x91, 0x2b, 0x70, 0x4e, 0x4a, 0x89, 0x64]
  {
    FoldOne(BASIS, 0x61, []);
    AfterA();
    BytesOfA();
    assert [0x61] + [] == [0x61];
    FnvIs([0x61], 0xd228cb696f1a8caf78912b704e4a8964,
      [0xd2, 0x28, 0xcb, 0x69, 0x6f, 0x1a, 0x8c, 0xaf, 0x78, 0x91, 0x2b, 0x70, 0x4e, 0x4a, 0x89, 0x64]);
  }

  lemma StateAfterAbc()
    ensures Fold(BASIS, [0x61, 0x62, 0x63]) == 0xa68d622cec8b5822836dbc7977af7f3b
  {
    var a: byte, b: byte, c: byte := 0x61, 0x62, 0x63;
    var g: uint128, h: uint128 := 0xd228cb696f1a8caf78912b704e4a8964, 0x8809544bbab1be95aa0733055b69a62;
    AfterA();
    AfterAb();
    AfterAbc();
    FoldOne(BASIS, a, [b, c]);
    FoldOne(g, b, [c]);
    FoldOne(h, c, []);
    assert [a] + [b, c] == [a, b, c] && [b] + [c] == [b, c] && [c] + [] == [c];
  }

  /** The digest of "abc". */
  lemma DigestOfAbc()
    ensures Fnv([0x61, 0x62, 0x63]) ==
      [0xa6, 0x8d, 0x62, 0x2c, 0xec, 0x8b, 0x58, 0x22, 0x83, 0x6d, 0xbc, 0x79, 0x77, 0xaf, 0x7f, 0x3b]
  {
    StateAfterAbc();
    BytesOfAbc();
    FnvIs([0x61, 0x62, 0x63], 0xa68d622cec8b5822836dbc7977af7f3b,
      [0xa6, 0x8d, 0x62, 0x2c, 0xec, 0x8b, 0x58, 0x22, 0x83, 0x6d, 0xbc, 0x79, 0x77, 0xaf, 0x7f, 0x3b]);
  }
}
