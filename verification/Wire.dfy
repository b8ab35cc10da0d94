/** The 40-byte little-endian message header (msg.go). */
module Wire {
  import opened Basics

  const MAGIC_LEN := 17
  const MSG_LEN := 40

  type MagicArray = b: Bytes | |b| == MAGIC_LEN witness Zeros(MAGIC_LEN)

  datatype Msg = Msg(
    magic: MagicArray,
    idx: uint32,
    blockSize: uint32,
    fileSize: uint64,
    dataSize: uint32,
    compressed: bool,
    zero: bool,
    done: bool)

  /** What one write of the protocol puts on a connection: a header, or a payload. */
  datatype Item = Head(msg: Msg) | Body(data: Bytes)

  /** Copies at most 17 bytes; a shorter text is padded with zeros, a longer one is cut. */
  function FixedArray(s: Bytes): (a: MagicArray) {
    s[..Min(|s|, MAGIC_LEN)] + Zeros(MAGIC_LEN - Min(|s|, MAGIC_LEN))
  }

  /** The text "blockSync-ver0.01" in ASCII. */
  const MAGIC: MagicArray :=
    FixedArray([98, 108, 111, 99, 107, 83, 121, 110, 99, 45, 118, 101, 114, 48, 46, 48, 49])

  function LittleEndian(v: nat, n: nat): (b: Bytes)
    ensures |b| == n
  {
    if n == 0 then [] else [v % 256] + LittleEndian(v / 256, n - 1)
  }

  function Value(b: Bytes): nat {
    if b == [] then 0 else b[0] + 256 * Value(b[1..])
  }

  function Flag(f: bool): byte {
    if f then 1 else 0
  }

  /** The header without its three flags. */
  function Fields(m: Msg): (b: Bytes)
    ensures |b| == MSG_LEN - 3
  {
    m.magic + LittleEndian(m.idx, 4) + LittleEndian(m.blockSize, 4) + LittleEndian(m.fileSize, 8)
    + LittleEndian(m.dataSize, 4)
  }

  function Pack(m: Msg): (b: Bytes)
    ensures |b| == MSG_LEN
  {
    Fields(m) + [Flag(m.compressed), Flag(m.zero), Flag(m.done)]
  }

  /** Reads the first 40 bytes; fewer are an error. Any non-zero flag byte reads as true. */
  function Unpack(b: Bytes): Option<Msg> {
    if |b| < MSG_LEN then None
    else
      ValueBound(b[17..21]);
      ValueBound(b[21..25]);
      ValueBound(b[25..33]);
      ValueBound(b[33..37]);
      PowersOf256();
      Some(Msg(b[..17], Value(b[17..21]), Value(b[21..25]), Value(b[25..33]), Value(b[33..37]),
               b[37] != 0, b[38] != 0, b[39] != 0))
  }

  lemma PowersOf256()
    ensures Pow256(4) == 0x1_0000_0000 && Pow256(8) == 0x1_0000_0000_0000_0000
  {
    assert Pow256(4) == 256 * (256 * Pow256(2));
    assert Pow256(8) == 256 * (256 * Pow256(6));
    assert Pow256(6) == 256 * (256 * Pow256(4));
  }

  lemma {:induction false} ValueBound(b: Bytes)
    ensures Value(b) < Pow256(|b|)
  {
    if b != [] {
      ValueBound(b[1..]);
    }
  }

  lemma {:induction false} LittleEndianThenValue(v: nat, n: nat)
    requires v < Pow256(n)
    ensures Value(LittleEndian(v, n)) == v
  {
    if n > 0 {
      LittleEndianThenValue(v / 256, n - 1);
      assert LittleEndian(v, n)[1..] == LittleEndian(v / 256, n - 1);
    }
  }

  lemma {:induction false} ValueThenLittleEndian(b: Bytes)
    ensures LittleEndian(Value(b), |b|) == b
  {
    if b != [] {
      ValueThenLittleEndian(b[1..]);
      assert b == [b[0]] + b[1..];
    }
  }

  /** Unpacking gives back exactly the packed message, whatever follows it. */
  lemma UnpackPack(m: Msg, rest: Bytes)
    ensures Unpack(Pack(m) + rest) == Some(m)
  {
    var b := Pack(m) + rest;
    PowersOf256();
    assert b[..17] == m.magic;
    assert b[17..21] == LittleEndian(m.idx, 4);
    assert b[21..25] == LittleEndian(m.blockSize, 4);
    assert b[25..33] == LittleEndian(m.fileSize, 8);
    assert b[33..37] == LittleEndian(m.dataSize, 4);
    LittleEndianThenValue(m.idx, 4);
    LittleEndianThenValue(m.blockSize, 4);
    LittleEndianThenValue(m.fileSize, 8);
    LittleEndianThenValue(m.dataSize, 4);
  }

  lemma FieldBack(b: Bytes, i: nat, n: nat, v: nat)
    requires i + n <= |b| && v == Value(b[i..i + n])
    ensures LittleEndian(v, n) == b[i..i + n]
  {
    ValueThenLittleEndian(b[i..i + n]);
  }

  lemma FieldsAre(m: Msg, idx: Bytes, blockSize: Bytes, fileSize: Bytes, dataSize: Bytes)
    requires LittleEndian(m.idx, 4) == idx && LittleEndian(m.blockSize, 4) == blockSize
    requires LittleEndian(m.fileSize, 8) == fileSize && LittleEndian(m.dataSize, 4) == dataSize
    ensures Fields(m) == m.magic + idx + blockSize + fileSize + dataSize
  {
  }

  lemma FieldsBack(b: Bytes, m: Msg)
    requires |b| >= MSG_LEN && m.magic == b[..17]
    requires m.idx == Value(b[17..21]) && m.blockSize == Value(b[21..25])
    requires m.fileSize == Value(b[25..33]) && m.dataSize == Value(b[33..37])
    ensures Fields(m) == b[..17] + b[17..21] + b[21..25] + b[25..33] + b[33..37]
  {
    FieldBack(b, 17, 4, m.idx);
    FieldBack(b, 21, 4, m.blockSize);
    FieldBack(b, 25, 8, m.fileSize);
    FieldBack(b, 33, 4, m.dataSize);
    FieldsAre(m, b[17..21], b[21..25], b[25..33], b[33..37]);
  }

  lemma Slices(b: Bytes)
    requires |b| >= MSG_LEN
    ensures b[..17] + b[17..21] + b[21..25] + b[25..33] + b[33..37] == b[..37]
  {
  }

  lemma FieldsUnpack(b: Bytes)
    requires |b| >= MSG_LEN
    ensures Fields(Unpack(b).value) == b[..MSG_LEN - 3]
  {
    FieldsBack(b, Unpack(b).value);
    Slices(b);
  }

  /** Forty bytes survive unpacking and packing exactly when the flag bytes are 0 or 1. */
  lemma PackUnpack(b: Bytes)
    requires |b| == MSG_LEN
    ensures Pack(Unpack(b).value) == b <==> b[37] < 2 && b[38] < 2 && b[39] < 2
  {
    FieldsUnpack(b);
    assert b == b[..MSG_LEN - 3] + [b[37], b[38], b[39]];
  }

  // ---- the layout, byte by byte ----

  lemma MagicText()
    ensures forall j :: 0 <= j < 17 ==> MAGIC[j] == "blockSync-ver0.01"[j] as int
  {
  }

  function Word(b: Bytes, i: nat): nat
    requires i + 4 <= |b|
  {
    b[i] as int + 0x100 * b[i + 1] as int + 0x1_0000 * b[i + 2] as int + 0x100_0000 * b[i + 3] as int
  }

  lemma ValueStep(b: Bytes, i: nat, n: nat)
    requires i + n + 1 <= |b|
    ensures Value(b[i..i + n + 1]) == b[i] + 256 * Value(b[i + 1..i + 1 + n])
  {
    assert b[i..i + n + 1][1..] == b[i + 1..i + 1 + n];
  }

  lemma ValueIsWord(b: Bytes, i: nat)
    requires i + 4 <= |b|
    ensures Value(b[i..i + 4]) == Word(b, i)
  {
    ValueStep(b, i, 3);
    ValueStep(b, i + 1, 2);
    ValueStep(b, i + 2, 1);
    ValueStep(b, i + 3, 0);
  }

  lemma ValueIsTwoWords(b: Bytes, i: nat)
    requires i + 8 <= |b|
    ensures Value(b[i..i + 8]) == Word(b, i) + 0x1_0000_0000 * Word(b, i + 4)
  {
    ValueStep(b, i, 7);
    ValueStep(b, i + 1, 6);
    ValueStep(b, i + 2, 5);
    ValueStep(b, i + 3, 4);
    ValueIsWord(b, i + 4);
  }

  /** Where each field of the header is, and that integers have their least significant byte first. */
  lemma Layout(m: Msg)
    ensures var b := Pack(m);
      && |b| == 40
      && b[..17] == m.magic
      && m.idx == Word(b, 17) && m.blockSize == Word(b, 21)
      && m.fileSize == Word(b, 25) + 0x1_0000_0000 * Word(b, 29)
      && m.dataSize == Word(b, 33)
      && b[37] == (if m.compressed then 1 else 0)
      && b[38] == (if m.zero then 1 else 0)
      && b[39] == (if m.done then 1 else 0)
  {
    var b := Pack(m);
    UnpackPack(m, []);
    assert b + [] == b;
    ValueIsWord(b, 17);
    ValueIsWord(b, 21);
    ValueIsTwoWords(b, 25);
    ValueIsWord(b, 33);
  }
}
