/** What a hash worker prepares for a block, and what is later sent for it
    (checksum.go, client.go, compress.go). */
module Packing {
  import opened Basics
  import opened Hashing

  /** Compression, with encryption on top when enabled: two functions the model does not look into. */
  datatype Codec = Codec(compress: Bytes -> Bytes, decompress: Bytes -> Option<Bytes>)

  /** Decompressing restores what was compressed, and a non-empty block never compresses to nothing. */
  ghost predicate Faithful(codec: Codec) {
    && (forall x :: codec.decompress(codec.compress(x)) == Some(x))
    && (forall x :: x != [] ==> codec.compress(x) != [])
  }

  datatype PackedBlock = PackedBlock(
    idx: nat, hash: Bytes, data: Bytes, compressed: Bytes, useCompressed: bool, isZero: bool)

  /** The original bytes are dropped when the compressed form is the shorter one. */
  function PackBlock(codec: Codec, idx: nat, data: Bytes): (p: PackedBlock) {
    if IsZero(data) then PackedBlock(idx, ZERO_HASH, [], [], false, true)
    else
      var comp := codec.compress(data);
      if |comp| < |data| then PackedBlock(idx, Fnv(data), [], comp, true, false)
      else PackedBlock(idx, Fnv(data), data, [], false, false)
  }

  /** The bytes to send for a non-zero block and the header's Compressed flag. */
  function Payload(noCompress: bool, p: PackedBlock): (Bytes, bool) {
    if noCompress || !p.useCompressed then (p.data, false) else (p.compressed, true)
  }

  /** What the receiver makes of a payload. */
  function Restore(codec: Codec, data: Bytes, compressed: bool): Option<Bytes> {
    if compressed then codec.decompress(data) else Some(data)
  }

  /** A payload that is not empty is never longer than the block and restores exactly it, on
      the raw and on the compressed path. */
  lemma PayloadRestoresBlock(codec: Codec, noCompress: bool, idx: nat, data: Bytes)
    requires Faithful(codec) && !IsZero(data)
    requires Payload(noCompress, PackBlock(codec, idx, data)).0 != []
    ensures var (payload, flag) := Payload(noCompress, PackBlock(codec, idx, data));
      |payload| <= |data| && Restore(codec, payload, flag) == Some(data)
  {
    assert codec.decompress(codec.compress(data)) == Some(data);
  }

  /** There is something to send for a non-zero block unless compression was switched off
      after the original bytes had already been dropped in favour of a shorter form. */
  lemma SendableUnlessDropped(codec: Codec, noCompress: bool, idx: nat, data: Bytes)
    requires Faithful(codec) && !IsZero(data)
    ensures Payload(noCompress, PackBlock(codec, idx, data)).0 != []
      <==> !(noCompress && |codec.compress(data)| < |data|)
  {
    assert data != [];
    assert codec.compress(data) != [];
  }
}
