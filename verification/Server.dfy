/** The handler loop as written: bytes in, file and cache changed in place, bytes out. Alone, on
    any input whatever, it does what the handler steps of module Protocol do on the messages
    that input parses to (server.go, util_unix.go). */
module Server {
  import opened Basics
  import opened Blocks
  import opened Hashing
  import opened Wire
  import opened Packing
  import opened Checksum
  import opened Protocol
  import opened Frames

  /** A regular file. */
  class File {
    var data: Bytes

    constructor (data: Bytes)
      ensures this.data == data
    {
      this.data := data;
    }

    /** Only a negative offset fails. */
    method WriteAt(b: Bytes, off: int) returns (ok: bool)
      modifies this
      ensures ok == (off >= 0)
      ensures data == if off >= 0 then Written(old(data), off, b) else old(data)
    {
      if off < 0 {
        return false;
      }
      data := Written(data, off, b);
      return true;
    }

    method ReadAt(n: nat, off: int) returns (b: Bytes, ok: bool)
      ensures ok == (off >= 0)
      ensures b == if off >= 0 then Blocks.ReadAt(data, off, n) else []
    {
      if off < 0 {
        return [], false;
      }
      return Blocks.ReadAt(data, off, n), true;
    }

    /** Only a negative size fails. */
    method Truncate(size: int) returns (ok: bool)
      modifies this
      ensures ok == (size >= 0)
      ensures data == if size >= 0 then Resized(old(data), size) else old(data)
    {
      if size < 0 {
        return false;
      }
      data := Resized(data, size);
      return true;
    }
  }

  /** Resizes only when the sizes differ, which makes no difference to the content. The size is
      converted to an int64: a negative one fails, and then the source ends the process. */
  method TruncateIfRegularFile(file: File, size: uint64) returns (ok: bool)
    modifies file
    ensures ok == (size < 0x8000_0000_0000_0000 || |old(file.data)| == size)
    ensures file.data == if ok then Resized(old(file.data), size) else old(file.data)
  {
    ok := true;
    var currentSize := |file.data|;
    if currentSize != size {
      ok := file.Truncate(Int64(size));
    }
  }

  // ---- a handler with nobody else around ----

  function Rank(h: Handler): nat {
    match h
    case Measure(_) => 5
    case Truncate(_) => 4
    case Serve(_) => 3
    case ZeroOut(_) => 2
    case ZeroMark(_) => 1
    case Store(_, _) => 2
    case Mark(_, _) => 1
    case _ => 0
  }

  /** The stream has ended and the handler wants more of it. */
  predicate AtEnd(k: Conn) {
    k.up == [] && (k.h.Loop? || (k.h.Serve? && k.h.m.dataSize > 0))
  }

  ghost predicate Nearer(k: Conn, k': Conn) {
    k'.h.Returned? || |k'.up| < |k.up| || (k'.up == k.up && Rank(k'.h) < Rank(k.h))
  }

  lemma ServeProgress(c: Cfg, sh: Shared, k: Conn, broken: bool)
    requires k.h.Serve? && HandlerStep(c, sh, k, broken).Some?
    ensures Nearer(k, HandlerStep(c, sh, k, broken).value.1)
  {
  }

  lemma LoopProgress(c: Cfg, sh: Shared, k: Conn, broken: bool)
    requires k.h.Loop? && HandlerStep(c, sh, k, broken).Some?
    ensures Nearer(k, HandlerStep(c, sh, k, broken).value.1)
  {
  }

  lemma OtherProgress(c: Cfg, sh: Shared, k: Conn, broken: bool)
    requires !k.h.Serve? && !k.h.Loop? && HandlerStep(c, sh, k, broken).Some?
    ensures Nearer(k, HandlerStep(c, sh, k, broken).value.1)
  {
  }

  lemma StepProgress(c: Cfg, sh: Shared, k: Conn, broken: bool)
    requires HandlerStep(c, sh, k, broken).Some?
    ensures Nearer(k, HandlerStep(c, sh, k, broken).value.1)
  {
    if k.h.Serve? {
      ServeProgress(c, sh, k, broken);
    } else if k.h.Loop? {
      LoopProgress(c, sh, k, broken);
    } else {
      OtherProgress(c, sh, k, broken);
    }
  }

  /** A handler left alone with the rest of its stream, until it returns, blocks or ends the process. */
  function Solo(c: Cfg, sh: Shared, k: Conn): (Shared, Conn)
    decreases |k.up|, Rank(k.h)
  {
    match HandlerStep(c, sh, k, AtEnd(k))
    case None => (sh, k)
    case Some((sh', k')) =>
      StepProgress(c, sh, k, AtEnd(k));
      if k'.h.Returned? then (sh', k') else Solo(c, sh', k')
  }

  /** The same with the parts a handler of its own can see: file, cache, unread messages, bytes
      sent, where it is, and its lastBlockNum. */
  ghost function From(
      c: Cfg, dst: Bytes, cache: map<nat, Bytes>, resized: bool, up: seq<Item>, down: Bytes, h: Handler, last: nat)
    : (Shared, Conn)
  {
    Solo(c, Shared(dst, resized, cache, map[]), Conn(up, down, false, false, h, last, Quiet, None))
  }

  lemma SoloStep(c: Cfg, sh: Shared, k: Conn, sh': Shared, k': Conn)
    requires HandlerStep(c, sh, k, AtEnd(k)) == Some((sh', k'))
    ensures Solo(c, sh, k) == if k'.h.Returned? then (sh', k') else Solo(c, sh', k')
  {
  }

  // ---- the loop ----

  /** What ends the loop: the stream or an error, or, stuck, a wait that blocks or the end of the
      process by a panic or a failed truncation. */
  datatype Outcome = Going | Ended | Stuck

  /** The result of the loop as the steps describe it. */
  ghost predicate Agrees(r: (Shared, Conn), dst: Bytes, cache: map<nat, Bytes>, output: Bytes, end: Outcome) {
    r.0.dst == dst && r.0.cache == cache && r.1.down == output && (r.1.h.Returned? <==> end.Ended?)
  }

  /** The size asked for is negative as an int64, and the file does not have it. */
  predicate SizeFails(current: nat, size: uint64) {
    size >= 0x8000_0000_0000_0000 && current != size
  }

  /** lastBlockNum and the file's size, on messages that carry a file size. */
  method SizeFile(
      c: Cfg, file: File, cache: ChecksumCache, m: Msg, last: nat, ghost up: seq<Item>, ghost down: Bytes,
      ghost resized: bool)
    returns (last': nat, ghost resized': bool, alive: bool)
    requires cache.Valid() && m.magic == MAGIC
    modifies file
    ensures last' ==
      if m.fileSize > 0 && last == 0 && m.blockSize > 0 then U32((m.fileSize - 1) / m.blockSize) else last
    ensures file.data ==
      if m.fileSize > 0 && last == 0 && alive then Resized(old(file.data), m.fileSize) else old(file.data)
    ensures alive == !(m.fileSize > 0 && last == 0 && (m.blockSize == 0 || SizeFails(|old(file.data)|, m.fileSize)))
    ensures alive ==>
      From(c, old(file.data), cache.data, resized, [Head(m)] + up, down, Loop, last)
      == From(c, file.data, cache.data, resized', up, down, Serve(m), last')
    ensures !alive ==>
      Agrees(From(c, old(file.data), cache.data, resized, [Head(m)] + up, down, Loop, last),
             file.data, cache.data, down, Stuck)
  {
    last', resized', alive := last, resized, true;
    ghost var sh := Shared(file.data, resized, cache.data, map[]);
    ghost var k := Conn([Head(m)] + up, down, false, false, Loop, last, Quiet, None);
    ghost var k1 := k.(up := up);
    assert k.up[1..] == up;
    if m.fileSize > 0 && last == 0 {
      if m.blockSize == 0 {
        alive := false;
        return;
      }
      last' := U32(LastBlock(m.fileSize, m.blockSize));
      resized' := true;
      k1 := k1.(last := last');
      SoloStep(c, sh, k, sh, k1.(h := Measure(m)));
      if |file.data| == m.fileSize {
        SoloStep(c, sh, k1.(h := Measure(m)), sh.(resized := true), k1.(h := Serve(m)));
        assert Resized(file.data, m.fileSize) == file.data;
      } else {
        SoloStep(c, sh, k1.(h := Measure(m)), sh, k1.(h := Truncate(m)));
        ghost var sh' := sh.(dst := Resized(sh.dst, m.fileSize), resized := true);
        if m.fileSize < 0x8000_0000_0000_0000 {
          SoloStep(c, sh, k1.(h := Truncate(m)), sh', k1.(h := Serve(m)));
        }
      }
      alive := TruncateIfRegularFile(file, m.fileSize);
    } else {
      SoloStep(c, sh, k, sh, k1.(h := Serve(m)));
    }
  }

  lemma ZeroSteps(c: Cfg, sh: Shared, k: Conn, m: Msg, off: nat)
    requires k.h == ZeroOut(m) && off == Offset(m) && Addressable(m)
    ensures var sh1 := sh.(dst := Written(sh.dst, off, Zeros(m.blockSize)));
      Solo(c, sh, k) == Solo(c, sh1.(cache := sh1.cache[m.idx := ZERO_HASH]), k.(h := Loop))
  {
    var sh1 := sh.(dst := Written(sh.dst, off, Zeros(m.blockSize)));
    SoloStep(c, sh, k, sh1, k.(h := ZeroMark(m)));
    SoloStep(c, sh1, k.(h := ZeroMark(m)), sh1.(cache := sh1.cache[m.idx := ZERO_HASH]), k.(h := Loop));
  }

  lemma ZeroServedAlone(
      c: Cfg, dst: Bytes, cache: map<nat, Bytes>, resized: bool, m: Msg, off: nat, up: seq<Item>,
      down: Bytes, last: nat)
    requires m.zero && m.dataSize == 0 && off == Offset(m)
    ensures var from, hash := From(c, dst, cache, resized, up, down, Serve(m), last), Lookup(MaxId(c), cache, m.idx);
      && (hash.None? ==> Agrees(from, dst, cache, down, Stuck))
      && (hash == Some(ZERO_HASH) || hash == Some(EOF_MARK) ==>
            from == From(c, dst, cache, resized, up, down, Loop, last))
      && (hash.Some? && hash.value != ZERO_HASH && hash.value != EOF_MARK && !Addressable(m) ==>
            Agrees(from, dst, cache, down, Ended))
      && (hash.Some? && hash.value != ZERO_HASH && hash.value != EOF_MARK && Addressable(m) ==>
            from == From(c, Written(dst, off, Zeros(m.blockSize)), cache[m.idx := ZERO_HASH], resized,
                         up, down, Loop, last))
  {
    var sh := Shared(dst, resized, cache, map[]);
    var k := Conn(up, down, false, false, Serve(m), last, Quiet, None);
    var hash := Lookup(MaxId(c), cache, m.idx);
    if hash == Some(ZERO_HASH) || hash == Some(EOF_MARK) {
      SoloStep(c, sh, k, sh, k.(h := Loop));
    } else if hash.Some? {
      SoloStep(c, sh, k, sh, k.(h := ZeroOut(m)));
      if Addressable(m) {
        ZeroSteps(c, sh, k.(h := ZeroOut(m)), m, off);
      } else {
        SoloStep(c, sh, k.(h := ZeroOut(m)), sh, k.(h := Returned));
      }
    }
  }

  /** A zero notice: overwrite with a whole block of zeros unless the cache says that there
      are zeros or nothing. */
  method ServeZero(
      c: Cfg, file: File, cache: ChecksumCache, m: Msg, ghost up: seq<Item>, ghost down: Bytes, ghost resized: bool,
      ghost last: nat)
    returns (end: Outcome)
    requires cache.Valid() && cache.maxId == MaxId(c) && m.zero && m.dataSize == 0
    modifies file, cache
    ensures cache.Valid()
    ensures var destHash := Lookup(MaxId(c), old(cache.data), m.idx);
      var overwrites := destHash.Some? && destHash.value != Zeros(16) && destHash.value != EOF_MARK;
      && end == (if destHash.None? then Stuck else if overwrites && !Addressable(m) then Ended else Going)
      && file.data == (if overwrites && end.Going? then Written(old(file.data), Offset(m), Zeros(m.blockSize))
                       else old(file.data))
      && cache.data == if overwrites && end.Going? then old(cache.data)[m.idx := Zeros(16)] else old(cache.data)
    ensures end.Going? ==>
      From(c, old(file.data), old(cache.data), resized, up, down, Serve(m), last)
      == From(c, file.data, cache.data, resized, up, down, Loop, last)
    ensures !end.Going? ==>
      Agrees(From(c, old(file.data), old(cache.data), resized, up, down, Serve(m), last),
             file.data, cache.data, down, end)
  {
    var off := Int64(Offset(m));
    AddressableIff(m);
    ZeroServedAlone(c, file.data, cache.data, resized, m, Offset(m), up, down, last);
    var destHash := cache.WaitFor(m.idx);
    if destHash.None? {
      return Stuck;
    }
    if destHash.value != ZERO_HASH && destHash.value != EOF_MARK {
      var written := file.WriteAt(Zeros(m.blockSize), off);
      if !written {
        return Ended;
      }
      cache.Set(m.idx, ZERO_HASH);
    }
    return Going;
  }

  /** A request: read the block, whose content is not used, send the hash, and return after it when
      the message is marked done. */
  method ServeRequest(
      c: Cfg, file: File, cache: ChecksumCache, m: Msg, ghost up: seq<Item>, output: Bytes, ghost resized: bool,
      ghost last: nat)
    returns (end: Outcome, output': Bytes)
    requires cache.Valid() && cache.maxId == MaxId(c) && !m.zero && m.dataSize == 0
    ensures var hash := Lookup(MaxId(c), cache.data, m.idx);
      if !Addressable(m) then end.Ended? && output' == output
      else if hash.None? then end.Stuck? && output' == output
      else end == (if m.done then Ended else Going) && output' == output + hash.value
    ensures end.Going? ==>
      From(c, file.data, cache.data, resized, up, output, Serve(m), last)
      == From(c, file.data, cache.data, resized, up, output', Loop, last)
    ensures !end.Going? ==>
      Agrees(From(c, file.data, cache.data, resized, up, output, Serve(m), last), file.data, cache.data, output', end)
  {
    ghost var sh := Shared(file.data, resized, cache.data, map[]);
    ghost var k := Conn(up, output, false, false, Serve(m), last, Quiet, None);
    AddressableIff(m);
    var _, readable := file.ReadAt(m.blockSize, Int64(Offset(m)));
    if !readable {
      SoloStep(c, sh, k, sh, k.(h := Returned));
      return Ended, output;
    }
    var hash := cache.WaitFor(m.idx);
    if hash.None? {
      return Stuck, output;
    }
    output' := output + hash.value;
    if m.done {
      SoloStep(c, sh, k, sh, k.(down := output', h := Closing));
      SoloStep(c, sh, k.(down := output', h := Closing), sh, k.(down := output', h := Returned));
      return Ended, output';
    }
    SoloStep(c, sh, k, sh, k.(down := output', h := Loop));
    return Going, output';
  }

  lemma ReceiveStep(c: Cfg, sh: Shared, k: Conn, m: Msg, block: Bytes)
    requires k.h == Serve(m) && k.up != [] && k.up[0].Body?
    requires 0 < m.dataSize <= m.blockSize && |k.up[0].data| == m.dataSize
    requires Restore(c.codec, k.up[0].data, m.compressed) == Some(block)
    ensures Solo(c, sh, k) == Solo(c, sh, k.(up := k.up[1..], h := Store(m, block)))
  {
    SoloStep(c, sh, k, sh, k.(up := k.up[1..], h := Store(m, block)));
  }

  lemma StoreStep(c: Cfg, sh: Shared, k: Conn, m: Msg, block: Bytes, off: nat)
    requires k.h == Store(m, block) && off == Offset(m) && Addressable(m)
    ensures Solo(c, sh, k) == Solo(c, sh.(dst := Written(sh.dst, off, block)), k.(h := Mark(m, block)))
  {
    SoloStep(c, sh, k, sh.(dst := Written(sh.dst, off, block)), k.(h := Mark(m, block)));
  }

  lemma MarkSteps(c: Cfg, sh: Shared, k: Conn, m: Msg, block: Bytes)
    requires k.h == Mark(m, block)
    ensures var sh1 := sh.(cache := sh.cache[m.idx := Fnv(block)]);
      Solo(c, sh, k) == if m.done then (sh1, k.(h := Returned)) else Solo(c, sh1, k.(h := Loop))
  {
    var sh1 := sh.(cache := sh.cache[m.idx := Fnv(block)]);
    if m.done {
      SoloStep(c, sh, k, sh1, k.(h := Closing));
      SoloStep(c, sh1, k.(h := Closing), sh1, k.(h := Returned));
    } else {
      SoloStep(c, sh, k, sh1, k.(h := Loop));
    }
  }

  lemma PayloadServed(
      c: Cfg, dst: Bytes, cache: map<nat, Bytes>, resized: bool, m: Msg, block: Bytes, off: nat, up: seq<Item>,
      down: Bytes, last: nat)
    requires up != [] && up[0].Body? && 0 < m.dataSize <= m.blockSize && |up[0].data| == m.dataSize
    requires Restore(c.codec, up[0].data, m.compressed) == Some(block) && off == Offset(m) && Addressable(m)
    ensures var dst', cache' := Written(dst, off, block), cache[m.idx := Fnv(block)];
      var from := From(c, dst, cache, resized, up, down, Serve(m), last);
      && (m.done ==> Agrees(from, dst', cache', down, Ended))
      && (!m.done ==> from == From(c, dst', cache', resized, up[1..], down, Loop, last))
  {
    var sh := Shared(dst, resized, cache, map[]);
    var k := Conn(up, down, false, false, Serve(m), last, Quiet, None);
    var k1 := k.(up := up[1..]);
    ReceiveStep(c, sh, k, m, block);
    StoreStep(c, sh, k1.(h := Store(m, block)), m, block, off);
    MarkSteps(c, sh.(dst := Written(dst, off, block)), k1.(h := Mark(m, block)), m, block);
  }

  lemma PayloadRefused(
      c: Cfg, dst: Bytes, cache: map<nat, Bytes>, resized: bool, m: Msg, up: seq<Item>, down: Bytes, last: nat)
    requires up != [] && up[0].Body? && 0 < m.dataSize <= m.blockSize && |up[0].data| == m.dataSize
    requires Restore(c.codec, up[0].data, m.compressed) == None
    ensures Agrees(From(c, dst, cache, resized, up, down, Serve(m), last), dst, cache, down, Ended)
  {
  }

  lemma PayloadUnwritable(
      c: Cfg, dst: Bytes, cache: map<nat, Bytes>, resized: bool, m: Msg, block: Bytes, up: seq<Item>, down: Bytes,
      last: nat)
    requires up != [] && up[0].Body? && 0 < m.dataSize <= m.blockSize && |up[0].data| == m.dataSize
    requires Restore(c.codec, up[0].data, m.compressed) == Some(block) && !Addressable(m)
    ensures Agrees(From(c, dst, cache, resized, up, down, Serve(m), last), dst, cache, down, Ended)
  {
    var sh := Shared(dst, resized, cache, map[]);
    var k := Conn(up, down, false, false, Serve(m), last, Quiet, None);
    ReceiveStep(c, sh, k, m, block);
    SoloStep(c, sh, k.(up := up[1..], h := Store(m, block)), sh, k.(up := up[1..], h := Returned));
  }

  /** A payload received in full: restore the block, write it, cache its hash. */
  method ServePayload(
      c: Cfg, file: File, cache: ChecksumCache, m: Msg, payload: Bytes, ghost up: seq<Item>, ghost down: Bytes,
      ghost resized: bool, ghost last: nat)
    returns (end: Outcome)
    requires cache.Valid() && 0 < m.dataSize <= m.blockSize && |payload| == m.dataSize
    requires up != [] && up[0] == Body(payload)
    modifies file, cache
    ensures cache.Valid()
    ensures var block := Restore(c.codec, payload, m.compressed);
      if block.None? || !Addressable(m) then end.Ended? && file.data == old(file.data) && cache.data == old(cache.data)
      else
        && end == (if m.done then Ended else Going)
        && file.data == Written(old(file.data), Offset(m), block.value)
        && cache.data == old(cache.data)[m.idx := Fnv(block.value)]
    ensures end.Going? ==>
      From(c, old(file.data), old(cache.data), resized, up, down, Serve(m), last)
      == From(c, file.data, cache.data, resized, up[1..], down, Loop, last)
    ensures !end.Going? ==>
      Agrees(From(c, old(file.data), old(cache.data), resized, up, down, Serve(m), last),
             file.data, cache.data, down, end)
  {
    var restored := Restore(c.codec, payload, m.compressed);
    if restored.None? {
      PayloadRefused(c, file.data, cache.data, resized, m, up, down, last);
      return Ended;
    }
    var block, off := restored.value, Int64(Offset(m));
    AddressableIff(m);
    if Addressable(m) {
      PayloadServed(c, file.data, cache.data, resized, m, block, Offset(m), up, down, last);
    } else {
      PayloadUnwritable(c, file.data, cache.data, resized, m, block, up, down, last);
    }
    var written := file.WriteAt(block, off);
    if !written {
      return Ended;
    }
    cache.Set(m.idx, Fnv(block));
    return if m.done then Ended else Going;
  }

  lemma ParseTurn(rest: Bytes)
    requires |rest| >= MSG_LEN
    ensures var m := Unpack(rest).value;
      Parse(rest) == [Head(m)] + if m.magic == MAGIC then Following(m, rest[MSG_LEN..]) else []
  {
  }

  /** What follows the sizing of the file; `used` bytes are the message's payload. */
  method ServeMessage(
      c: Cfg, file: File, cache: ChecksumCache, m: Msg, after: Bytes, output: Bytes, ghost resized: bool,
      ghost last: nat)
    returns (end: Outcome, output': Bytes, used: nat)
    requires cache.Valid() && cache.maxId == MaxId(c)
    modifies file, cache
    ensures cache.Valid() && used <= |after|
    ensures end.Going? ==>
      From(c, old(file.data), old(cache.data), resized, Following(m, after), output, Serve(m), last)
      == From(c, file.data, cache.data, resized, Parse(after[used..]), output', Loop, last)
    ensures !end.Going? ==>
      Agrees(From(c, old(file.data), old(cache.data), resized, Following(m, after), output, Serve(m), last),
             file.data, cache.data, output', end)
  {
    output', used := output, 0;
    ghost var up := Following(m, after);
    assert after[0..] == after;
    if m.dataSize == 0 {
      if m.zero {
        end := ServeZero(c, file, cache, m, up, output, resized, last);
      } else {
        end, output' := ServeRequest(c, file, cache, m, up, output, resized, last);
      }
    } else if m.dataSize > m.blockSize {
      TooLong(c, file.data, cache.data, resized, up, output, m, last);
      end := Stuck;
    } else if |after| < m.dataSize {
      EndOfStream(c, file.data, cache.data, resized, output, Serve(m), last);
      end := Ended;
    } else {
      used := m.dataSize;
      assert up[1..] == Parse(after[used..]);
      end := ServePayload(c, file, cache, m, after[..used], up, output, resized, last);
    }
  }

  /** The whole loop over the bytes of one connection, read in full headers and full payloads
      until the stream ends: the file, the cache and the bytes sent back are those of the
      handler's steps on the messages the bytes parse to. */
  method ServerHandleReq(c: Cfg, file: File, cache: ChecksumCache, input: Bytes) returns (end: Outcome, output: Bytes)
    requires cache.Valid() && cache.maxId == MaxId(c)
    modifies file, cache
    ensures cache.Valid() && !end.Going?
    ensures Agrees(From(c, old(file.data), old(cache.data), false, Parse(input), [], Loop, 0),
                   file.data, cache.data, output, end)
  {
    var rest, last := input, 0;
    ghost var resized := false;
    output, end := [], Going;
    while end.Going?
      invariant cache.Valid()
      invariant end.Going? ==>
        From(c, old(file.data), old(cache.data), false, Parse(input), [], Loop, 0)
        == From(c, file.data, cache.data, resized, Parse(rest), output, Loop, last)
      invariant !end.Going? ==>
        Agrees(From(c, old(file.data), old(cache.data), false, Parse(input), [], Loop, 0),
               file.data, cache.data, output, end)
      decreases |rest|, if end.Going? then 1 else 0
    {
      if |rest| < MSG_LEN {
        EndOfStream(c, file.data, cache.data, resized, output, Loop, last);
        end := Ended;
      } else {
        var m, after := Unpack(rest).value, rest[MSG_LEN..];
        ParseTurn(rest);
        if m.magic != MAGIC {
          WrongMagic(c, file.data, cache.data, resized, m, output, last);
          end := Ended;
        } else {
          var alive, used;
          last, resized, alive := SizeFile(c, file, cache, m, last, Following(m, after), output, resized);
          if !alive {
            end := Stuck;
          } else {
            end, output, used := ServeMessage(c, file, cache, m, after, output, resized, last);
            rest := after[used..];
          }
        }
      }
    }
  }

  /** A payload longer than a block does not fit the buffer: the source would panic. */
  lemma TooLong(
      c: Cfg, dst: Bytes, cache: map<nat, Bytes>, resized: bool, up: seq<Item>, down: Bytes, m: Msg, last: nat)
    requires m.dataSize > 0 && m.dataSize > m.blockSize
    ensures Agrees(From(c, dst, cache, resized, up, down, Serve(m), last), dst, cache, down, Stuck)
  {
  }

  /** The bytes end in the middle of a header or of a payload: the handler returns. */
  lemma EndOfStream(c: Cfg, dst: Bytes, cache: map<nat, Bytes>, resized: bool, down: Bytes, h: Handler, last: nat)
    requires h.Loop? || (h.Serve? && 0 < h.m.dataSize <= h.m.blockSize)
    ensures Agrees(From(c, dst, cache, resized, [], down, h, last), dst, cache, down, Ended)
  {
  }

  lemma WrongMagic(c: Cfg, dst: Bytes, cache: map<nat, Bytes>, resized: bool, m: Msg, down: Bytes, last: nat)
    requires m.magic != MAGIC
    ensures Agrees(From(c, dst, cache, resized, [Head(m)], down, Loop, last), dst, cache, down, Ended)
  {
  }
}
