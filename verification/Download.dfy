/** The download direction: one connection, one request at a time, and what the local file is
    afterwards (client.go, server.go). */
module Download {
  import opened Basics
  import opened Blocks
  import opened Hashing
  import opened Wire
  import opened Packing
  import opened Checksum
  import opened Protocol
  import opened Server
  import opened Frames

  /** A download: the remote file, the block size of both ends, the client's first block, and
      the first block the server's pool hashes. */
  datatype Params = Params(remote: Bytes, bs: uint32, skip: uint32, srvSkip: uint32, codec: Codec)

  predicate InBounds(d: Params) {
    && 0 < d.bs && 0 < |d.remote| < 0x8000_0000_0000_0000
    && LastBlock(|d.remote|, d.bs) < 0xffff_ffff
  }

  type Job = d: Params | InBounds(d) witness Params([1], 1, 0, 0, Codec(x => x, x => Some(x)))

  function LastOf(d: Job): uint32 {
    LastBlock(|d.remote|, d.bs)
  }

  function RemoteBlock(d: Job, i: nat): Bytes {
    BlockOf(d.remote, d.bs, i)
  }

  /** The server takes block `i` for a block of zeros. */
  predicate TakenForZero(d: Job, i: nat) {
    BlockHash(RemoteBlock(d, i)) == ZERO_HASH
  }

  function Header(d: Job, idx: uint32, dataSize: uint32, compressed: bool, zero: bool, done: bool): Msg {
    Msg(MAGIC, idx, d.bs, |d.remote|, dataSize, compressed, zero, done)
  }

  /** What the server answers to one message: None while it waits for a hash that its pool does
      not make. The file's metadata, the end mark past the last block, a zero mark without data,
      or the block, compressed when that is shorter. */
  function Reply(d: Job, m: Msg): Option<seq<Item>> {
    if m.idx == 0 && m.fileSize == 0 then Some([Head(Header(d, 0, 0, false, false, false))])
    else if m.idx > LastOf(d) then Some([Head(Header(d, m.idx, 0, false, false, true))])
    else if m.idx < d.srvSkip then None
    else if TakenForZero(d, m.idx) then Some([Head(Header(d, m.idx, 0, false, true, false))])
    else Some(DataReply(d, m.idx, RemoteBlock(d, m.idx)))
  }

  /** The local file `f`, sized as `start`, after the blocks below `n`: a block from `skip` on is
      the remote one unless it was taken for zeros; every other block is the old one. */
  ghost predicate Fetched(d: Job, start: Bytes, f: Bytes, n: nat) {
    && |f| == |start| == |d.remote|
    && forall i: nat :: i <= LastOf(d) ==>
      BlockOf(f, d.bs, i)
        == if d.skip <= i < n && !TakenForZero(d, i) then RemoteBlock(d, i) else BlockOf(start, d.bs, i)
  }

  /** The local file after a complete download over an old one. */
  ghost predicate Downloaded(d: Job, prior: Bytes, f: Bytes) {
    Fetched(d, Resized(prior, |d.remote|), f, LastOf(d) + 1)
  }

  lemma BlockBytes(d: Job, i: nat)
    requires i <= LastOf(d)
    ensures i * d.bs < |d.remote| && 0 < |RemoteBlock(d, i)| <= d.bs
    ensures |RemoteBlock(d, i)| == BlockLen(|d.remote|, d.bs, i)
  {
    InsideIffUpToLast(|d.remote|, d.bs, i);
    ResizedBlock(d.remote, |d.remote|, d.bs, i);
  }

  /** The two data items for a block: compressed when the length, as a 32-bit number, is smaller. */
  function DataReply(d: Job, idx: uint32, block: Bytes): seq<Item> {
    var comp := d.codec.compress(block);
    if U32(|comp|) < U32(|block|) then [Head(Header(d, idx, U32(|comp|), true, false, false)), Body(comp)]
    else [Head(Header(d, idx, U32(|block|), false, false, false)), Body(block)]
  }

  /** The compressed form has a 32-bit length, or is not used. */
  predicate Announceable(d: Job, block: Bytes) {
    |d.codec.compress(block)| < 0x1_0000_0000 || U32(|d.codec.compress(block)|) >= |block|
  }

  /** The header of a data reply announces the length of its payload exactly when the length of
      the compressed form has not been cut off. */
  lemma LengthAnnouncedIff(d: Job, idx: uint32, block: Bytes)
    requires |block| <= d.bs
    ensures var reply := DataReply(d, idx, block);
      |reply| == 2 && reply[0].Head? && reply[1].Body?
      && (reply[0].msg.dataSize == |reply[1].data| <==> Announceable(d, block))
  {
    var comp := d.codec.compress(block);
    assert U32(|block|) == |block|;
    assert U32(|comp|) == |comp| <==> |comp| < 0x1_0000_0000;
  }

  /** What a download needs of the codec. */
  ghost predicate CodecSuits(d: Job) {
    Faithful(d.codec) && forall i: nat :: i <= LastOf(d) ==> Announceable(d, RemoteBlock(d, i))
  }

  lemma DataReplyRestores(d: Job, idx: uint32, block: Bytes)
    requires Faithful(d.codec) && Announceable(d, block) && 0 < |block| <= d.bs
    ensures var head, body := DataReply(d, idx, block)[0], DataReply(d, idx, block)[1];
      && head.Head? && body.Body? && head.msg.magic == MAGIC && !head.msg.done && !head.msg.zero
      && 0 < head.msg.dataSize == |body.data| <= d.bs
      && Restore(d.codec, body.data, head.msg.compressed) == Some(block)
  {
    assert d.codec.decompress(d.codec.compress(block)) == Some(block);
    assert d.codec.compress(block) != [];
    LengthAnnouncedIff(d, idx, block);
  }

  /** A data reply fits the client's buffer and restores the block. */
  lemma ReplyCarriesBlock(d: Job, m: Msg)
    requires CodecSuits(d)
    requires m.fileSize > 0 && d.srvSkip <= m.idx <= LastOf(d) && !TakenForZero(d, m.idx)
    ensures Reply(d, m).Some? && |Reply(d, m).value| == 2
    ensures var head, body := Reply(d, m).value[0], Reply(d, m).value[1];
      && head.Head? && body.Body? && head.msg.magic == MAGIC && !head.msg.done && !head.msg.zero
      && 0 < head.msg.dataSize == |body.data| <= d.bs
      && Restore(d.codec, body.data, head.msg.compressed) == Some(RemoteBlock(d, m.idx))
  {
    BlockBytes(d, m.idx);
    DataReplyRestores(d, m.idx, RemoteBlock(d, m.idx));
  }

  /** Every reply begins with a header that names the block asked for and the remote file's length;
      it has the end mark exactly past the last block, and a payload exactly when the block is
      there and is not taken for zeros. */
  lemma ReplyHeader(d: Job, m: Msg)
    requires Reply(d, m).Some?
    ensures var items, asksSize := Reply(d, m).value, m.idx == 0 && m.fileSize == 0;
      && (|items| == 1 || (|items| == 2 && items[1].Body?)) && items[0].Head?
      && items[0].msg.magic == MAGIC && items[0].msg.idx == m.idx
      && items[0].msg.blockSize == d.bs && items[0].msg.fileSize == |d.remote|
      && (items[0].msg.done <==> m.idx > LastOf(d))
      && (items[0].msg.zero <==> !asksSize && m.idx <= LastOf(d) && TakenForZero(d, m.idx))
      && (|items| == 2 <==> !asksSize && m.idx <= LastOf(d) && !TakenForZero(d, m.idx))
  {
  }

  // ---- the server's loop ----

  /** The full headers of a byte stream that carries nothing but headers. */
  function Headers(b: Bytes): seq<Msg>
    decreases |b|
  {
    if |b| < MSG_LEN then [] else [Unpack(b).value] + Headers(b[MSG_LEN..])
  }

  /** All the answers on one connection, and how its handler ends. */
  function Answers(d: Job, ms: seq<Msg>): (seq<Item>, Outcome)
    decreases |ms|
  {
    if ms == [] || ms[0].magic != MAGIC then ([], Ended)
    else match Reply(d, ms[0])
      case None => ([], Stuck)
      case Some(items) =>
        if PastLast(d, ms[0]) then (items, Ended)
        else var (rest, end) := Answers(d, ms[1..]); (items + rest, end)
  }

  predicate PastLast(d: Job, m: Msg) {
    m.idx > LastOf(d) && !(m.idx == 0 && m.fileSize == 0)
  }

  /** The checksum cache after the pool has run over the remote file. */
  ghost predicate PoolHasRun(d: Job, cache: ChecksumCache)
    reads cache
  {
    && cache.Valid() && cache.maxId == LastOf(d)
    && cache.data == Filled(map[], d.remote, d.bs, {}, d.srvSkip, LastOf(d) + 1)
  }

  lemma PoolLookup(d: Job, data: map<nat, Bytes>, i: nat)
    requires i <= LastOf(d) && data == Filled(map[], d.remote, d.bs, {}, d.srvSkip, LastOf(d) + 1)
    ensures Lookup(LastOf(d), data, i) == if i < d.srvSkip then None else Some(BlockHash(RemoteBlock(d, i)))
  {
    FilledAt(map[], d.remote, d.bs, {}, d.srvSkip, LastOf(d) + 1, i);
    BlockBytes(d, i);
  }

  lemma HeaderOnly(d: Job, m: Msg, head: Msg)
    requires Reply(d, m) == Some([Head(head)])
    ensures Stream(Reply(d, m).value) == Pack(head)
  {
    OneItem(Head(head));
  }

  /** The answer to one message as the handler makes it: nothing while it waits. */
  method Answer(d: Job, cache: ChecksumCache, m: Msg) returns (bytes: Bytes, end: Outcome)
    requires PoolHasRun(d, cache)
    ensures end.Stuck? <==> Reply(d, m).None?
    ensures end.Ended? <==> PastLast(d, m)
    ensures bytes == if Reply(d, m).Some? then Stream(Reply(d, m).value) else []
  {
    bytes := [];
    if m.idx == 0 && m.fileSize == 0 {
      HeaderOnly(d, m, Header(d, 0, 0, false, false, false));
      return Pack(Header(d, 0, 0, false, false, false)), Going;
    }
    if m.idx > LastOf(d) {
      HeaderOnly(d, m, Header(d, m.idx, 0, false, false, true));
      return Pack(Header(d, m.idx, 0, false, false, true)), Ended;
    }
    bytes, end := BlockAnswer(d, cache, m.idx);
    if end.Going? && TakenForZero(d, m.idx) {
      HeaderOnly(d, m, Header(d, m.idx, 0, false, true, false));
    }
  }

  /** The answer for a block of the file. */
  method BlockAnswer(d: Job, cache: ChecksumCache, idx: uint32) returns (bytes: Bytes, end: Outcome)
    requires PoolHasRun(d, cache) && idx <= LastOf(d)
    ensures end == if idx < d.srvSkip then Stuck else Going
    ensures bytes == if idx < d.srvSkip then []
      else if TakenForZero(d, idx) then Pack(Header(d, idx, 0, false, true, false))
      else Stream(DataReply(d, idx, RemoteBlock(d, idx)))
  {
    var block := RemoteBlock(d, idx);
    PoolLookup(d, cache.data, idx);
    var hash := cache.WaitFor(idx);
    if hash.None? {
      return [], Stuck;
    }
    if hash.value == ZERO_HASH {
      return Pack(Header(d, idx, 0, false, true, false)), Going;
    }
    BlockBytes(d, idx);
    bytes := SendBlock(d, idx, block);
    return bytes, Going;
  }

  lemma ItemsOfReply(d: Job, idx: uint32, block: Bytes, head: Msg, data: Bytes)
    requires DataReply(d, idx, block) == [Head(head), Body(data)]
    ensures Stream(DataReply(d, idx, block)) == Pack(head) + data
  {
    TwoItems(Head(head), Body(data));
  }

  method SendBlock(d: Job, idx: uint32, block: Bytes) returns (bytes: Bytes)
    requires |block| <= d.bs
    ensures bytes == Stream(DataReply(d, idx, block))
  {
    var n: uint32 := |block|;
    var compBuf := d.codec.compress(block);
    var compressedBytes: uint32 := U32(|compBuf|);
    var head, data := Header(d, idx, n, false, false, false), block;
    if compressedBytes < n {
      head, data := Header(d, idx, compressedBytes, true, false, false), compBuf;
    }
    ItemsOfReply(d, idx, block, head, data);
    return Pack(head) + data;
  }

  lemma OneItem(a: Item)
    ensures Stream([a]) == ItemBytes(a)
  {
    assert [a][1..] == [];
  }

  lemma TwoItems(a: Item, b: Item)
    ensures Stream([a, b]) == ItemBytes(a) + ItemBytes(b)
  {
    assert [a, b][1..] == [b];
    OneItem(b);
  }

  /** The bytes of the answers to the headers in `b`. */
  ghost function AnswerBytes(d: Job, b: Bytes): Bytes {
    Stream(Answers(d, Headers(b)).0)
  }

  ghost function AnswerEnd(d: Job, b: Bytes): Outcome {
    Answers(d, Headers(b)).1
  }

  lemma NoMoreAnswers(d: Job, b: Bytes)
    requires |b| >= MSG_LEN ==> Unpack(b).value.magic != MAGIC
    ensures AnswerBytes(d, b) == [] && AnswerEnd(d, b) == Ended
  {
  }

  lemma OneMoreAnswer(d: Job, b: Bytes, m: Msg)
    requires |b| >= MSG_LEN && m == Unpack(b).value && m.magic == MAGIC
    ensures Reply(d, m).None? ==> AnswerBytes(d, b) == [] && AnswerEnd(d, b) == Stuck
    ensures Reply(d, m).Some? && PastLast(d, m) ==>
      AnswerBytes(d, b) == Stream(Reply(d, m).value) && AnswerEnd(d, b) == Ended
    ensures Reply(d, m).Some? && !PastLast(d, m) ==>
      && AnswerBytes(d, b) == Stream(Reply(d, m).value) + AnswerBytes(d, b[MSG_LEN..])
      && AnswerEnd(d, b) == AnswerEnd(d, b[MSG_LEN..])
  {
    assert Headers(b)[0] == m && Headers(b)[1..] == Headers(b[MSG_LEN..]);
    if Reply(d, m).Some? {
      StreamAppend(Reply(d, m).value, Answers(d, Headers(b[MSG_LEN..])).0);
    }
  }

  lemma Regroup(a: Bytes, b: Bytes, c: Bytes)
    ensures a + (b + c) == (a + b) + c
    ensures b + [] == b
  {
  }

  /** The handler's loop over the bytes of one connection: on any input its output is the stream
      of the answers to the headers that input holds. */
  method ServerHandleUpload(d: Job, cache: ChecksumCache, input: Bytes) returns (output: Bytes, end: Outcome)
    requires PoolHasRun(d, cache)
    ensures !end.Going? && end == AnswerEnd(d, input) && output == AnswerBytes(d, input)
  {
    var rest := input;
    output, end := [], Going;
    while end.Going?
      invariant PoolHasRun(d, cache)
      invariant AnswerEnd(d, input) == if end.Going? then AnswerEnd(d, rest) else end
      invariant AnswerBytes(d, input) == output + if end.Going? then AnswerBytes(d, rest) else []
      decreases |rest|, if end.Going? then 1 else 0
    {
      if |rest| < MSG_LEN || Unpack(rest).value.magic != MAGIC {
        NoMoreAnswers(d, rest);
        end := Ended;
      } else {
        var m := Unpack(rest).value;
        OneMoreAnswer(d, rest, m);
        var bytes;
        bytes, end := Answer(d, cache, m);
        rest := rest[MSG_LEN..];
        Regroup(output, bytes, if end.Going? then AnswerBytes(d, rest) else []);
        output := output + bytes;
      }
    }
  }

  // ---- the client's loop ----

  method WriteBlock(file: File, bs: uint32, idx: uint32, data: Bytes)
    modifies file
    ensures file.data == PutBlock(old(file.data), bs, idx, data)
  {
    var offset := idx * bs;
    var _ := file.WriteAt(data, offset);
  }

  /** Reading an answer off the connection gives back what the server put on it. */
  lemma AnswerRead(d: Job, m: Msg, bytes: Bytes)
    requires CodecSuits(d) && m.fileSize > 0 && d.srvSkip <= m.idx <= LastOf(d)
    requires Reply(d, m).Some? && bytes == Stream(Reply(d, m).value)
    ensures |bytes| >= MSG_LEN && Unpack(bytes[..MSG_LEN]).Some?
    ensures var head, data := Unpack(bytes[..MSG_LEN]).value, bytes[MSG_LEN..];
      && !head.done && (head.dataSize == 0 <==> TakenForZero(d, m.idx))
      && (head.dataSize > 0 ==>
            |data| == head.dataSize <= d.bs && Restore(d.codec, data, head.compressed) == Some(RemoteBlock(d, m.idx)))
  {
    var items := Reply(d, m).value;
    if TakenForZero(d, m.idx) {
      OneItem(items[0]);
      HeaderFirst(items[0].msg, []);
    } else {
      ReplyCarriesBlock(d, m);
      assert items == [items[0], items[1]];
      TwoItems(items[0], items[1]);
      HeaderFirst(items[0].msg, items[1].data);
    }
  }

  lemma HeaderFirst(m: Msg, rest: Bytes)
    ensures (Pack(m) + rest)[..MSG_LEN] == Pack(m) && (Pack(m) + rest)[MSG_LEN..] == rest
    ensures Unpack(Pack(m)) == Some(m)
  {
    UnpackPack(m, []);
    assert Pack(m) + [] == Pack(m);
  }

  method Extract(codec: Codec, head: Msg, data: Bytes, ghost zero: bool, ghost block: Bytes) returns (r: Option<Bytes>)
    requires head.dataSize == 0 <==> zero
    requires !zero ==> |data| == head.dataSize && Restore(codec, data, head.compressed) == Some(block)
    ensures r == if zero then None else Some(block)
  {
    if head.dataSize > 0 {
      assert data[..head.dataSize] == data;
      return Restore(codec, data[..head.dataSize], head.compressed);
    }
    return None;
  }

  /** What the client takes from an answer: a block to write, or nothing for a zero mark. The end
      mark never comes for a block that exists. */
  method Receive(d: Job, m: Msg, bytes: Bytes) returns (block: Option<Bytes>)
    requires CodecSuits(d) && m.fileSize > 0 && d.srvSkip <= m.idx <= LastOf(d)
    requires Reply(d, m).Some? && bytes == Stream(Reply(d, m).value)
    ensures block == if TakenForZero(d, m.idx) then None else Some(RemoteBlock(d, m.idx))
  {
    AnswerRead(d, m, bytes);
    var head, data := Unpack(bytes[..MSG_LEN]).value, bytes[MSG_LEN..];
    block := Extract(d.codec, head, data, TakenForZero(d, m.idx), RemoteBlock(d, m.idx));
  }

  lemma Answered(d: Job, m: Msg)
    requires m.fileSize > 0 && m.idx <= LastOf(d)
    ensures Reply(d, m).Some? <==> d.srvSkip <= m.idx
  {
  }

  /** One request and its answer, read in full off the connection. A zero mark is not written: the
      file keeps what it has there. */
  method FetchBlock(d: Job, file: File, fileSize: uint64, blockIdx: uint32) returns (answered: bool)
    requires CodecSuits(d) && 0 < fileSize && blockIdx <= LastOf(d)
    modifies file
    ensures answered <==> d.srvSkip <= blockIdx
    ensures file.data ==
      if answered && !TakenForZero(d, blockIdx) then PutBlock(old(file.data), d.bs, blockIdx, RemoteBlock(d, blockIdx))
      else old(file.data)
  {
    var request := Msg(MAGIC, blockIdx, d.bs, fileSize, 0, false, false, false);
    Answered(d, request);
    var reply := Reply(d, request);
    if reply.None? {
      return false;
    }
    var block := Receive(d, request, Stream(reply.value));
    if block.Some? {
      WriteBlock(file, d.bs, blockIdx, block.value);
    }
    return true;
  }

  /** How a download, or one turn of its loop, ended: with an answer, with a connection error,
      or waiting for ever. */
  datatype Ending = Complete | Broken | Waiting

  lemma NextFetched(d: Job, start: Bytes, f: Bytes, f': Bytes, n: nat)
    requires Fetched(d, start, f, n) && d.skip <= n <= LastOf(d)
    requires f' == if TakenForZero(d, n) then f else PutBlock(f, d.bs, n, RemoteBlock(d, n))
    ensures Fetched(d, start, f', n + 1)
  {
    OneBlockWritten(d, f, n, n);
    forall i: nat | i <= LastOf(d)
      ensures BlockOf(f', d.bs, i)
        == if d.skip <= i < n + 1 && !TakenForZero(d, i) then RemoteBlock(d, i) else BlockOf(start, d.bs, i)
    {
      OneBlockWritten(d, f, n, i);
    }
  }

  /** One turn of the loop: with an answer it has brought the file one block further. The
      connection fails in the turns of `bad`. */
  method FetchNext(d: Job, file: File, fileSize: uint64, blockIdx: uint32, bad: set<nat>, ghost start: Bytes)
    returns (end: Ending)
    requires CodecSuits(d) && 0 < fileSize && d.skip <= blockIdx <= LastOf(d)
    requires Fetched(d, start, file.data, blockIdx)
    modifies file
    ensures Fetched(d, start, file.data, if end.Complete? then blockIdx + 1 else blockIdx)
    ensures end == if blockIdx in bad then Broken else if blockIdx < d.srvSkip then Waiting else Complete
  {
    if blockIdx in bad {
      return Broken;
    }
    var answered := FetchBlock(d, file, fileSize, blockIdx);
    if !answered {
      return Waiting;
    }
    NextFetched(d, start, old(file.data), file.data, blockIdx);
    return Complete;
  }

  /** The client's loop over a file already sized; its 32-bit counter does not wrap. `reached`
      is the first block not dealt with, and the connection fails in the turns of `bad`. */
  method FetchBlocks(d: Job, file: File, fileSize: uint64, bad: set<nat>) returns (end: Ending, reached: nat)
    requires CodecSuits(d) && fileSize == |d.remote| && |file.data| == |d.remote|
    modifies file
    ensures Fetched(d, old(file.data), file.data, reached)
    ensures d.skip <= reached && forall i :: d.skip <= i < reached ==> i !in bad
    ensures end.Broken? <==> reached <= LastOf(d) && reached in bad
    ensures end.Waiting? <==> reached <= LastOf(d) && reached == d.skip < d.srvSkip && reached !in bad
    ensures end.Complete? <==> reached == if d.skip <= LastOf(d) then LastOf(d) + 1 else d.skip
    ensures end.Complete? <==>
      d.skip <= LastOf(d) ==> d.srvSkip <= d.skip && forall i :: d.skip <= i <= LastOf(d) ==> i !in bad
  {
    ghost var start := file.data;
    var lastBlockNum: uint32 := U32(LastBlock(fileSize, d.bs));
    var blockIdx: int := d.skip;
    while blockIdx <= lastBlockNum
      invariant d.skip <= blockIdx < 0x1_0000_0000 && (blockIdx <= lastBlockNum + 1 || blockIdx == d.skip)
      invariant Fetched(d, start, file.data, blockIdx)
      invariant d.skip < blockIdx ==> d.srvSkip <= d.skip
      invariant forall i :: d.skip <= i < blockIdx ==> i !in bad
      decreases lastBlockNum + 1 - blockIdx
    {
      end := FetchNext(d, file, fileSize, blockIdx, bad, start);
      if !end.Complete? {
        return end, blockIdx;
      }
      blockIdx := blockIdx + 1;
    }
    return Complete, blockIdx;
  }

  /** Metadata, resizing, then block after block. Without a failure it completes, but for a wait
      for ever when the first block that the client asks for is one the server's pool skipped. */
  method StartClientDownload(d: Job, file: File, metaLost: bool, bad: set<nat>)
    returns (sized: bool, end: Ending, reached: nat)
    requires CodecSuits(d)
    modifies file
    ensures sized <==> !metaLost
    ensures !sized ==> end.Broken? && file.data == old(file.data)
    ensures sized ==> Fetched(d, Resized(old(file.data), |d.remote|), file.data, reached)
    ensures sized ==> d.skip <= reached && forall i :: d.skip <= i < reached ==> i !in bad
    ensures end.Broken? <==> metaLost || (reached <= LastOf(d) && reached in bad)
    ensures end.Waiting? <==> sized && reached <= LastOf(d) && reached == d.skip < d.srvSkip && reached !in bad
    ensures end.Complete? ==> Downloaded(d, old(file.data), file.data)
    ensures !metaLost && bad == {} ==> (end.Complete? <==> d.skip > LastOf(d) || d.srvSkip <= d.skip)
  {
    sized, reached := false, 0;
    if metaLost {
      return false, Broken, 0;
    }
    var request := Msg(MAGIC, 0, d.bs, 0, 0, false, false, false);
    var meta := Reply(d, request).value[0].msg;
    var _ := TruncateIfRegularFile(file, meta.fileSize);
    sized := true;
    end, reached := FetchBlocks(d, file, meta.fileSize, bad);
  }

  // ---- the result, block by block ----

  lemma OneBlockWritten(d: Job, g: Bytes, j: nat, i: nat)
    requires |g| == |d.remote| && j <= LastOf(d) && i <= LastOf(d)
    ensures var w := PutBlock(g, d.bs, j, RemoteBlock(d, j));
      && |w| == |g|
      && BlockOf(w, d.bs, i) == if i == j then RemoteBlock(d, j) else BlockOf(g, d.bs, i)
  {
    BlockBytes(d, j);
    PutWithin(g, d.bs, j, RemoteBlock(d, j), i);
  }

  lemma PutWithin(g: Bytes, bs: nat, j: nat, data: Bytes, i: nat)
    requires 0 < bs && j * bs < |g| && |data| == BlockLen(|g|, bs, j)
    ensures |PutBlock(g, bs, j, data)| == |g|
    ensures BlockOf(PutBlock(g, bs, j, data), bs, i) == if i == j then data else BlockOf(g, bs, i)
  {
    var w := PutBlock(g, bs, j, data);
    WrittenAt(g, j * bs, data);
    assert Resized(w, |g|) == w && Resized(g, |g|) == g;
    WriteOneBlock(g, |g|, bs, j, data, i);
  }

  /** Two files of the remote's length are equal when all their blocks are. */
  lemma EqualBlocks(d: Job, f: Bytes, g: Bytes)
    requires |f| == |g| == |d.remote|
    requires forall i: nat :: i <= LastOf(d) ==> BlockOf(f, d.bs, i) == BlockOf(g, d.bs, i)
    ensures f == g
  {
    forall p | 0 <= p < |f|
      ensures f[p] == g[p]
    {
      var i, off := Position(|f|, d.bs, p);
      SameBlockSameByte(f, g, d.bs, i, off);
    }
  }

  ghost predicate NotWritten(d: Job, i: nat) {
    i <= LastOf(d) && (i < d.skip || TakenForZero(d, i))
  }

  /** Exactly when a complete download leaves the remote file: every block it does not write
      was already right once the file had the remote's size. No hash assumption is needed. */
  lemma DownloadExactIff(d: Job, prior: Bytes, f: Bytes)
    requires Downloaded(d, prior, f)
    ensures f == d.remote <==>
      forall i: nat :: NotWritten(d, i) ==> BlockOf(Resized(prior, |d.remote|), d.bs, i) == RemoteBlock(d, i)
  {
    var sized := Resized(prior, |d.remote|);
    forall i: nat | i <= LastOf(d)
      ensures BlockOf(f, d.bs, i) == if NotWritten(d, i) then BlockOf(sized, d.bs, i) else RemoteBlock(d, i)
    {
    }
    if forall i: nat :: NotWritten(d, i) ==> BlockOf(sized, d.bs, i) == RemoteBlock(d, i) {
      EqualBlocks(d, f, d.remote);
    }
  }

  /** With no skipping and no non-zero block hashing to zeros, that condition is: the old local
      file was zero on every zero block of the remote. */
  lemma DownloadExactIffZerosAgree(d: Job, prior: Bytes, f: Bytes)
    requires Downloaded(d, prior, f) && d.skip == 0
    requires forall i: nat :: i <= LastOf(d) && TakenForZero(d, i) ==> IsZero(RemoteBlock(d, i))
    ensures f == d.remote <==>
      forall i: nat :: i <= LastOf(d) && IsZero(RemoteBlock(d, i)) ==>
        IsZero(BlockOf(Resized(prior, |d.remote|), d.bs, i))
  {
    DownloadExactIff(d, prior, f);
    var sized := Resized(prior, |d.remote|);
    forall i: nat | NotWritten(d, i)
      ensures IsZero(BlockOf(sized, d.bs, i)) <==> BlockOf(sized, d.bs, i) == RemoteBlock(d, i)
    {
      BlockBytes(d, i);
      ResizedBlock(sized, |sized|, d.bs, i);
    }
    assert forall i: nat :: NotWritten(d, i) <==> i <= LastOf(d) && IsZero(RemoteBlock(d, i));
  }

  /** A download over an old file need not give the remote file: one old byte 5 survives a
      remote byte 0. */
  lemma OldBytesSurvive()
    ensures var d := Params([0], 1, 0, 0, Codec(x => x, x => Some(x)));
      d.remote != [5] && forall f :: Downloaded(d, [5], f) <==> f == [5]
  {
    var d := Params([0], 1, 0, 0, Codec(x => x, x => Some(x)));
    assert RemoteBlock(d, 0) == [0] && TakenForZero(d, 0) && LastOf(d) == 0;
    var five: Bytes := [5];
    assert Downloaded(d, five, five);
    forall f | Downloaded(d, five, f)
      ensures f == five
    {
      assert BlockOf(f, d.bs, 0) == BlockOf(five, d.bs, 0);
      EqualBlocks(d, f, five);
    }
  }

  /** Downloading into a new file gives the remote file. */
  lemma NewFileIsExact(d: Job, f: Bytes)
    requires Downloaded(d, [], f) && d.skip == 0
    requires forall i: nat :: i <= LastOf(d) && TakenForZero(d, i) ==> IsZero(RemoteBlock(d, i))
    ensures f == d.remote
  {
    DownloadExactIffZerosAgree(d, [], f);
    forall i: nat | i <= LastOf(d)
      ensures IsZero(BlockOf(Resized([], |d.remote|), d.bs, i))
    {
      ZeroBlock(Resized([], |d.remote|), d.bs, i);
    }
  }

  lemma ZeroBlock(f: Bytes, bs: nat, i: nat)
    requires IsZero(f)
    ensures IsZero(BlockOf(f, bs, i))
  {
  }
}
