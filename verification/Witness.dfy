/** Runs that show what can happen: every upload that can end can also leave its server running for
    ever, and one-block uploads, whatever their sizes and contents, can lose the block or end with a
    destination longer than the source (client.go, server.go). */
module Witness {
  import opened Basics
  import opened Blocks
  import opened Hashing
  import opened Wire
  import opened Packing
  import opened Checksum
  import opened Protocol
  import opened SharedMemory
  import opened Handlers
  import opened System
  import opened Delivery
  import opened Guarantees
  import opened Progress
  import opened Termination
  import opened Completion
  import opened Runs
  import Pipeline

  // ---- one-block uploads ----

  /** The hash the pool stores for the old destination's first block. */
  ghost function OldHash(c: Cfg): Bytes {
    BlockHash(PriorBlock(c, 0))
  }

  /** One block, one worker, and a hash that does not match. */
  ghost predicate OneBlock(c: Cfg) {
    && Hypotheses(c) && CanEnd(c) && c.workers == 1
    && c.skip == 0 && Last(c) == 0 && OldHash(c) != Packed(c, 0).hash
  }

  ghost function PipeWith(m: Pipeline.Mover, ok: multiset<nat>): Pipeline.State {
    Pipeline.State(1, [], true, [Pipeline.Ended], [], true, [m], ok, multiset{})
  }

  lemma PipelineStep(c: Cfg, s: State, p: Pipeline.Step, pipe: Pipeline.State)
    requires Reachable(c, s) && !p.Succeed? && !p.Fail? && !p.Stop?
    requires Pipeline.Do(Pipe(c), s.pipe, p) == Some(pipe)
    ensures Reachable(c, s.(pipe := pipe))
  {
    Next(c, s, Inside(p), s.(pipe := pipe));
  }

  lemma ReaderSteps(p: Pipeline.Params, s: Pipeline.State)
    requires p == Pipeline.Params(0, 0, 1) && s.next == 0 && s.blocks == [] && !s.blocksClosed
    ensures Pipeline.Do(p, s, Pipeline.Read) == Some(s.(next := 1, blocks := [0]))
    ensures Pipeline.Do(p, s.(next := 1, blocks := [0]), Pipeline.CloseBlocks)
      == Some(s.(next := 1, blocks := [0], blocksClosed := true))
  {
    assert s.blocks + [s.next] == [0];
  }

  lemma HasherSteps(p: Pipeline.Params, s: Pipeline.State)
    requires p == Pipeline.Params(0, 0, 1) && s.blocks == [0] && s.blocksClosed
    requires s.hashers == [Pipeline.Free] && s.packed == []
    ensures var s1 := s.(blocks := [], hashers := [Pipeline.Holding(0)]);
      var s2 := s.(blocks := [], packed := [0]);
      && Pipeline.Do(p, s, Pipeline.Grab(0)) == Some(s1)
      && Pipeline.Do(p, s1, Pipeline.Emit(0)) == Some(s2)
      && Pipeline.Do(p, s2, Pipeline.EndHasher(0)) == Some(s2.(hashers := [Pipeline.Ended]))
  {
    assert [Pipeline.Free][0 := Pipeline.Holding(0)] == [Pipeline.Holding(0)];
    assert [Pipeline.Holding(0)][0 := Pipeline.Free] == [Pipeline.Free];
    assert [Pipeline.Free][0 := Pipeline.Ended] == [Pipeline.Ended];
    assert s.blocks[1..] == [];
    assert s.packed + [0] == [0];
  }

  lemma MoverSteps(p: Pipeline.Params, s: Pipeline.State)
    requires s.hashers == [Pipeline.Ended] && s.packed == [0] && !s.packedClosed && s.movers == [Pipeline.Ready]
    ensures var s1 := s.(packedClosed := true);
      && Pipeline.Do(p, s, Pipeline.CloseOut) == Some(s1)
      && Pipeline.Do(p, s1, Pipeline.Take(0)) == Some(s1.(packed := [], movers := [Pipeline.Busy(0, 0)]))
  {
    assert [Pipeline.Ready][0 := Pipeline.Busy(0, 0)] == [Pipeline.Busy(0, 0)];
    assert s.packed[1..] == [];
  }

  ghost function Taken(): Pipeline.State {
    PipeWith(Pipeline.Busy(0, 0), multiset{})
  }

  /** The block has been read, hashed and handed to the transfer worker. */
  lemma BlockTaken(c: Cfg)
    requires Pipe(c) == Pipeline.Params(0, 0, 1)
    ensures Reachable(c, Init(c).(pipe := Taken()))
  {
    var s, p := Init(c), Pipe(c);
    InitReachable(c);
    assert s.(pipe := s.pipe) == s;
    var p0 := s.pipe;
    assert p0.hashers == [Pipeline.Free] && p0.movers == [Pipeline.Ready];
    ReaderSteps(p, p0);
    var p2 := p0.(next := 1, blocks := [0], blocksClosed := true);
    PipelineStep(c, s, Pipeline.Read, p0.(next := 1, blocks := [0]));
    PipelineStep(c, s.(pipe := p0.(next := 1, blocks := [0])), Pipeline.CloseBlocks, p2);
    HasherSteps(p, p2);
    var p4 := p2.(blocks := [], packed := [0]);
    PipelineStep(c, s.(pipe := p2), Pipeline.Grab(0), p2.(blocks := [], hashers := [Pipeline.Holding(0)]));
    PipelineStep(c, s.(pipe := p2.(blocks := [], hashers := [Pipeline.Holding(0)])), Pipeline.Emit(0), p4);
    var p5 := p4.(hashers := [Pipeline.Ended]);
    PipelineStep(c, s.(pipe := p4), Pipeline.EndHasher(0), p5);
    MoverSteps(p, p5);
    PipelineStep(c, s.(pipe := p5), Pipeline.CloseOut, p5.(packedClosed := true));
    PipelineStep(c, s.(pipe := p5.(packedClosed := true)), Pipeline.Take(0), Taken());
  }

  ghost function InHasher(c: Cfg): Shared {
    Shared(c.prior, false, map[], InitJobs(c)[0 := Reading(PriorBlock(c, 0))])
  }

  ghost function Hashed(c: Cfg): Shared {
    Shared(c.prior, false, map[0 := OldHash(c)], InitJobs(c)[0 := Stored])
  }

  lemma OldBlock(c: Cfg)
    requires OneBlock(c)
    ensures PriorBlock(c, 0) != [] && JobHash(PriorBlock(c, 0)) == OldHash(c) && 0 in InitJobs(c)
  {
    PastPrior(c, 0);
  }

  lemma HashRead(c: Cfg)
    requires OneBlock(c)
    ensures Reachable(c, Init(c).(pipe := Taken(), sh := InHasher(c)))
  {
    BlockTaken(c);
    OldBlock(c);
    var s := Init(c).(pipe := Taken());
    Next(c, s, JobRead(0), s.(sh := InHasher(c)));
  }

  lemma HashStored(c: Cfg)
    requires OneBlock(c)
    ensures Reachable(c, Init(c).(pipe := Taken(), sh := Hashed(c)))
  {
    HashRead(c);
    OldBlock(c);
    var s := Init(c).(pipe := Taken(), sh := InHasher(c));
    assert s.sh.jobs[0 := Stored] == InitJobs(c)[0 := Stored] && s.sh.cache[0 := OldHash(c)] == map[0 := OldHash(c)];
    Next(c, s, JobStore(0), s.(sh := Hashed(c)));
  }

  ghost function K(up: seq<Item>, down: Bytes, h: Handler, ph: Phase, ack: Option<nat>): Conn {
    Conn(up, down, true, false, h, 0, ph, ack)
  }

  const ONE_HANDLER: MainLoop := MainLoop(1, true, false, false, false, Serving)

  /** One connection, accepted. */
  ghost function At(sh: Shared, k: Conn, m: Pipeline.Mover, ok: multiset<nat>): State {
    State(sh, [k], ONE_HANDLER, PipeWith(m, ok), [Some(0)], false, if 0 in ok then map[0 := 0] else map[])
  }

  /** The request is on a new connection that the server has not accepted yet. */
  ghost function Asking(c: Cfg): State {
    Init(c).(pipe := Taken(), sh := Hashed(c), net := [Some(0)],
      conns := [FreshConn().(up := [Request(c, 0)], ph := Asked(0))])
  }

  lemma RequestWritten(c: Cfg, s: State)
    requires s.pipe == Taken() && s.net == [None] && s.conns == []
    ensures Do(c, s, Ask(0, true, true))
      == Some(s.(net := [Some(0)], conns := [FreshConn().(up := [Request(c, 0)], ph := Asked(0))]))
  {
    var k := FreshConn().(up := [Request(c, 0)], ph := Asked(0));
    assert [None][0 := Some(0)] == [Some(0)];
    assert Connected(s, 0) == s.(conns := [FreshConn()], net := [Some(0)]);
    assert [] + [Request(c, 0)] == [Request(c, 0)] && [FreshConn()][0 := k] == [k];
  }

  lemma Requested(c: Cfg)
    requires OneBlock(c)
    ensures Reachable(c, Asking(c))
  {
    HashStored(c);
    var s := Init(c).(pipe := Taken(), sh := Hashed(c));
    assert s.net == [None];
    RequestWritten(c, s);
    Next(c, s, Ask(0, true, true), Asking(c));
  }

  lemma RequestSent(c: Cfg)
    requires OneBlock(c)
    ensures Reachable(c, At(Hashed(c), K([Request(c, 0)], [], Loop, Asked(0), None), Pipeline.Busy(0, 0), multiset{}))
  {
    Requested(c);
    var k := K([Request(c, 0)], [], Loop, Asked(0), None);
    assert Asking(c).conns[0 := k] == [k];
    Accepted(c, Asking(c), 0);
    assert At(Hashed(c), k, Pipeline.Busy(0, 0), multiset{}).main == ONE_HANDLER;
  }

  // ---- one connection ----

  lemma Handle1(
      c: Cfg, sh: Shared, k: Conn, m: Pipeline.Mover, ok: multiset<nat>, broken: bool, sh': Shared, k': Conn)
    requires Reachable(c, At(sh, k, m, ok)) && !k.h.Closing?
    requires HandlerStep(c, sh, k, broken) == Some((sh', k'))
    ensures Reachable(c, At(sh', k', m, ok))
  {
    var s := At(sh, k, m, ok);
    assert s.conns[0 := k'] == [k'];
    Handled(c, s, 0, broken, sh', k');
  }

  lemma Header1(c: Cfg, sh: Shared, k: Conn, m: Pipeline.Mover, ok: multiset<nat>, head: Msg, rest: seq<Item>)
    requires Reachable(c, At(sh, k, m, ok)) && Last(c) == 0
    requires k.h.Loop? && k.last == 0 && k.up == [Head(head)] + rest
    requires head.magic == MAGIC && head.blockSize == c.bs && head.fileSize == |c.src|
    ensures Reachable(c, At(Sized(c, sh), k.(up := rest, h := Serve(head)), m, ok))
  {
    var s := At(sh, k, m, ok);
    HeaderRead(c, s, 0, head, rest);
    assert s.conns[0 := k.(up := rest, h := Serve(head))] == [k.(up := rest, h := Serve(head))];
  }

  lemma Answered1(c: Cfg)
    requires OneBlock(c)
    ensures Reachable(c,
      At(Sized(c, Hashed(c)), K([], OldHash(c), Loop, Asked(0), None), Pipeline.Busy(0, 0), multiset{}))
  {
    RequestSent(c);
    var m, ok := Pipeline.Busy(0, 0), multiset{};
    var head := Request(c, 0).msg;
    assert [Request(c, 0)] == [Head(head)] + [];
    Header1(c, Hashed(c), K([Request(c, 0)], [], Loop, Asked(0), None), m, ok, head, []);
    assert [] + OldHash(c) == OldHash(c);
    Handle1(c, Sized(c, Hashed(c)), K([], [], Serve(head), Asked(0), None), m, ok, false,
      Sized(c, Hashed(c)), K([], OldHash(c), Loop, Asked(0), None));
  }

  lemma Client1(
      c: Cfg, sh: Shared, k: Conn, m: Pipeline.Mover, ok: multiset<nat>, st: Step, k': Conn, m': Pipeline.Mover,
      ok': multiset<nat>)
    requires Reachable(c, At(sh, k, m, ok))
    requires DoClient(c, At(sh, k, m, ok), st) == Some(At(sh, k', m', ok')) && ClientStep(st)
    ensures Reachable(c, At(sh, k', m', ok'))
  {
    Next(c, At(sh, k, m, ok), st, At(sh, k', m', ok'));
  }

  ghost function Hearing(): Conn {
    K([], [], Loop, Phase.Answered(0), None)
  }

  lemma HashHeard(c: Cfg)
    requires OneBlock(c)
    ensures Reachable(c, At(Sized(c, Hashed(c)), Hearing(), Pipeline.Busy(0, 0), multiset{}))
  {
    Answered1(c);
    var k := K([], OldHash(c), Loop, Asked(0), None);
    assert OldHash(c)[..16] == OldHash(c) && OldHash(c)[16..] == [];
    assert [k][0 := Hearing()] == [Hearing()];
    var m := Pipeline.Busy(0, 0);
    Client1(c, Sized(c, Hashed(c)), k, m, multiset{}, Hear(0), Hearing(), m, multiset{});
  }

  /** The block has been sent, the attempt has succeeded, and nothing of it has been read. */
  ghost function Sent(c: Cfg): Conn {
    K(Transfer(c, 0), [], Loop, Quiet, Some(0))
  }

  lemma HeaderWritten(c: Cfg, sh: Shared, k: Conn)
    requires k == Hearing() && !Packed(c, 0).isZero && ToSend(c, 0) != []
    ensures DoClient(c, At(sh, k, Pipeline.Busy(0, 0), multiset{}), SendHead(0, true, true))
      == Some(At(sh, K([DataHeader(c, 0)], [], Loop, HeadSent(0), None), Pipeline.Busy(0, 0), multiset{}))
  {
    var k1 := K([DataHeader(c, 0)], [], Loop, HeadSent(0), None);
    assert [] + [DataHeader(c, 0)] == k1.up && [k][0 := k1] == [k1];
  }

  lemma PayloadWritten(c: Cfg, sh: Shared, k: Conn)
    requires k == K([DataHeader(c, 0)], [], Loop, HeadSent(0), None) && !Packed(c, 0).isZero
    ensures DoClient(c, At(sh, k, Pipeline.Busy(0, 0), multiset{}), SendBody(0, true, true))
      == Some(At(sh, Sent(c), Pipeline.Ready, multiset{0}))
  {
    assert [DataHeader(c, 0)] + [Body(ToSend(c, 0))] == Sent(c).up && [k][0 := Sent(c)] == [Sent(c)];
    assert [Pipeline.Busy(0, 0)][0 := Pipeline.Ready] == [Pipeline.Ready] && multiset{} + multiset{0} == multiset{0};
    assert map[][0 := 0] == map[0 := 0];
  }

  lemma NoticeWritten(c: Cfg, sh: Shared, k: Conn)
    requires k == Hearing() && Packed(c, 0).isZero
    ensures DoClient(c, At(sh, k, Pipeline.Busy(0, 0), multiset{}), SendZero(0, true, true))
      == Some(At(sh, Sent(c), Pipeline.Ready, multiset{0}))
  {
    assert [] + [ZeroNotice(c, 0)] == Sent(c).up && [k][0 := Sent(c)] == [Sent(c)];
    assert [Pipeline.Busy(0, 0)][0 := Pipeline.Ready] == [Pipeline.Ready] && multiset{} + multiset{0} == multiset{0};
    assert map[][0 := 0] == map[0 := 0];
  }

  lemma BlockSent(c: Cfg)
    requires OneBlock(c) && Transferable(c, 0)
    ensures Reachable(c, At(Sized(c, Hashed(c)), Sent(c), Pipeline.Ready, multiset{0}))
  {
    HashHeard(c);
    var sh, m := Sized(c, Hashed(c)), Pipeline.Busy(0, 0);
    if Packed(c, 0).isZero {
      NoticeWritten(c, sh, Hearing());
      Client1(c, sh, Hearing(), m, multiset{}, SendZero(0, true, true), Sent(c), Pipeline.Ready, multiset{0});
    } else {
      var k1 := K([DataHeader(c, 0)], [], Loop, HeadSent(0), None);
      HeaderWritten(c, sh, Hearing());
      Client1(c, sh, Hearing(), m, multiset{}, SendHead(0, true, true), k1, m, multiset{});
      PayloadWritten(c, sh, k1);
      Client1(c, sh, k1, m, multiset{}, SendBody(0, true, true), Sent(c), Pipeline.Ready, multiset{0});
    }
  }

  // ---- the end of a one-block upload ----

  /** The transfer worker has stopped. */
  ghost function Over(sh: Shared, conns: seq<Conn>, main: MainLoop, doneSent: bool): State {
    State(sh, conns, main, PipeWith(Pipeline.Stopped, multiset{0}), [None], doneSent, map[0 := 0])
  }

  lemma WorkerStops(c: Cfg, sh: Shared, k: Conn)
    requires Reachable(c, At(sh, k, Pipeline.Ready, multiset{0}))
    ensures Reachable(c, Over(sh, [k.(open := false)], ONE_HANDLER, false))
  {
    var s := At(sh, k, Pipeline.Ready, multiset{0});
    assert s.pipe.movers[0 := Pipeline.Stopped] == [Pipeline.Stopped];
    assert s.conns[0 := k.(open := false)] == [k.(open := false)] && s.net[0 := None] == [None];
    Next(c, s, Stop(0), Over(sh, [k.(open := false)], ONE_HANDLER, false));
  }

  ghost function ServedDone(c: Cfg, hash: Bytes): Conn {
    DoneConn(c, true, Gone).(up := [], down := hash)
  }

  lemma OverWithDone(c: Cfg, sh: Shared, k: Conn, main: MainLoop, hash: Bytes, main': MainLoop)
    ensures var s, t := Over(sh, [k], main, false), Over(sh, [k, DoneConn(c, true, Loop)], AfterAccept(main), true);
      && DoneOut(c, s, true, Loop, AfterAccept(main)) == t
      && DoneAt(c, t, 1, Gone, hash, main') == Over(Sized(c, sh), [k, ServedDone(c, hash)], main', true)
  {
    assert [k] + [DoneConn(c, true, Loop)] == [k, DoneConn(c, true, Loop)];
    assert [k, DoneConn(c, true, Loop)][1 := ServedDone(c, hash)] == [k, ServedDone(c, hash)];
  }

  /** DONE is sent, served and counted out while the first connection stays as it is. */
  lemma DoneGoesThrough(c: Cfg, sh: Shared, k: Conn, main: MainLoop, hash: Bytes)
    requires Reachable(c, Over(sh, [k], main, false)) && main.exit.Serving? && main.active >= 0
    requires Last(c) == 0 && WaitFor(c, sh, 0) == Some(hash)
    ensures Reachable(c, Over(Sized(c, sh), [k, ServedDone(c, hash)],
      AfterAccept(main).(active := main.active, done := true, armed := true), true))
  {
    var shut := AfterAccept(main).(done := true, armed := true);
    OverWithDone(c, sh, k, main, hash, shut.(active := shut.active - 1));
    DoneAccepted(c, Over(sh, [k], main, false), true);
    Runs.DoneServed(c, Over(sh, [k, DoneConn(c, true, Loop)], AfterAccept(main), true), 1, hash, shut);
  }

  // ---- what a one-block upload can come to ----

  const NO_HANDLER: MainLoop := MainLoop(0, true, false, false, false, Serving)

  lemma SizedAgain(c: Cfg, sh: Shared)
    requires |sh.dst| == |c.src| && sh.resized
    ensures Sized(c, sh) == sh
  {
  }

  lemma SentThenDropped(c: Cfg)
    requires OneBlock(c) && Transferable(c, 0)
    ensures Reachable(c, At(Sized(c, Hashed(c)), Sent(c).(dropped := true), Pipeline.Ready, multiset{0}))
  {
    BlockSent(c);
    var k := Sent(c).(dropped := true);
    assert [Sent(c)][0 := k] == [k];
    Client1(c, Sized(c, Hashed(c)), Sent(c), Pipeline.Ready, multiset{0}, Drop(0), k, Pipeline.Ready, multiset{0});
  }

  lemma DroppedLeaves(c: Cfg)
    requires OneBlock(c) && Transferable(c, 0)
    ensures Reachable(c,
      Over(Sized(c, Hashed(c)), [Sent(c).(dropped := true, open := false, h := Gone)], NO_HANDLER, false))
  {
    SentThenDropped(c);
    var k := Sent(c).(dropped := true);
    WorkerStops(c, Sized(c, Hashed(c)), k);
    var s := Over(Sized(c, Hashed(c)), [k.(open := false)], ONE_HANDLER, false);
    Leaves(c, s, 0);
    assert s.conns[0 := k.(open := false, h := Gone)] == [k.(open := false, h := Gone)];
  }

  /** Any one-block upload can lose its block: the connection breaks after the client's last write,
      the client has seen no error, the server exits through its shutdown timer, and the destination
      is the old one at the source's length. So delivery needs a clean run. */
  lemma BlockLost(c: Cfg) returns (s: State)
    requires OneBlock(c) && Transferable(c, 0)
    ensures Reachable(c, s) && s.main.exit.TimerExit?
    ensures s.pipe.ok == multiset{0} && s.pipe.failed == multiset{}
    ensures s.sh.dst == Resized(c.prior, |c.src|)
  {
    DroppedLeaves(c);
    var sh, k := Sized(c, Hashed(c)), Sent(c).(dropped := true, open := false, h := Gone);
    DoneGoesThrough(c, sh, k, NO_HANDLER, OldHash(c));
    SizedAgain(c, sh);
    var d := ServedDone(c, OldHash(c));
    s := Over(sh, [k, d], AfterAccept(NO_HANDLER).(active := 0, done := true, armed := true), true);
    TimerFires(c, s);
    s := s.(main := s.main.(armed := false, exit := TimerExit));
  }

  /** The handler is about to overwrite the block with zeros. */
  lemma ZerosPending(c: Cfg)
    requires OneBlock(c) && Packed(c, 0).isZero
    ensures Reachable(c,
      At(Sized(c, Hashed(c)), K([], [], ZeroOut(ZeroNotice(c, 0).msg), Quiet, Some(0)), Pipeline.Ready, multiset{0}))
  {
    BlockSent(c);
    var sh, m, ok, head := Sized(c, Hashed(c)), Pipeline.Ready, multiset{0}, ZeroNotice(c, 0).msg;
    assert Sent(c).up == [Head(head)] + [];
    Header1(c, sh, Sent(c), m, ok, head, []);
    SizedAgain(c, sh);
    Handle1(c, sh, K([], [], Serve(head), Quiet, Some(0)), m, ok, false, sh, K([], [], ZeroOut(head), Quiet, Some(0)));
  }

  ghost function Padded(c: Cfg, hash: Bytes): Shared {
    Shared(Zeros(c.bs), true, map[0 := hash], InitJobs(c)[0 := Stored])
  }

  lemma ZerosWritten(c: Cfg, s: State, k: Conn)
    requires OneBlock(c) && |c.src| < c.bs && Reachable(c, s) && s.main.exit.Serving? && s.sh == Sized(c, Hashed(c))
    requires 0 < |s.conns| && s.conns[0] == k && k.h == ZeroOut(ZeroNotice(c, 0).msg)
    ensures Reachable(c, s.(sh := Padded(c, ZERO_HASH), conns := s.conns[0 := k.(h := Loop)]))
  {
    var head := ZeroNotice(c, 0).msg;
    OursAddressable(c, head);
    assert Offset(head) == 0;
    assert Written(s.sh.dst, 0, Zeros(c.bs)) == Zeros(c.bs);
    assert map[0 := OldHash(c)][0 := ZERO_HASH] == map[0 := ZERO_HASH];
    HandledTwice(c, s, 0, Padded(c, OldHash(c)), k.(h := ZeroMark(head)), Padded(c, ZERO_HASH), k.(h := Loop));
  }

  /** The upload as it ends when DONE overtakes the last write of zeros. */
  lemma DoneFirst(c: Cfg) returns (s: State)
    requires OneBlock(c) && Packed(c, 0).isZero
    ensures Reachable(c, s) && s.sh == Sized(c, Hashed(c)) && s.main.armed && s.main.exit.Serving? && s.main.active == 1
    ensures |s.conns| == 2 && s.conns[0].h == ZeroOut(ZeroNotice(c, 0).msg) && s.conns[0].up == [] && !s.conns[0].open
    ensures !s.conns[0].dropped && s.pipe.failed == multiset{} && s.via == map[0 := 0]
  {
    ZerosPending(c);
    var sh, k := Sized(c, Hashed(c)), K([], [], ZeroOut(ZeroNotice(c, 0).msg), Quiet, Some(0));
    WorkerStops(c, sh, k);
    DoneGoesThrough(c, sh, k.(open := false), ONE_HANDLER, OldHash(c));
    SizedAgain(c, sh);
    var d := ServedDone(c, OldHash(c));
    s := Over(sh, [k.(open := false), d], AfterAccept(ONE_HANDLER).(active := 1, done := true, armed := true), true);
  }

  lemma PaddedIsOneBlock(c: Cfg)
    requires Hypotheses(c) && CanEnd(c) && c.workers == 1 && Last(c) == 0 && LastIsPadded(c)
    ensures OneBlock(c) && Packed(c, 0).isZero
  {
    assert HashDecides(SrcBlock(c, 0), PriorBlock(c, 0));
  }

  /** With a padded last block the destination can end up longer than the source, and in a clean run:
      the DONE message is handled before the last write of zeros. */
  lemma LongerDestination(c: Cfg) returns (s: State)
    requires Hypotheses(c) && CanEnd(c) && c.workers == 1 && Last(c) == 0 && LastIsPadded(c)
    ensures Reachable(c, s) && s.main.exit.TimerExit? && CleanRun(s)
    ensures s.sh.dst == Zeros(c.bs) && |s.sh.dst| > |c.src|
  {
    PaddedIsOneBlock(c);
    s := DoneFirst(c);
    BlockInside(c, 0);
    var k := s.conns[0];
    ZerosWritten(c, s, k);
    s := s.(sh := Padded(c, ZERO_HASH), conns := s.conns[0 := k.(h := Loop)]);
    Leaves(c, s, 0);
    s := Counted(s, 0);
    TimerFires(c, s);
    s := s.(main := s.main.(armed := false, exit := TimerExit));
  }

  /** So a one-block upload can end with a destination longer than the source if and only if its block
      is padded. */
  lemma LongerDestinationIff(c: Cfg)
    requires Hypotheses(c) && CanEnd(c) && c.workers == 1 && Last(c) == 0
    ensures (exists s :: Reachable(c, s) && s.main.exit.TimerExit? && |s.sh.dst| > |c.src|) <==> LastIsPadded(c)
  {
    if LastIsPadded(c) {
      var s := LongerDestination(c);
    }
    forall s | Reachable(c, s) && s.main.exit.TimerExit? && |s.sh.dst| > |c.src|
      ensures LastIsPadded(c)
    {
      SizeAtExit(c, s);
    }
  }

  // ---- a lost DONE message ----

  /** Any upload that can end can leave its server running for ever instead: everything but the DONE
      message goes well, all connections are gone, and the idle timer is never started. */
  lemma ServerHangs(c: Cfg) returns (s: State)
    requires Hypotheses(c) && CanEnd(c)
    ensures Reachable(c, s) && Hanging(s)
    ensures 0 < c.workers && c.skip <= Last(c) && (forall b :: InRange(c, b) ==> Transferable(c, b)) ==>
      View(c, s.sh) == Target(c)
  {
    InitKeeps(c);
    InitSmooth(c);
    InitReachable(c);
    var t := UpToDone(c, Init(c));
    if 0 < c.workers && c.skip <= Last(c) && forall b :: InRange(c, b) ==> Transferable(c, b) {
      forall b | c.skip <= b <= Last(c)
        ensures Synced(c, t.sh, b)
      {
        SentIsInPlace(c, t, b);
      }
      assert Synced(c, t.sh, c.skip);
      SyncedBytes(c, t.sh);
    }
    s := LosesDone(c, t);
  }

  lemma LosesDone(c: Cfg, t: State) returns (s: State)
    requires Reachable(c, t) && SysInv(c, t) && ReadyForDone(t)
    ensures Reachable(c, s) && Hanging(s) && s.sh == t.sh
  {
    NobodyLive(t.conns);
    DoneAccepted(c, t, false);
    s := DoneOut(c, t, false, Loop, AfterAccept(t.main));
    Leaves(c, s, |t.conns|);
    s := Counted(s, |t.conns|);
  }

  // ---- two concrete uploads ----

  const SMALL: Cfg := Config([7], [5], 1, 1, 0, 0, 1, 1, false, Codec(x => x, x => Some(x)))
  const PADDED: Cfg := Config([0], [5], 2, 2, 0, 0, 1, 1, false, Codec(x => x, x => Some(x)))

  lemma SmallIsOneBlock()
    ensures OneBlock(SMALL) && Transferable(SMALL, 0) && !LastIsPadded(SMALL) && SMALL.prior != SMALL.src
  {
    var block: Bytes, before: Bytes := [7], [5];
    assert block[0] != 0 && before[0] != 0;
    SingleByteChangeDetected(before, block, 0);
    assert SrcBlock(SMALL, 0) == block;
    assert PriorBlock(SMALL, 0) == before;
    assert GrownBlock(SMALL, 0) == before;
    assert SMALL.codec.compress(block) == block;
  }

  /** A fault-free run of the first one is clean and ends with the source in the destination. */
  lemma BlockDelivered() returns (s: State)
    ensures Hypotheses(SMALL) && Reachable(SMALL, s) && s.main.exit.TimerExit?
    ensures CleanRun(s) && s.sh.dst == SMALL.src != SMALL.prior
  {
    SmallIsOneBlock();
    ExitReachableIff(SMALL);
    var steps :| EndsInExit(SMALL, steps) && FaultFree(SMALL, Init(SMALL), steps);
    s := Run(SMALL, Init(SMALL), steps).value;
    assert Reachable(SMALL, s);
    FaultFreeDeliversIff(SMALL, steps);
    FaultFreeClean(SMALL, steps);
    SizeAtExit(SMALL, s);
    assert View(SMALL, s.sh) == s.sh.dst && Target(SMALL) == SMALL.src;
  }

  lemma PaddedExists()
    ensures Hypotheses(PADDED) && CanEnd(PADDED) && PADDED.workers == 1 && Last(PADDED) == 0 && LastIsPadded(PADDED)
  {
    var block: Bytes, before: Bytes := [0], [5];
    assert before[0] != 0;
    assert SrcBlock(PADDED, 0) == block;
    assert PriorBlock(PADDED, 0) == before;
    assert GrownBlock(PADDED, 0) == before;
    OneByteHash(5);
  }
}
