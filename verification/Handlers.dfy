/** One connection: client and handler stay in lockstep, and the handler's every step keeps
    what the rest of the system relies on (server.go, client.go). */
module Handlers {
  import opened Basics
  import opened Blocks
  import opened Hashing
  import opened Wire
  import opened Packing
  import opened Protocol
  import opened SharedMemory

  ghost predicate InRange(c: Cfg, b: nat) {
    c.skip <= b <= Last(c)
  }

  /** The items that transfer block `b`. */
  ghost function Transfer(c: Cfg, b: nat): seq<Item> {
    if Packed(c, b).isZero then [ZeroNotice(c, b)] else [DataHeader(c, b), Body(ToSend(c, b))]
  }

  /** The handler is between reading a block's content and caching its hash. */
  ghost predicate Applying(k: Conn) {
    k.h.ZeroOut? || k.h.ZeroMark? || k.h.Store? || k.h.Mark?
  }

  ghost predicate Finished(k: Conn) {
    k.h.Returned? || k.h.Checked? || k.h.Gone?
  }

  /** What the handler still has to serve, the message in its hands first. */
  ghost function Tasks(k: Conn): seq<Item> {
    if k.h.Measure? || k.h.Truncate? || k.h.Serve? then [Head(k.h.m)] + k.up else k.up
  }

  /** All a connection relies on of the shared memory; each part only ever grows. */
  datatype Facts = Facts(resized: bool, known: iset<nat>, synced: iset<nat>) {
    ghost predicate Within(f: Facts) {
      (resized ==> f.resized) && known <= f.known && synced <= f.synced
    }
  }

  ghost function FactsOf(c: Cfg, sh: Shared): Facts {
    Facts(sh.resized, iset i: nat | Known(c, sh, i), iset i: nat | Synced(c, sh, i))
  }

  /** The handler is writing exactly block `b`'s content, or has already written it. */
  ghost predicate AppliesTo(c: Cfg, f: Facts, k: Conn, b: nat) {
    match k.h
    case ZeroOut(m) => Head(m) == ZeroNotice(c, b) && IsZero(SrcBlock(c, b)) && !IsZero(PriorBlock(c, b))
    case ZeroMark(m) => Head(m) == ZeroNotice(c, b) && IsZero(SrcBlock(c, b)) && b in f.synced
    case Store(m, data) => Head(m) == DataHeader(c, b) && !IsZero(SrcBlock(c, b)) && data == SrcBlock(c, b)
    case Mark(m, data) =>
      Head(m) == DataHeader(c, b) && !IsZero(SrcBlock(c, b)) && data == SrcBlock(c, b) && b in f.synced
    case _ => false
  }

  /** The handler has `tail` to serve, and before it the acknowledged block's transfer unless
      that block is already in place. */
  ghost predicate Ahead(c: Cfg, f: Facts, k: Conn, tail: seq<Item>) {
    match k.ack
    case None => !Applying(k) && Tasks(k) == tail
    case Some(b) =>
      && b in f.known
      && (|| (!Applying(k) && Tasks(k) == Transfer(c, b) + tail)
          || (AppliesTo(c, f, k, b) && k.up == tail)
          || (!Applying(k) && Tasks(k) == tail && b in f.synced))
  }

  /** The handler has served everything, the acknowledged block included. */
  ghost predicate Settled(f: Facts, k: Conn) {
    k.h.Loop? && k.up == [] && (k.ack.Some? ==> k.ack.value in f.synced)
  }

  /** The bytes of one reply to a request for block `b`. */
  ghost predicate Answer(c: Cfg, f: Facts, b: nat, down: Bytes) {
    && |down| == 16 && b in f.known
    && (down == BlockHash(SrcBlock(c, b)) ==> b in f.synced)
  }

  ghost predicate ClientSide(c: Cfg, f: Facts, k: Conn) {
    && (k.ack.Some? ==> InRange(c, k.ack.value) && Transferable(c, k.ack.value))
    && match k.ph
       case Quiet => k.down == []
       case Asked(b) => InRange(c, b) && (k.down == [] || Answer(c, f, b, k.down))
       case Answered(b) => InRange(c, b) && b in f.known && k.ack == None && k.down == []
       case HeadSent(b) =>
         && InRange(c, b) && b in f.known && k.ack == None && k.down == []
         && !IsZero(SrcBlock(c, b)) && ToSend(c, b) != []
       case DoneSent => k.ack == None
  }

  ghost predicate ServerSide(c: Cfg, f: Facts, k: Conn) {
    && (k.h.Serve? || k.h.Closing? || Applying(k) ==> f.resized)
    && (k.h.Loop? && k.last != 0 ==> f.resized)
    && (k.h.Backlog? ==> k.last == 0 && k.ack == None && k.down == [])
    && (k.h.Closing? ==> k.ph.DoneSent?)
    && match k.ph
       case Quiet => Ahead(c, f, k, [])
       case Asked(b) => if k.down == [] then Ahead(c, f, k, [Request(c, b)]) else Settled(f, k)
       case Answered(b) => k.h.Loop? && k.up == []
       case HeadSent(b) => !k.h.Backlog? && Ahead(c, f, k, [DataHeader(c, b)])
       case DoneSent =>
         !Applying(k) && (Tasks(k) == [] || Tasks(k) == [DoneMessage(c)]) && (k.h.Closing? ==> k.up == [])
  }

  /** A finished handler has put the acknowledged block in place unless its connection was
      dropped before the next answer; a connection the client still uses was dropped. */
  ghost predicate Afterwards(c: Cfg, f: Facts, k: Conn) {
    && (k.ack.Some? ==> k.ack.value in f.synced || (k.dropped && k.down == []))
    && (k.open && !k.ph.DoneSent? ==> k.dropped)
  }

  ghost predicate ConnInv(c: Cfg, f: Facts, k: Conn) {
    ClientSide(c, f, k) && if Finished(k) then Afterwards(c, f, k) else ServerSide(c, f, k)
  }

  /** A connection nobody touches keeps its invariant while the shared memory grows. */
  lemma ConnInvRelies(c: Cfg, f: Facts, f': Facts, k: Conn)
    requires ConnInv(c, f, k) && f.Within(f')
    ensures ConnInv(c, f', k)
  {
  }

  // ---- what the messages say ----

  lemma IndexFits(c: Cfg, b: nat)
    requires b <= Last(c)
    ensures U32(b) == b
  {
  }

  lemma PayloadFits(c: Cfg, b: nat)
    requires Hypotheses(c) && b <= Last(c) && !IsZero(SrcBlock(c, b)) && ToSend(c, b) != []
    ensures 0 < |ToSend(c, b)| <= c.bs && U32(|ToSend(c, b)|) == |ToSend(c, b)|
    ensures Restore(c.codec, ToSend(c, b), Payload(c.noCompress, Packed(c, b)).1) == Some(SrcBlock(c, b))
  {
    PayloadRestoresBlock(c.codec, c.noCompress, b, SrcBlock(c, b));
    BlockInside(c, b);
  }

  // ---- the handler's steps, one by one ----

  /** What the connection keeps on a step of its handler. */
  ghost predicate Steady(k: Conn, k': Conn) {
    && !k'.h.Backlog? && !k'.h.Checked? && !k'.h.Gone?
    && k'.ack == k.ack && k'.ph == k.ph && k'.open == k.open && k'.dropped == k.dropped
    && (k'.h.Closing? ==> k.ph.DoneSent?)
  }

  ghost predicate OurHeader(c: Cfg, it: Item) {
    it.Head? && it.msg.magic == MAGIC && it.msg.fileSize == |c.src| && it.msg.blockSize == c.bs
  }

  lemma AheadIsOurs(c: Cfg, f: Facts, k: Conn, tail: seq<Item>)
    requires Ahead(c, f, k, tail) && !Applying(k) && Tasks(k) != [] && (tail == [] || OurHeader(c, tail[0]))
    ensures OurHeader(c, Tasks(k)[0])
  {
    if k.ack.Some? && Tasks(k) == Transfer(c, k.ack.value) + tail {
      assert Tasks(k)[0] == Transfer(c, k.ack.value)[0];
    }
  }

  lemma TasksAreOurs(c: Cfg, f: Facts, k: Conn)
    requires ConnInv(c, f, k) && !Finished(k) && !Applying(k) && Tasks(k) != []
    ensures OurHeader(c, Tasks(k)[0])
  {
    match k.ph
    case Quiet => AheadIsOurs(c, f, k, []);
    case Asked(b) =>
      if k.down == [] {
        AheadIsOurs(c, f, k, [Request(c, b)]);
      }
    case Answered(b) =>
    case HeadSent(b) => AheadIsOurs(c, f, k, [DataHeader(c, b)]);
    case DoneSent =>
  }

  /** Only `h`, `up` and `last` may differ, and what is left to serve does not. */
  ghost predicate SameTasks(k: Conn, k': Conn) {
    && k' == k.(h := k'.h, up := k'.up, last := k'.last)
    && !Applying(k) && !Finished(k) && !k.h.Closing?
    && (k'.h.Measure? || k'.h.Truncate? || k'.h.Serve?)
    && Tasks(k) == Tasks(k')
  }

  lemma SameTasksAhead(c: Cfg, f: Facts, k: Conn, k': Conn, tail: seq<Item>)
    requires SameTasks(k, k') && Ahead(c, f, k, tail)
    ensures Ahead(c, f, k', tail)
  {
  }

  lemma SameTasksKeeps(c: Cfg, f: Facts, k: Conn, k': Conn)
    requires SameTasks(k, k') && !k.h.Backlog? && ConnInv(c, f, k)
    requires k'.h.Serve? ==> f.resized
    ensures ConnInv(c, f, k') && Steady(k, k')
  {
    match k.ph
    case Quiet => SameTasksAhead(c, f, k, k', []);
    case Asked(b) =>
      assert Tasks(k) != [];
      SameTasksAhead(c, f, k, k', [Request(c, b)]);
    case Answered(b) =>
    case HeadSent(b) => SameTasksAhead(c, f, k, k', [DataHeader(c, b)]);
    case DoneSent =>
  }

  /** Leaving at the end of the stream: everything acknowledged is in place. */
  lemma LeavingAtLoop(c: Cfg, f: Facts, k: Conn)
    requires ConnInv(c, f, k) && k.h.Loop? && (k.dropped || (k.up == [] && !k.open))
    ensures ConnInv(c, f, k.(h := Returned)) && Steady(k, k.(h := Returned))
  {
  }

  lemma LoopKeeps(c: Cfg, sh: Shared, f: Facts, k: Conn, broken: bool)
    requires ConnInv(c, f, k) && k.h.Loop? && HandlerStep(c, sh, k, broken).Some?
    ensures var (sh', k') := HandlerStep(c, sh, k, broken).value;
      sh' == sh && ConnInv(c, f, k') && Steady(k, k')
  {
    var k' := HandlerStep(c, sh, k, broken).value.1;
    if broken {
      LeavingAtLoop(c, f, k);
    } else {
      TasksAreOurs(c, f, k);
      assert k.up == [k.up[0]] + k.up[1..];
      assert Tasks(k') == Tasks(k);
    }
  }

  lemma HeaderMeaning(c: Cfg, b: nat)
    requires Hypotheses(c) && b <= Last(c)
    ensures Request(c, b).msg.idx == ZeroNotice(c, b).msg.idx == DataHeader(c, b).msg.idx == b
    ensures !IsZero(SrcBlock(c, b)) && ToSend(c, b) != [] ==> DataHeader(c, b).msg.dataSize == |ToSend(c, b)|
  {
    IndexFits(c, b);
    if !IsZero(SrcBlock(c, b)) && ToSend(c, b) != [] {
      PayloadFits(c, b);
    }
  }

  /** A zero notice in the handler's hands is the acknowledged block's. */
  lemma ServedZero(c: Cfg, f: Facts, k: Conn)
    requires Hypotheses(c) && ConnInv(c, f, k) && k.h.Serve? && k.h.m.zero
    ensures k.h.m.dataSize == 0
    ensures k.ack.Some? && IsZero(SrcBlock(c, k.ack.value)) && k.h.m.idx == k.ack.value
    ensures Head(k.h.m) == ZeroNotice(c, k.ack.value) && k.ack.value in f.known
  {
    assert Tasks(k)[0] == Head(k.h.m);
    if k.ack.Some? {
      HeaderMeaning(c, k.ack.value);
    }
  }

  /** A data header in the handler's hands is followed by the payload of the acknowledged
      block, or by nothing when the client has not sent it. */
  lemma ServedData(c: Cfg, f: Facts, k: Conn)
    requires Hypotheses(c) && ConnInv(c, f, k) && k.h.Serve? && k.h.m.dataSize > 0
    ensures !k.h.m.done && !k.h.m.zero
    ensures k.up == [] ==> k.ph.HeadSent?
    ensures k.up != [] ==>
      && k.ack.Some? && !IsZero(SrcBlock(c, k.ack.value)) && ToSend(c, k.ack.value) != []
      && Head(k.h.m) == DataHeader(c, k.ack.value) && k.up[0] == Body(ToSend(c, k.ack.value))
      && k.ack.value in f.known
  {
    assert Tasks(k)[0] == Head(k.h.m) && Tasks(k)[1..] == k.up;
  }

  /** A plain request is for the block the client asked for, and comes after everything else;
      only the DONE message is marked done. */
  lemma ServedRequest(c: Cfg, f: Facts, k: Conn)
    requires Hypotheses(c) && ConnInv(c, f, k) && k.h.Serve? && k.h.m.dataSize == 0 && !k.h.m.zero
    ensures k.up == [] && (k.ack.Some? ==> k.ack.value in f.synced)
    ensures k.h.m.done <==> k.ph.DoneSent?
    ensures k.h.m.done ==> k.h.m.idx == 0
    ensures !k.h.m.done ==> k.ph.Asked? && k.h.m.idx == k.ph.idx && k.down == []
  {
    assert Tasks(k)[0] == Head(k.h.m) && Tasks(k)[1..] == k.up;
    if k.ack.Some? {
      HeaderMeaning(c, k.ack.value);
    }
    if k.ph.Asked? || k.ph.HeadSent? {
      HeaderMeaning(c, k.ph.idx);
    }
  }

  lemma LeavingAtPayload(c: Cfg, f: Facts, k: Conn)
    requires Hypotheses(c) && ConnInv(c, f, k) && k.h.Serve? && k.h.m.dataSize > 0
    requires k.dropped || (k.up == [] && !k.open)
    ensures ConnInv(c, f, k.(h := Returned)) && Steady(k, k.(h := Returned))
  {
    ServedData(c, f, k);
    assert Tasks(k) != [];
  }

  lemma LeavingAtReply(c: Cfg, f: Facts, k: Conn)
    requires Hypotheses(c) && ConnInv(c, f, k) && k.h.Serve? && k.h.m.dataSize == 0 && !k.h.m.zero
    requires k.dropped || !k.open
    ensures ConnInv(c, f, k.(h := Returned)) && Steady(k, k.(h := Returned))
  {
    ServedRequest(c, f, k);
  }

  lemma TailsAgree<T>(x: T, y: T, a: seq<T>, b: seq<T>)
    requires [x] + a == [y] + b
    ensures a == b
  {
    assert ([x] + a)[1..] == a && ([y] + b)[1..] == b;
  }

  /** With a zero notice in hand, only what comes after it is left. */
  lemma AfterZero(c: Cfg, f: Facts, k: Conn, tail: seq<Item>)
    requires k.h.Serve? && k.ack.Some? && Packed(c, k.ack.value).isZero
    requires Head(k.h.m) == ZeroNotice(c, k.ack.value) && tail != [ZeroNotice(c, k.ack.value)]
    requires |tail| <= 1 && Ahead(c, f, k, tail)
    ensures k.up == tail
  {
    assert Tasks(k)[0] == Head(k.h.m);
    if Tasks(k) == Transfer(c, k.ack.value) + tail {
      TailsAgree(Head(k.h.m), ZeroNotice(c, k.ack.value), k.up, tail);
    }
  }

  lemma ZeroSkipped(c: Cfg, f: Facts, k: Conn)
    requires Hypotheses(c) && ConnInv(c, f, k) && k.h.Serve? && k.h.m.zero
    requires k.ack.Some? ==> k.ack.value in f.synced
    ensures ConnInv(c, f, k.(h := Loop)) && Steady(k, k.(h := Loop))
  {
    ServedZero(c, f, k);
    AfterZero(c, f, k, if k.ph.Asked? then [Request(c, k.ph.idx)] else []);
  }

  lemma ZeroStarted(c: Cfg, f: Facts, k: Conn)
    requires Hypotheses(c) && ConnInv(c, f, k) && k.h.Serve? && k.h.m.zero
    requires k.ack.Some? ==> !IsZero(PriorBlock(c, k.ack.value))
    ensures ConnInv(c, f, k.(h := ZeroOut(k.h.m))) && Steady(k, k.(h := ZeroOut(k.h.m)))
  {
    ServedZero(c, f, k);
    AfterZero(c, f, k, if k.ph.Asked? then [Request(c, k.ph.idx)] else []);
  }

  lemma RequestServed(c: Cfg, f: Facts, k: Conn, hash: Bytes)
    requires Hypotheses(c) && ConnInv(c, f, k) && k.h.Serve? && k.h.m.dataSize == 0 && !k.h.m.zero
    requires k.ph.Asked? && Answer(c, f, k.ph.idx, hash)
    ensures !k.h.m.done && k.down == []
    ensures ConnInv(c, f, k.(down := hash, h := Loop)) && Steady(k, k.(down := hash, h := Loop))
  {
    ServedRequest(c, f, k);
  }

  lemma DoneServed(c: Cfg, f: Facts, k: Conn, hash: Bytes)
    requires Hypotheses(c) && ConnInv(c, f, k) && k.h.Serve? && k.h.m.dataSize == 0 && !k.h.m.zero
    requires k.h.m.done
    ensures var k' := k.(down := k.down + hash, h := Closing);
      ConnInv(c, f, k') && Steady(k, k')
  {
    ServedRequest(c, f, k);
  }

  lemma AfterPayload(c: Cfg, f: Facts, k: Conn, tail: seq<Item>)
    requires k.h.Serve? && k.up != [] && k.ack.Some? && !Packed(c, k.ack.value).isZero
    requires Head(k.h.m) == DataHeader(c, k.ack.value)
    requires tail == [] || (k.ph.Asked? && tail == [Request(c, k.ph.idx)])
    requires k.up[0].Body? && Ahead(c, f, k, tail)
    ensures k.up[1..] == tail
  {
    var b := k.ack.value;
    if Tasks(k) == Transfer(c, b) + tail {
      assert Transfer(c, b) + tail == [DataHeader(c, b)] + ([Body(ToSend(c, b))] + tail);
      TailsAgree(Head(k.h.m), DataHeader(c, b), k.up, [Body(ToSend(c, b))] + tail);
    }
  }

  lemma DataServed(c: Cfg, f: Facts, k: Conn)
    requires Hypotheses(c) && ConnInv(c, f, k) && k.h.Serve? && k.h.m.dataSize > 0 && k.up != []
    ensures k.ack.Some?
    ensures var k' := k.(up := k.up[1..], h := Store(k.h.m, SrcBlock(c, k.ack.value)));
      ConnInv(c, f, k') && Steady(k, k')
  {
    ServedData(c, f, k);
    var tail := if k.ph.Asked? then [Request(c, k.ph.idx)] else [];
    assert Ahead(c, f, k, tail);
    AfterPayload(c, f, k, tail);
    var k' := k.(up := k.up[1..], h := Store(k.h.m, SrcBlock(c, k.ack.value)));
    assert AppliesTo(c, f, k', k.ack.value);
  }

  // ---- together with the shared memory ----

  lemma GrowsWithin(c: Cfg, sh: Shared, sh': Shared)
    requires Grows(c, sh, sh')
    ensures FactsOf(c, sh).Within(FactsOf(c, sh'))
  {
  }

  /** A step of a handler keeps the shared invariant, only adds to what others rely on, and
      keeps its own connection's invariant. */
  ghost predicate HandlerKept(c: Cfg, sh: Shared, k: Conn, broken: bool)
    requires HandlerStep(c, sh, k, broken).Some?
  {
    var (sh', k') := HandlerStep(c, sh, k, broken).value;
    && SharedInv(c, sh') && Grows(c, sh, sh')
    && ConnInv(c, FactsOf(c, sh'), k') && Steady(k, k')
  }

  ghost predicate Ready(c: Cfg, sh: Shared, k: Conn, broken: bool) {
    && Hypotheses(c) && SharedInv(c, sh) && ConnInv(c, FactsOf(c, sh), k)
    && HandlerStep(c, sh, k, broken).Some?
  }

  lemma SizingKept(c: Cfg, sh: Shared, k: Conn, broken: bool)
    requires Ready(c, sh, k, broken) && (k.h.Measure? || k.h.Truncate?)
    ensures HandlerKept(c, sh, k, broken)
  {
    var (sh', k') := HandlerStep(c, sh, k, broken).value;
    TasksAreOurs(c, FactsOf(c, sh), k);
    if k.h.Truncate? {
      TruncateKeeps(c, sh);
    } else if |sh.dst| == |c.src| {
      MeasureKeeps(c, sh);
    }
    GrowsWithin(c, sh, sh');
    ConnInvRelies(c, FactsOf(c, sh), FactsOf(c, sh'), k);
    SameTasksKeeps(c, FactsOf(c, sh'), k, k');
  }

  lemma ServeZeroKept(c: Cfg, sh: Shared, k: Conn, broken: bool)
    requires Ready(c, sh, k, broken) && k.h.Serve? && k.h.m.zero
    ensures HandlerKept(c, sh, k, broken)
  {
    var f := FactsOf(c, sh);
    ServedZero(c, f, k);
    var b := k.ack.value;
    ReplyIsSixteenBytes(c, sh, b);
    if WaitFor(c, sh, b) == Some(ZERO_HASH) {
      CacheAgreement(c, sh, b);
      ZeroSkipped(c, f, k);
    } else {
      NonZeroAnswer(c, sh, b);
      ZeroStarted(c, f, k);
    }
  }

  lemma TruthfulAnswer(c: Cfg, sh: Shared, b: nat)
    requires Hypotheses(c) && SharedInv(c, sh) && sh.resized && b <= Last(c) && Known(c, sh, b)
    ensures Answer(c, FactsOf(c, sh), b, WaitFor(c, sh, b).value)
  {
    ReplyIsSixteenBytes(c, sh, b);
    if WaitFor(c, sh, b).value == BlockHash(SrcBlock(c, b)) {
      CacheAgreement(c, sh, b);
    }
  }

  /** Every message of the run names a place below 2^63. */
  lemma OursAddressable(c: Cfg, m: Msg)
    requires m.idx <= Last(c) && m.blockSize == c.bs
    ensures Addressable(m)
  {
    InsideIffUpToLast(|c.src|, c.bs, m.idx);
  }

  lemma RequestAddressable(c: Cfg, f: Facts, k: Conn)
    requires Hypotheses(c) && ConnInv(c, f, k) && k.h.Serve? && !k.h.m.zero && k.h.m.dataSize == 0
    ensures Addressable(k.h.m)
  {
    TasksAreOurs(c, f, k);
    ServedRequest(c, f, k);
    OursAddressable(c, k.h.m);
  }

  lemma ReplyStep(c: Cfg, sh: Shared, k: Conn)
    requires Ready(c, sh, k, false) && k.h.Serve? && !k.h.m.zero && k.h.m.dataSize == 0 && Addressable(k.h.m)
    ensures Known(c, sh, k.h.m.idx)
    ensures HandlerStep(c, sh, k, false).value == (sh,
      k.(down := k.down + WaitFor(c, sh, k.h.m.idx).value, h := if k.h.m.done then Closing else Loop))
  {
  }

  lemma DoneReplyKept(c: Cfg, sh: Shared, k: Conn)
    requires Ready(c, sh, k, false) && k.h.Serve? && !k.h.m.zero && k.h.m.dataSize == 0 && k.h.m.done
    ensures HandlerKept(c, sh, k, false)
  {
    RequestAddressable(c, FactsOf(c, sh), k);
    ReplyStep(c, sh, k);
    DoneServed(c, FactsOf(c, sh), k, WaitFor(c, sh, k.h.m.idx).value);
  }

  lemma HashReplyKept(c: Cfg, sh: Shared, k: Conn)
    requires Ready(c, sh, k, false) && k.h.Serve? && !k.h.m.zero && k.h.m.dataSize == 0 && !k.h.m.done
    ensures HandlerKept(c, sh, k, false)
  {
    var f := FactsOf(c, sh);
    RequestAddressable(c, f, k);
    ReplyStep(c, sh, k);
    ServedRequest(c, f, k);
    var hash := WaitFor(c, sh, k.h.m.idx).value;
    assert Answer(c, f, k.ph.idx, hash) by {
      TruthfulAnswer(c, sh, k.ph.idx);
    }
    RequestServed(c, f, k, hash);
    assert k.down + hash == hash;
  }

  lemma ServeRequestKept(c: Cfg, sh: Shared, k: Conn, broken: bool)
    requires Ready(c, sh, k, broken) && k.h.Serve? && !k.h.m.zero && k.h.m.dataSize == 0
    ensures HandlerKept(c, sh, k, broken)
  {
    RequestAddressable(c, FactsOf(c, sh), k);
    if broken {
      LeavingAtReply(c, FactsOf(c, sh), k);
    } else if k.h.m.done {
      DoneReplyKept(c, sh, k);
    } else {
      HashReplyKept(c, sh, k);
    }
  }

  lemma PayloadRestored(c: Cfg, sh: Shared, k: Conn, block: Bytes)
    requires k.h.Serve? && 0 < k.h.m.dataSize <= k.h.m.blockSize
    requires k.up != [] && k.up[0].Body? && |k.up[0].data| == k.h.m.dataSize
    requires Restore(c.codec, k.up[0].data, k.h.m.compressed) == Some(block)
    ensures HandlerStep(c, sh, k, false) == Some((sh, k.(up := k.up[1..], h := Store(k.h.m, block))))
  {
  }

  lemma PayloadReceived(c: Cfg, sh: Shared, k: Conn)
    requires Ready(c, sh, k, false) && k.h.Serve? && k.h.m.dataSize > 0
    ensures k.ack.Some? && k.up != []
    ensures HandlerStep(c, sh, k, false).value == (sh, k.(up := k.up[1..], h := Store(k.h.m, SrcBlock(c, k.ack.value))))
  {
    ServedData(c, FactsOf(c, sh), k);
    var b := k.ack.value;
    PayloadFits(c, b);
    assert k.h.m == DataHeader(c, b).msg && k.up[0].data == ToSend(c, b);
    PayloadRestored(c, sh, k, SrcBlock(c, b));
  }

  lemma ServeDataKept(c: Cfg, sh: Shared, k: Conn, broken: bool)
    requires Ready(c, sh, k, broken) && k.h.Serve? && k.h.m.dataSize > 0
    ensures HandlerKept(c, sh, k, broken)
  {
    if broken {
      LeavingAtPayload(c, FactsOf(c, sh), k);
    } else {
      PayloadReceived(c, sh, k);
      DataServed(c, FactsOf(c, sh), k);
    }
  }

  lemma ApplyingBlock(c: Cfg, f: Facts, k: Conn)
    requires ConnInv(c, f, k) && Applying(k)
    ensures k.ack.Some? && k.ack.value in f.known && InRange(c, k.ack.value) && AppliesTo(c, f, k, k.ack.value)
    ensures f.resized && (k.ph.Quiet? || k.ph.Asked?) && k.down == []
    ensures k.up == if k.ph.Asked? then [Request(c, k.ph.idx)] else []
  {
  }

  ghost function Outgoing(k: Conn): Bytes
    requires k.h.ZeroOut? || k.h.Store?
  {
    if k.h.Store? then k.h.data else Zeros(k.h.m.blockSize)
  }

  ghost function AfterWrite(k: Conn): Conn
    requires k.h.ZeroOut? || k.h.Store?
  {
    k.(h := if k.h.ZeroOut? then ZeroMark(k.h.m) else Mark(k.h.m, k.h.data))
  }

  /** After the write of the acknowledged block the handler is about to cache its hash. */
  lemma WrittenKeeps(c: Cfg, f: Facts, k: Conn)
    requires ConnInv(c, f, k) && (k.h.ZeroOut? || k.h.Store?)
    requires k.ack.Some? ==> k.ack.value in f.synced
    ensures ConnInv(c, f, AfterWrite(k)) && Steady(k, AfterWrite(k))
  {
    ApplyingBlock(c, f, k);
  }

  lemma MarkedKeeps(c: Cfg, f: Facts, k: Conn)
    requires ConnInv(c, f, k) && (k.h.ZeroMark? || k.h.Mark?)
    ensures k.h.Mark? ==> !k.h.m.done
    ensures ConnInv(c, f, k.(h := Loop)) && Steady(k, k.(h := Loop))
  {
    ApplyingBlock(c, f, k);
  }

  lemma WriteShape(c: Cfg, sh: Shared, k: Conn, broken: bool, off: nat)
    requires (k.h.ZeroOut? || k.h.Store?) && off == Offset(k.h.m) && Addressable(k.h.m)
    ensures HandlerStep(c, sh, k, broken) == Some((sh.(dst := Written(sh.dst, off, Outgoing(k))), AfterWrite(k)))
  {
  }

  /** What a handler writes is the acknowledged block, at its place. */
  lemma WriteIsBlock(c: Cfg, f: Facts, k: Conn)
    requires ConnInv(c, f, k) && (k.h.ZeroOut? || k.h.Store?)
    ensures k.ack.Some? && InRange(c, k.ack.value) && k.ack.value in f.known && f.resized
    ensures k.h.m.idx == k.ack.value && k.h.m.blockSize == c.bs
    ensures CarriesBlock(c, k.ack.value, Outgoing(k)) && Transferable(c, k.ack.value) && Addressable(k.h.m)
  {
    ApplyingBlock(c, f, k);
    IndexFits(c, k.ack.value);
    OursAddressable(c, k.h.m);
  }

  lemma WriteSharedKept(c: Cfg, sh: Shared, k: Conn, off: nat)
    requires SharedInv(c, sh) && ConnInv(c, FactsOf(c, sh), k) && (k.h.ZeroOut? || k.h.Store?)
    requires off == Offset(k.h.m)
    ensures k.ack.Some? && Addressable(k.h.m)
    ensures var sh' := sh.(dst := Written(sh.dst, off, Outgoing(k)));
      SharedInv(c, sh') && Grows(c, sh, sh') && Synced(c, sh', k.ack.value)
  {
    WriteIsBlock(c, FactsOf(c, sh), k);
    WriteKeeps(c, sh, k.ack.value, Outgoing(k), off);
  }

  lemma WriteConnKept(c: Cfg, sh: Shared, sh': Shared, k: Conn)
    requires ConnInv(c, FactsOf(c, sh), k) && (k.h.ZeroOut? || k.h.Store?)
    requires Grows(c, sh, sh') && k.ack.Some? && Synced(c, sh', k.ack.value)
    ensures ConnInv(c, FactsOf(c, sh'), AfterWrite(k)) && Steady(k, AfterWrite(k))
  {
    GrowsWithin(c, sh, sh');
    ConnInvRelies(c, FactsOf(c, sh), FactsOf(c, sh'), k);
    WrittenKeeps(c, FactsOf(c, sh'), k);
  }

  lemma WriteKept(c: Cfg, sh: Shared, k: Conn, broken: bool)
    requires Ready(c, sh, k, broken) && (k.h.ZeroOut? || k.h.Store?)
    ensures HandlerKept(c, sh, k, broken)
  {
    var off := Offset(k.h.m);
    var sh' := sh.(dst := Written(sh.dst, off, Outgoing(k)));
    WriteSharedKept(c, sh, k, off);
    WriteShape(c, sh, k, broken, off);
    WriteConnKept(c, sh, sh', k);
  }

  lemma MarkKept(c: Cfg, sh: Shared, k: Conn, broken: bool)
    requires Ready(c, sh, k, broken) && (k.h.ZeroMark? || k.h.Mark?)
    ensures HandlerKept(c, sh, k, broken)
  {
    var (sh', k') := HandlerStep(c, sh, k, broken).value;
    var f := FactsOf(c, sh);
    ApplyingBlock(c, f, k);
    var b := k.ack.value;
    IndexFits(c, b);
    MarkKeeps(c, sh, b, BlockHash(SrcBlock(c, b)));
    GrowsWithin(c, sh, sh');
    ConnInvRelies(c, f, FactsOf(c, sh'), k);
    MarkedKeeps(c, FactsOf(c, sh'), k);
  }

  /** Whatever a handler does, its step keeps the invariant of the shared memory and of its
      connection, and takes nothing away that another connection relies on. */
  lemma EveryHandlerStepKept(c: Cfg, sh: Shared, k: Conn, broken: bool)
    requires Ready(c, sh, k, broken)
    ensures HandlerKept(c, sh, k, broken)
  {
    if k.h.Loop? {
      LoopKeeps(c, sh, FactsOf(c, sh), k, broken);
    } else if k.h.Measure? || k.h.Truncate? {
      SizingKept(c, sh, k, broken);
    } else if k.h.Serve? {
      if k.h.m.dataSize > 0 {
        ServeDataKept(c, sh, k, broken);
      } else if k.h.m.zero {
        ServeZeroKept(c, sh, k, broken);
      } else {
        ServeRequestKept(c, sh, k, broken);
      }
    } else if k.h.ZeroOut? || k.h.Store? {
      WriteKept(c, sh, k, broken);
    } else if k.h.ZeroMark? || k.h.Mark? {
      MarkKept(c, sh, k, broken);
    } else {
      ClosingKept(c, sh, k, broken);
    }
  }

  lemma ClosingKept(c: Cfg, sh: Shared, k: Conn, broken: bool)
    requires Ready(c, sh, k, broken) && k.h.Closing?
    ensures HandlerKept(c, sh, k, broken)
  {
  }
}
