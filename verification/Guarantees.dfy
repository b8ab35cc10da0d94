/** Further results about every reachable state of every upload. */
module Guarantees {
  import opened Basics
  import opened Blocks
  import opened Hashing
  import opened Wire
  import opened Protocol
  import opened SharedMemory
  import opened Handlers
  import opened Clients
  import opened System
  import opened Attempts
  import opened Frames
  import opened Delivery
  import Pipeline

  // ---- waiting for a hash ----

  /** Exactly when a wait for block `i` returns: past the cache's range, or once the pool has
      stored its hash. Nothing a handler does makes an earlier answer possible. */
  lemma WaitReturnsIff(c: Cfg, s: State, i: nat)
    requires Hypotheses(c) && Reachable(c, s)
    ensures Known(c, s.sh, i) <==> i > MaxId(c) || (InPool(c, i) && i in s.sh.jobs && s.sh.jobs[i].Stored?)
  {
    ReachableInv(c, s);
  }

  /** Once the pool has finished, exactly the blocks of its range and those past the cache's
      range can be waited for; the others block for ever. */
  lemma WaitReturnsAfterPool(c: Cfg, s: State, i: nat)
    requires Hypotheses(c) && Reachable(c, s)
    requires forall j :: j in s.sh.jobs ==> s.sh.jobs[j].Stored?
    ensures Known(c, s.sh, i) <==> i > MaxId(c) || InPool(c, i)
  {
    ReachableInv(c, s);
  }

  /** Past the end of the old destination every wait returns sixteen zeros at once, in every state;
      when it was empty, from block 1 on. */
  lemma ZerosPastTheEnd(c: Cfg, s: State, i: nat)
    requires 1 <= i && |c.prior| <= i * c.srvBs
    ensures WaitFor(c, s.sh, i) == Some(Zeros(16))
  {
    if 0 < |c.prior| {
      InsideIffUpToLast(|c.prior|, c.srvBs, i);
    }
  }

  /** Pending, in-flight and stored blocks partition the pool's range. */
  lemma PoolPartition(c: Cfg, s: State, i: nat)
    requires Hypotheses(c) && Reachable(c, s)
    ensures i in s.sh.jobs <==> InPool(c, i)
    ensures i in s.sh.jobs && !s.sh.jobs[i].Stored? ==> i !in s.sh.cache
  {
    ReachableInv(c, s);
  }

  /** A precomputed hash never replaces another entry, and the bytes it was computed from were
      not yet overwritten: when the pool stores a hash there is no entry for the block, and the
      block still has its old content. */
  lemma PoolStoresFirst(c: Cfg, s: State, i: nat)
    requires Hypotheses(c) && Reachable(c, s) && Do(c, s, JobStore(i)).Some?
    ensures i !in s.sh.cache
    ensures i <= Last(c) ==>
      BlockOf(s.sh.dst, c.bs, i) == PriorBlock(c, i) || BlockOf(s.sh.dst, c.bs, i) == GrownBlock(c, i)
  {
    ReachableInv(c, s);
    if i <= Last(c) {
      PoolReadsOldContent(c, s.sh, i);
    }
  }

  // ---- agreement and framing ----

  /** In every reachable state after the first resize: if the hash the server would answer with
      is the source block's, the destination block is the source block. */
  lemma EqualHashMeansEqualBlock(c: Cfg, s: State, i: nat)
    requires Hypotheses(c) && Reachable(c, s) && s.sh.resized && i <= Last(c)
    requires WaitFor(c, s.sh, i) == Some(BlockHash(SrcBlock(c, i)))
    ensures ViewBlock(c, s.sh, i) == SrcBlock(c, i)
  {
    ReachableInv(c, s);
    CacheAgreement(c, s.sh, i);
  }

  /** On a worker's connection there is nothing to read or exactly one sixteen-byte reply, and
      only while the client waits for one. */
  lemma RepliesAreFramed(c: Cfg, s: State, k: nat)
    requires Hypotheses(c) && Reachable(c, s) && k < |s.conns| && !s.conns[k].ph.DoneSent?
    ensures |s.conns[k].down| == 0 || (|s.conns[k].down| == 16 && s.conns[k].ph.Asked?)
  {
    ReachableInv(c, s);
    assert ConnInv(c, FactsOf(c, s.sh), s.conns[k]);
  }

  /** Every payload on its way to a handler, however many attempts and connections carry it,
      is the payload of a block of the source. */
  lemma PayloadsAreSourceBlocks(c: Cfg, s: State, k: nat, n: nat)
    requires Hypotheses(c) && Reachable(c, s) && k < |s.conns| && n < |s.conns[k].up|
    requires !Finished(s.conns[k]) && s.conns[k].up[n].Body?
    ensures s.conns[k].ack.Some? && InRange(c, s.conns[k].ack.value)
    ensures s.conns[k].up[n] == Body(ToSend(c, s.conns[k].ack.value))
  {
    ReachableInv(c, s);
    var conn := s.conns[k];
    assert ConnInv(c, FactsOf(c, s.sh), conn);
    BodiesBelong(c, FactsOf(c, s.sh), conn, Body(conn.up[n].data));
  }

  lemma BodiesBelong(c: Cfg, f: Facts, k: Conn, it: Item)
    requires ConnInv(c, f, k) && !Finished(k) && it.Body? && it in k.up
    ensures k.ack.Some? && InRange(c, k.ack.value) && it == Body(ToSend(c, k.ack.value))
  {
    assert it in Tasks(k);
    if Applying(k) {
      ApplyingBlock(c, f, k);
    }
  }

  lemma TransferFramed(c: Cfg, b: nat, tail: seq<Item>)
    requires Hypotheses(c) && b <= Last(c) && Transferable(c, b) && WellFramed(tail)
    ensures WellFramed(Transfer(c, b) + tail)
  {
    var items := Transfer(c, b) + tail;
    if Packed(c, b).isZero {
      assert items[1..] == tail;
    } else {
      PayloadFits(c, b);
      assert items[2..] == tail;
    }
  }

  lemma SingleFramed(it: Item)
    requires it.Head? && it.msg.magic == MAGIC
    ensures WellFramed([it])
  {
    assert [it][1..] == [];
  }

  lemma TasksFramed(c: Cfg, f: Facts, k: Conn)
    requires Hypotheses(c) && ConnInv(c, f, k) && !Finished(k) && !Applying(k)
    ensures WellFramed(Tasks(k))
  {
    SingleFramed(DoneMessage(c));
    var tail := if k.ph.Asked? && k.down == [] then [Request(c, k.ph.idx)]
      else if k.ph.HeadSent? then [DataHeader(c, k.ph.idx)] else [];
    if tail != [] {
      SingleFramed(tail[0]);
    }
    if k.ack.Some? && Transferable(c, k.ack.value) {
      TransferFramed(c, k.ack.value, tail);
    }
  }

  /** Wherever the bytes still under way to a handler are cut off by a drop, the handler reads
      a prefix of the messages the client sent, exactly those that arrived whole. */
  lemma CutStreamIsSafe(c: Cfg, s: State, k: nat, n: nat)
    requires Hypotheses(c) && Reachable(c, s) && k < |s.conns|
    requires !Finished(s.conns[k]) && !Applying(s.conns[k]) && n <= |Stream(Tasks(s.conns[k]))|
    ensures var items := Tasks(s.conns[k]); Parse(Stream(items)[..n]) == items[..Whole(items, n)]
  {
    ReachableInv(c, s);
    assert ConnInv(c, FactsOf(c, s.sh), s.conns[k]);
    TasksFramed(c, FactsOf(c, s.sh), s.conns[k]);
    TornStream(Tasks(s.conns[k]), n);
  }

  lemma CompletedHere(c: Cfg, f: Facts, s: State, i: nat)
    requires DeliveryInv(f, s) && i < |s.conns| && (s.conns[i].ack.Some? ==> s.conns[i].ack.value in f.synced)
    ensures forall b :: b in s.via && s.via[b] == i ==> b in f.synced
  {
    forall b | b in s.via && s.via[b] == i
      ensures b in f.synced
    {
      assert Delivered(f, s, b);
    }
  }

  /** Implicit acknowledgement: in the step in which a worker reads a reply, the block it sent
      last on that connection is already in place, and so is every block ever completed there, and
      so is the block asked about when the reply is that block's own hash. */
  lemma ReplyAcknowledges(c: Cfg, s: State, w: nat)
    requires Hypotheses(c) && Reachable(c, s) && Do(c, s, Hear(w)).Some?
    ensures var k := TheConn(s, w);
      && (k.ack.Some? ==> Synced(c, s.sh, k.ack.value))
      && (forall b :: b in s.via && s.via[b] == s.net[w].value ==> Synced(c, s.sh, b))
      && (k.down[..16] == BlockHash(SrcBlock(c, k.ph.idx)) ==> Synced(c, s.sh, k.ph.idx))
  {
    ReachableInv(c, s);
    AtWork(c, FactsOf(c, s.sh), s, w);
    HearKeeps(c, FactsOf(c, s.sh), TheConn(s, w));
    CompletedHere(c, FactsOf(c, s.sh), s, s.net[w].value);
  }

  /** In every reachable state a block reported as delivered is in place, or is the last one sent
      on the connection on which it was completed, with no reply read since. */
  lemma OnlyLastSentIsOpen(c: Cfg, s: State, b: nat)
    requires Hypotheses(c) && Reachable(c, s) && b in s.pipe.ok
    ensures Synced(c, s.sh, b) || OnItsWay(s, b)
  {
    ReachableInv(c, s);
    assert Delivered(FactsOf(c, s.sh), s, b);
  }

  /** A block for which there is nothing to send, which happens only with compression switched
      off, is in place exactly when the old content, cut or extended with zeros, was already right. */
  lemma UnsendableInPlaceIff(c: Cfg, s: State, b: nat)
    requires Hypotheses(c) && Reachable(c, s) && s.sh.resized && b <= Last(c) && !Transferable(c, b)
    ensures Synced(c, s.sh, b) <==> GrownBlock(c, b) == SrcBlock(c, b)
  {
    ReachableInv(c, s);
    assert BlockInv(c, s.sh, b);
  }

  lemma SentIsTransferable(c: Cfg, s: State, b: nat)
    requires SysInv(c, s) && OnItsWay(s, b)
    ensures Transferable(c, b)
  {
    assert ConnInv(c, FactsOf(c, s.sh), s.conns[s.via[b]]);
  }

  /** At the exit such a block, when the old content was not right, has been given up, after exactly
      three failed attempts in whatever run led there. */
  lemma UnsendableGivenUp(c: Cfg, s: State, b: nat)
    requires Hypotheses(c) && 0 < c.workers && Reachable(c, s) && s.main.exit.TimerExit?
    requires InRange(c, b) && !Transferable(c, b) && GrownBlock(c, b) != SrcBlock(c, b)
    ensures b in s.pipe.failed && !Synced(c, s.sh, b)
    ensures forall steps :: Run(c, Init(c), steps) == Some(s) ==> FailedAttempts(c, Init(c), steps, b) == 3
  {
    ReachableInv(c, s);
    UnsendableInPlaceIff(c, s, b);
    ExitOutcome(c, s, b);
    if OnItsWay(s, b) {
      SentIsTransferable(c, s, b);
    }
  }

  /** Wherever an attempt is on its connection, its next step may fail. */
  lemma FailsOnConnection(c: Cfg, s: State, w: nat) returns (st: Step)
    requires OnConn(s, w) && !TheConn(s, w).ph.DoneSent?
    ensures Do(c, s, st).Some? && AttemptFails(s, st, s.pipe.movers[w].idx)
    ensures PipelineStep(c, s, st) == Some(Pipeline.Fail(w))
  {
    var b := s.pipe.movers[w].idx;
    match TheConn(s, w).ph
    case Quiet => st := Ask(w, false, false);
    case Asked(_) => st := HearFail(w);
    case Answered(_) =>
      st := if Packed(c, b).isZero then SendZero(w, false, false)
        else if ToSend(c, b) == [] then NoPayload(w)
        else SendHead(w, false, false);
    case HeadSent(_) => st := SendBody(w, false, false);
  }

  lemma OneMoreFailure(c: Cfg, s: State, w: nat) returns (st: Step)
    requires SysInv(c, s) && BusyWorker(s, w)
    ensures Do(c, s, st).Some? && AttemptFails(s, st, s.pipe.movers[w].idx)
    ensures PipelineStep(c, s, st) == Some(Pipeline.Fail(w))
  {
    assert WorkerInv(s, w);
    if s.net[w].None? {
      st := DialFail(w);
    } else {
      AtWork(c, FactsOf(c, s.sh), s, w);
      st := FailsOnConnection(c, s, w);
    }
  }

  ghost predicate HungUp(s: State, t: State, w: nat)
    requires w < |s.net|
  {
    && w < |t.net| && t.net[w].None?
    && (s.net[w].Some? ==> s.net[w].value < |t.conns| && !t.conns[s.net[w].value].open)
  }

  lemma FailedWriteHangsUp(c: Cfg, s: State, st: Step, t: State, w: nat)
    requires BusyWorker(s, w) && s.pipe.movers[w].tries < 2 && Do(c, s, st) == Some(t)
    requires st.SendZero? || st.SendHead? || st.SendBody?
    requires st.w == w && !st.ok
    ensures HungUp(s, t, w)
  {
  }

  lemma FailedAskHangsUp(c: Cfg, s: State, st: Step, t: State, w: nat)
    requires BusyWorker(s, w) && s.pipe.movers[w].tries < 2 && Do(c, s, st) == Some(t)
    requires st.Ask? && st.w == w && !st.ok
    ensures HungUp(s, t, w)
  {
  }

  /** A failed attempt that is not the last gives the worker's connection up, so that the next one
      begins on a new one. */
  lemma RetriesStartFresh(c: Cfg, s: State, st: Step, t: State, w: nat)
    requires BusyWorker(s, w) && s.pipe.movers[w].tries < 2 && Do(c, s, st) == Some(t)
    requires AttemptFails(s, st, s.pipe.movers[w].idx) && PipelineStep(c, s, st) == Some(Pipeline.Fail(w))
    ensures w < |t.net| && t.net[w].None?
    ensures s.net[w].Some? ==> s.net[w].value < |t.conns| && !t.conns[s.net[w].value].open
  {
    if st.SendZero? || st.SendHead? || st.SendBody? {
      FailedWriteHangsUp(c, s, st, t, w);
    } else if st.Ask? {
      FailedAskHangsUp(c, s, st, t, w);
    }
  }

  lemma FailureCounts(c: Cfg, s: State, w: nat, st: Step)
    requires SysInv(c, s) && BusyWorker(s, w)
    requires Do(c, s, st).Some? && PipelineStep(c, s, st) == Some(Pipeline.Fail(w))
    ensures var t, b, n := Do(c, s, st).value, s.pipe.movers[w].idx, s.pipe.movers[w].tries;
      && SysInv(c, t)
      && if n < 2 then BusyWorker(t, w) && t.pipe.movers[w] == Pipeline.Busy(b, n + 1) else b in t.pipe.failed
  {
    StepKeeps(c, s, st);
    StepIsPipelineStep(c, s, st);
    var t := Do(c, s, st).value;
    TriesGoUp(c, s.pipe, w, t.pipe);
    assert |t.net| == |t.pipe.movers|;
  }

  lemma TriesGoUp(c: Cfg, s: Pipeline.State, w: nat, t: Pipeline.State)
    requires w < |s.movers| && s.movers[w].Busy? && Pipeline.Do(Pipe(c), s, Pipeline.Fail(w)) == Some(t)
    ensures if s.movers[w].tries < 2 then
        w < |t.movers| && t.movers[w] == Pipeline.Busy(s.movers[w].idx, s.movers[w].tries + 1)
      else s.movers[w].idx in t.failed
  {
  }

  /** A block in a worker's hands can still be given up: three failures in all, with no other step
      between them, do it. */
  lemma {:induction false} CanBeGivenUp(c: Cfg, s: State, w: nat) returns (steps: seq<Step>)
    requires SysInv(c, s) && BusyWorker(s, w)
    ensures |steps| == 3 - s.pipe.movers[w].tries == FailedAttempts(c, s, steps, s.pipe.movers[w].idx)
    ensures Run(c, s, steps).Some? && s.pipe.movers[w].idx in Run(c, s, steps).value.pipe.failed
    decreases 3 - s.pipe.movers[w].tries
  {
    var st := OneMoreFailure(c, s, w);
    FailureCounts(c, s, w, st);
    var rest := [];
    if s.pipe.movers[w].tries < 2 {
      rest := CanBeGivenUp(c, Do(c, s, st).value, w);
    }
    steps := [st] + rest;
    assert steps[1..] == rest;
  }

  /** The client has read the hash of its own block `b` from the server on worker `w`'s connection. */
  ghost predicate HearsOwnHash(c: Cfg, s: State, w: nat, b: nat) {
    && HasBlock(s, w, b) && Do(c, s, Hear(w)).Some?
    && TheConn(s, w).down[..16] == Packed(c, b).hash
  }

  lemma HearingWritesNothing(c: Cfg, s: State, w: nat)
    requires Do(c, s, Hear(w)).Some?
    ensures |Do(c, s, Hear(w)).value.conns| == |s.conns|
    ensures forall k :: 0 <= k < |s.conns| ==> Do(c, s, Hear(w)).value.conns[k].up == s.conns[k].up
  {
  }

  lemma HearingDelivers(c: Cfg, s: State, w: nat, b: nat)
    requires HearsOwnHash(c, s, w, b)
    ensures b in Do(c, s, Hear(w)).value.pipe.ok
  {
  }

  /** A block whose hash the server has is not transferred: hearing it writes nothing, and nowhere in
      any continuation does a worker send the block's zero notice, header or payload. */
  lemma EqualHashNoTransfer(c: Cfg, s: State, w: nat, b: nat, steps: seq<Step>, st: Step)
    requires Hypotheses(c) && Reachable(c, s) && HearsOwnHash(c, s, w, b)
    requires Run(c, Do(c, s, Hear(w)).value, steps).Some?
    requires st.SendZero? || st.SendHead? || st.SendBody?
    ensures forall k :: 0 <= k < |s.conns| ==> Do(c, s, Hear(w)).value.conns[k].up == s.conns[k].up
    ensures var u := Run(c, Do(c, s, Hear(w)).value, steps).value;
      Do(c, u, st).Some? ==> !HasBlock(u, st.w, b)
  {
    ReachableInv(c, s);
    StepKeeps(c, s, Hear(w));
    HearingWritesNothing(c, s, w);
    HearingDelivers(c, s, w, b);
    var t := Do(c, s, Hear(w)).value;
    RunKeeps(c, t, steps);
    DeliveredStays(c, t, steps, b);
    var u := Run(c, t, steps).value;
    if HasBlock(u, st.w, b) {
      Pipeline.BusyIsOpen(Pipe(c), u.pipe, st.w);
    }
  }

  /** A block once in place stays in place, whatever arrives late or twice. */
  lemma InPlaceStays(c: Cfg, s: State, steps: seq<Step>, b: nat)
    requires Hypotheses(c) && Reachable(c, s) && Run(c, s, steps).Some?
    requires Synced(c, s.sh, b)
    ensures Synced(c, Run(c, s, steps).value.sh, b)
  {
    ReachableInv(c, s);
    RunKeeps(c, s, steps);
  }

  /** A handler that reads from or writes to a dropped connection may find out at any time, whatever
      is still unread: it then returns and leaves the shared memory alone. */
  lemma CutOffReturns(c: Cfg, sh: Shared, k: Conn)
    requires k.dropped
    requires k.h.Loop? || (k.h.Serve? && 0 < k.h.m.dataSize <= k.h.m.blockSize)
      || (k.h.Serve? && k.h.m.dataSize == 0 && !k.h.m.zero && Addressable(k.h.m) && Known(c, sh, k.h.m.idx))
    ensures HandlerStep(c, sh, k, true) == Some((sh, k.(h := Returned)))
  {
  }

  // ---- what is cached after a write ----

  ghost predicate CachesSource(c: Cfg, sh: Shared, b: nat) {
    b in sh.cache && sh.cache[b] == BlockHash(SrcBlock(c, b))
  }

  lemma MarkedBlock(c: Cfg, f: Facts, k: Conn)
    requires Hypotheses(c) && ConnInv(c, f, k) && (k.h.ZeroMark? || k.h.Mark?)
    ensures var b := k.h.m.idx;
      && InRange(c, b) && b in f.known
      && if k.h.Mark? then k.h.data == SrcBlock(c, b) && !IsZero(k.h.data) else IsZero(SrcBlock(c, b))
  {
    ApplyingBlock(c, f, k);
    HeaderMeaning(c, k.ack.value);
  }

  lemma OnlyMarksCache(c: Cfg, sh: Shared, k: Conn, broken: bool)
    requires HandlerStep(c, sh, k, broken).Some?
    ensures HandlerStep(c, sh, k, broken).value.0.cache ==
      if k.h.ZeroMark? then sh.cache[k.h.m.idx := ZERO_HASH]
      else if k.h.Mark? then sh.cache[k.h.m.idx := Fnv(k.h.data)]
      else sh.cache
  {
  }

  lemma HandlerCaches(c: Cfg, sh: Shared, k: Conn, broken: bool, b: nat)
    requires Ready(c, sh, k, broken) && b <= Last(c)
    ensures var sh' := HandlerStep(c, sh, k, broken).value.0;
      && (CachesSource(c, sh, b) ==> CachesSource(c, sh', b))
      && ((k.h.ZeroMark? || k.h.Mark?) && k.h.m.idx == b ==> CachesSource(c, sh', b))
  {
    OnlyMarksCache(c, sh, k, broken);
    if k.h.ZeroMark? || k.h.Mark? {
      MarkedBlock(c, FactsOf(c, sh), k);
    }
  }

  lemma StepCaches(c: Cfg, s: State, st: Step, b: nat)
    requires SysInv(c, s) && b <= Last(c) && CachesSource(c, s.sh, b) && Do(c, s, st).Some?
    ensures CachesSource(c, Do(c, s, st).value.sh, b)
  {
    if st.Handle? {
      assert ConnInv(c, FactsOf(c, s.sh), s.conns[st.k]);
      HandlerCaches(c, s.sh, s.conns[st.k], st.broken, b);
    } else if ClientStep(st) {
      ClientKeepsShared(c, s, st);
    }
  }

  lemma {:induction false} RunCaches(c: Cfg, s: State, steps: seq<Step>, b: nat)
    requires SysInv(c, s) && b <= Last(c) && CachesSource(c, s.sh, b) && Run(c, s, steps).Some?
    ensures CachesSource(c, Run(c, s, steps).value.sh, b)
    decreases steps
  {
    if steps != [] {
      StepKeeps(c, s, steps[0]);
      StepCaches(c, s, steps[0], b);
      RunCaches(c, Do(c, s, steps[0]).value, steps[1..], b);
    }
  }

  lemma HandleSharesHandlers(c: Cfg, s: State, k: nat, broken: bool)
    requires Do(c, s, Handle(k, broken)).Some?
    ensures k < |s.conns| && HandlerStep(c, s.sh, s.conns[k], broken).Some?
    ensures Do(c, s, Handle(k, broken)).value.sh == HandlerStep(c, s.sh, s.conns[k], broken).value.0
  {
  }

  lemma MarkingCaches(c: Cfg, s: State, k: nat, broken: bool)
    requires SysInv(c, s) && Do(c, s, Handle(k, broken)).Some?
    requires s.conns[k].h.ZeroMark? || s.conns[k].h.Mark?
    ensures InRange(c, s.conns[k].h.m.idx) && CachesSource(c, Do(c, s, Handle(k, broken)).value.sh, s.conns[k].h.m.idx)
  {
    HandleSharesHandlers(c, s, k, broken);
    assert ConnInv(c, FactsOf(c, s.sh), s.conns[k]);
    MarkedBlock(c, FactsOf(c, s.sh), s.conns[k]);
    HandlerCaches(c, s.sh, s.conns[k], broken, s.conns[k].h.m.idx);
  }

  lemma CachedIsAnswered(c: Cfg, sh: Shared, b: nat)
    requires CachesSource(c, sh, b)
    ensures WaitFor(c, sh, b) == Some(if b <= MaxId(c) then Packed(c, b).hash else Zeros(16))
  {
  }

  /** Once a handler has finished writing a block, the server answers for it with the client's own
      hash for the rest of the run, unless the block is past the old destination, where every answer
      is zeros. */
  lemma WrittenIsAnswered(c: Cfg, s: State, k: nat, broken: bool, steps: seq<Step>)
    requires Hypotheses(c) && Reachable(c, s) && Do(c, s, Handle(k, broken)).Some?
    requires s.conns[k].h.ZeroMark? || s.conns[k].h.Mark?
    requires Run(c, Do(c, s, Handle(k, broken)).value, steps).Some?
    ensures var b, u := s.conns[k].h.m.idx, Run(c, Do(c, s, Handle(k, broken)).value, steps).value;
      && InRange(c, b)
      && WaitFor(c, u.sh, b) == Some(if b <= MaxId(c) then Packed(c, b).hash else Zeros(16))
  {
    ReachableInv(c, s);
    MarkingCaches(c, s, k, broken);
    StepKeeps(c, s, Handle(k, broken));
    RunCaches(c, Do(c, s, Handle(k, broken)).value, steps, s.conns[k].h.m.idx);
    CachedIsAnswered(c, Run(c, Do(c, s, Handle(k, broken)).value, steps).value.sh, s.conns[k].h.m.idx);
  }

  // ---- the destination's size ----

  /** The last block of the source is a partial one of zeros that the upload asks for, and the old
      destination's was not all zeros: then a handler may overwrite it as a whole block. */
  ghost predicate LastIsPadded(c: Cfg) {
    && c.skip <= Last(c) && |SrcBlock(c, Last(c))| < c.bs
    && IsZero(SrcBlock(c, Last(c))) && !IsZero(PriorBlock(c, Last(c)))
  }

  /** After the first resize the destination has the source's length, or a full last block,
      and only zeros past the source's length; the longer form needs a padded last block. */
  lemma SizeAlways(c: Cfg, s: State)
    requires Hypotheses(c) && Reachable(c, s) && s.sh.resized
    ensures |s.sh.dst| == |c.src| || |s.sh.dst| == (Last(c) + 1) * c.bs
    ensures |s.sh.dst| >= |c.src| && IsZero(s.sh.dst[|c.src|..])
    ensures |s.sh.dst| != |c.src| ==> LastIsPadded(c)
  {
    ReachableInv(c, s);
    if |s.sh.dst| != |c.src| {
      LastIsPartial(c);
    }
  }

  /** At the exit through the shutdown timer the destination is as long as the source, unless the
      last block is padded. (Module Witness shows that it then need not be.) */
  lemma SizeAtExit(c: Cfg, s: State)
    requires Hypotheses(c) && Reachable(c, s) && s.main.exit.TimerExit?
    ensures s.sh.resized && (!LastIsPadded(c) ==> |s.sh.dst| == |c.src|)
  {
    ReachableInv(c, s);
    SizeAlways(c, s);
  }

  lemma LastIsPartial(c: Cfg)
    requires (Last(c) + 1) * c.bs != |c.src|
    ensures |SrcBlock(c, Last(c))| < c.bs
  {
    var off, n := Last(c) * c.bs, |c.src|;
    BlockInside(c, Last(c));
    LastBlockBounds(n, c.bs);
    assert (Last(c) + 1) * c.bs == off + c.bs;
  }

  lemma StepSize(c: Cfg, s: State, st: Step)
    requires SysInv(c, s) && s.sh.resized && Do(c, s, st).Some?
    ensures |Do(c, s, st).value.sh.dst| < |s.sh.dst| ==> st.Handle? && s.conns[st.k].h.Truncate?
    ensures |Do(c, s, st).value.sh.dst| > |s.sh.dst| ==> st.Handle? && s.conns[st.k].h.ZeroOut?
  {
    if st.Handle? {
      HandlerSize(c, s.sh, s.conns[st.k], st.broken);
    } else if ClientStep(st) {
      ClientKeepsShared(c, s, st);
    }
  }

  /** From then on, only a handler that truncates can make it shorter, and only one writing a
      whole block of zeros can make it longer. */
  lemma SizeChanges(c: Cfg, s: State, st: Step)
    requires Hypotheses(c) && Reachable(c, s) && s.sh.resized && Do(c, s, st).Some?
    ensures |Do(c, s, st).value.sh.dst| < |s.sh.dst| ==> st.Handle? && s.conns[st.k].h.Truncate?
    ensures |Do(c, s, st).value.sh.dst| > |s.sh.dst| ==> st.Handle? && s.conns[st.k].h.ZeroOut?
  {
    ReachableInv(c, s);
    StepSize(c, s, st);
  }

  /** A handler that has just sized the file leaves it exactly as long as the source. */
  lemma SizingIsExact(c: Cfg, s: State, k: nat, broken: bool)
    requires Hypotheses(c) && Reachable(c, s) && Do(c, s, Handle(k, broken)).Some?
    requires s.conns[k].h.Measure? || s.conns[k].h.Truncate?
    ensures var t := Do(c, s, Handle(k, broken)).value; t.conns[k].h.Serve? ==> |t.sh.dst| == |c.src|
  {
    ReachableInv(c, s);
    assert ConnInv(c, FactsOf(c, s.sh), s.conns[k]);
    TasksAreOurs(c, FactsOf(c, s.sh), s.conns[k]);
  }

  /** No handler writes a block of zeros during these steps. */
  ghost predicate NoZeroWrite(c: Cfg, s: State, steps: seq<Step>)
    decreases steps
  {
    steps == [] || Do(c, s, steps[0]).None? ||
    (&& (steps[0].Handle? ==> !s.conns[steps[0].k].h.ZeroOut?)
     && NoZeroWrite(c, Do(c, s, steps[0]).value, steps[1..]))
  }

  lemma {:induction false} ExactStays(c: Cfg, s: State, steps: seq<Step>)
    requires SysInv(c, s) && s.sh.resized && |s.sh.dst| == |c.src|
    requires Run(c, s, steps).Some? && NoZeroWrite(c, s, steps)
    ensures |Run(c, s, steps).value.sh.dst| == |c.src|
    decreases steps
  {
    if steps != [] {
      StepKeeps(c, s, steps[0]);
      StepSize(c, s, steps[0]);
      ExactStays(c, Do(c, s, steps[0]).value, steps[1..]);
    }
  }

  /** Once some handler, the DONE message's for one, has sized the file after the last write of
      zeros, the destination has exactly the source's length for the rest of the run. */
  lemma ExactAfterLastZeroWrite(c: Cfg, s: State, steps: seq<Step>)
    requires Hypotheses(c) && Reachable(c, s) && s.sh.resized && |s.sh.dst| == |c.src|
    requires Run(c, s, steps).Some? && NoZeroWrite(c, s, steps)
    ensures |Run(c, s, steps).value.sh.dst| == |c.src|
  {
    ReachableInv(c, s);
    ExactStays(c, s, steps);
  }

  lemma StoreSize(c: Cfg, sh: Shared, k: Conn, broken: bool)
    requires Ready(c, sh, k, broken) && sh.resized && k.h.Store?
    ensures |HandlerStep(c, sh, k, broken).value.0.dst| == |sh.dst|
  {
    StoredBlock(c, FactsOf(c, sh), k);
    BlockFits(c, sh.dst, k.h.m.idx, k.h.m.blockSize, k.h.data);
  }

  lemma TruncateSize(c: Cfg, sh: Shared, k: Conn, broken: bool)
    requires Ready(c, sh, k, broken) && sh.resized && k.h.Truncate?
    ensures |HandlerStep(c, sh, k, broken).value.0.dst| <= |sh.dst|
  {
    TasksAreOurs(c, FactsOf(c, sh), k);
  }

  lemma OtherSize(c: Cfg, sh: Shared, k: Conn, broken: bool)
    requires HandlerStep(c, sh, k, broken).Some? && !k.h.Store? && !k.h.Truncate?
    ensures k.h.ZeroOut? || HandlerStep(c, sh, k, broken).value.0.dst == sh.dst
    ensures |HandlerStep(c, sh, k, broken).value.0.dst| >= |sh.dst|
  {
    if k.h.ZeroOut? {
      LongerOrSame(sh.dst, Offset(k.h.m), Zeros(k.h.m.blockSize));
    }
  }

  lemma HandlerSize(c: Cfg, sh: Shared, k: Conn, broken: bool)
    requires Ready(c, sh, k, broken) && sh.resized
    ensures var size := |HandlerStep(c, sh, k, broken).value.0.dst|;
      (size < |sh.dst| ==> k.h.Truncate?) && (size > |sh.dst| ==> k.h.ZeroOut?)
  {
    if k.h.Store? {
      StoreSize(c, sh, k, broken);
    } else if k.h.Truncate? {
      TruncateSize(c, sh, k, broken);
    } else {
      OtherSize(c, sh, k, broken);
    }
  }

  lemma LongerOrSame(f: Bytes, off: nat, data: Bytes)
    ensures |Written(f, off, data)| >= |f|
    ensures off + |data| <= |f| ==> |Written(f, off, data)| == |f|
  {
  }

  lemma StoredBlock(c: Cfg, f: Facts, k: Conn)
    requires ConnInv(c, f, k) && k.h.Store?
    ensures InRange(c, k.h.m.idx) && k.h.m.blockSize == c.bs
    ensures k.h.data == SrcBlock(c, k.h.m.idx) && !IsZero(k.h.data)
  {
    ApplyingBlock(c, f, k);
    IndexFits(c, k.ack.value);
  }

  lemma BlockFits(c: Cfg, f: Bytes, i: nat, bs: nat, data: Bytes)
    requires i <= Last(c) && bs == c.bs && data == SrcBlock(c, i) && |f| >= |c.src|
    ensures |Written(f, i * bs, data)| == |f|
  {
    BlockInside(c, i);
    LongerOrSame(f, i * bs, data);
  }

  // ---- shutdown ----

  /** The connection count is the number of spawned, unfinished handlers; the shutdown timer
      runs only after DONE; the idle timer never runs; nobody is left at an exit. */
  lemma ShutdownState(c: Cfg, s: State)
    requires Hypotheses(c) && Reachable(c, s)
    ensures s.main.active == LiveCount(s.conns)
    ensures s.main.armed ==> s.main.done
    ensures !s.main.idleArmed && !s.main.exit.IdleExit?
    ensures s.main.exit.TimerExit? ==> s.main.done && forall k :: 0 <= k < |s.conns| ==> !IsLive(s.conns[k])
  {
    ReachableInv(c, s);
    forall k | 0 <= k < |s.conns| && IsLive(s.conns[k])
      ensures s.main.active >= 1
    {
      LiveCounts(s.conns, k);
    }
  }

  /** A handler's own test of the count, made before its deferred decrement, never reads zero. */
  lemma OwnTestReadsAtLeastOne(c: Cfg, s: State, k: nat)
    requires Hypotheses(c) && Reachable(c, s) && Do(c, s, Check(k)).Some?
    ensures s.main.active >= 1
    ensures Do(c, s, Check(k)).value.main == s.main
  {
    ReachableInv(c, s);
    CheckStep(c, FactsOf(c, s.sh), s, Check(k));
  }

  /** The DONE message asks for block 0, so a server whose pool does not cover block 0 of a
      non-empty destination never gets to its exit, nor does one whose destination was empty. */
  lemma ShutdownNeedsBlockZero(c: Cfg, s: State)
    requires Hypotheses(c) && Reachable(c, s)
    ensures s.main.done || !s.main.exit.Serving? ==> CanEnd(c)
  {
    ReachableInv(c, s);
  }

  /** With no workers the client announces DONE at once, although no block has been delivered or even
      given up. */
  lemma NoWorkersNothingTransferred(c: Cfg) returns (s: State)
    requires c.workers == 0
    ensures Reachable(c, s) && s.doneSent && |s.conns| == 1 && s.conns[0].up == [DoneMessage(c)]
    ensures s.pipe.ok == s.pipe.failed == multiset{} && s.sh.dst == c.prior
  {
    s := Do(c, Init(c), SendDone(true)).value;
    assert [SendDone(true)][1..] == [];
    assert Run(c, Init(c), [SendDone(true)]) == Run(c, s, []);
  }

  /** With an empty destination no reply to a request for block 0 is ever sent, in any run. */
  lemma EmptyDestinationBlocksForEver(c: Cfg, s: State)
    requires Hypotheses(c) && Reachable(c, s) && c.prior == []
    ensures !Known(c, s.sh, 0) && !s.main.done && s.main.exit.Serving?
    ensures Synced(c, s.sh, 0) ==> IsZero(SrcBlock(c, 0))
  {
    ReachableInv(c, s);
    if Synced(c, s.sh, 0) {
      assert BlockInv(c, s.sh, 0);
      BlockInside(c, 0);
    }
  }
}
