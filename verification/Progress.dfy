/** No upload gets stuck except in one way: everything is over and no timer will ever fire
    (client.go, server.go). */
module Progress {
  import opened Basics
  import opened Wire
  import opened Protocol
  import opened SharedMemory
  import opened Handlers
  import opened System
  import Pipeline

  // ---- open connections have an owner ----

  ghost predicate Owned(s: State, k: nat) {
    exists w :: 0 <= w < |s.net| && s.net[w] == Some(k)
  }

  ghost predicate OwnersInv(s: State) {
    forall k :: 0 <= k < |s.conns| && s.conns[k].open && !s.conns[k].ph.DoneSent? ==> Owned(s, k)
  }

  /** Connections only ever close, and no connection turns into or from the DONE connection. */
  ghost predicate SameEnds(s: State, s': State) {
    && s'.net == s.net && |s'.conns| == |s.conns|
    && forall k :: 0 <= k < |s.conns| ==>
      (s'.conns[k].open ==> s.conns[k].open) && (s'.conns[k].ph.DoneSent? <==> s.conns[k].ph.DoneSent?)
  }

  lemma SameEndsKeepOwners(s: State, s': State)
    requires OwnersInv(s) && SameEnds(s, s')
    ensures OwnersInv(s')
  {
    forall k | 0 <= k < |s'.conns| && s'.conns[k].open && !s'.conns[k].ph.DoneSent?
      ensures Owned(s', k)
    {
      assert Owned(s, k);
      var w :| 0 <= w < |s.net| && s.net[w] == Some(k);
      assert s'.net[w] == Some(k);
    }
  }

  lemma HangupKeepsOwners(s: State, w: nat)
    requires OwnersInv(s) && w < |s.net| && s.net[w].Some? && s.net[w].value < |s.conns|
    ensures OwnersInv(Hangup(s, w))
  {
    var s' := Hangup(s, w);
    forall k | 0 <= k < |s'.conns| && s'.conns[k].open && !s'.conns[k].ph.DoneSent?
      ensures Owned(s', k)
    {
      assert Owned(s, k);
      var v :| 0 <= v < |s.net| && s.net[v] == Some(k);
      assert s'.net[v] == Some(k);
    }
  }

  lemma ConnectedKeepsOwners(s: State, w: nat)
    requires OwnersInv(s) && BusyWorker(s, w)
    ensures OwnersInv(Connected(s, w))
  {
    var s' := Connected(s, w);
    if s.net[w].None? {
      forall k | 0 <= k < |s'.conns| && s'.conns[k].open && !s'.conns[k].ph.DoneSent?
        ensures Owned(s', k)
      {
        if k == |s.conns| {
          assert s'.net[w] == Some(k);
        } else {
          assert Owned(s, k);
          var v :| 0 <= v < |s.net| && s.net[v] == Some(k);
          assert s'.net[v] == Some(k);
        }
      }
    }
  }

  lemma BrokenKeepsOwners(c: Cfg, s: State, w: nat)
    requires OwnersInv(s) && OnConn(s, w)
    ensures OwnersInv(Broken(c, s, w))
  {
    HangupKeepsOwners(s, w);
    SameEndsKeepOwners(Hangup(s, w), Broken(c, s, w));
  }

  lemma SendKeepsOwners(c: Cfg, s: State, w: nat, after: Conn, final: bool, arrives: bool, ok: bool)
    requires OwnersInv(s) && OnConn(s, w) && !after.ph.DoneSent? && !TheConn(s, w).ph.DoneSent?
    requires after.open == TheConn(s, w).open && Send(c, s, w, after, final, arrives, ok).Some?
    ensures OwnersInv(Send(c, s, w, after, final, arrives, ok).value)
  {
    var s' := if arrives then s.(conns := s.conns[s.net[w].value := after]) else s;
    SameEndsKeepOwners(s, s');
    if !ok {
      BrokenKeepsOwners(c, s', w);
    } else {
      SameEndsKeepOwners(s', Send(c, s, w, after, final, arrives, ok).value);
    }
  }

  lemma WritesKeepOwners(c: Cfg, s: State, st: Step)
    requires OwnersInv(s) && (st.SendZero? || st.SendHead? || st.SendBody?) && DoClient(c, s, st).Some?
    ensures OwnersInv(DoClient(c, s, st).value)
  {
    var w := st.w;
    var b, k := s.pipe.movers[w].idx, TheConn(s, w);
    match st
    case SendZero(_, arrives, ok) =>
      SendKeepsOwners(c, s, w, k.(up := k.up + [ZeroNotice(c, b)], ph := Quiet, ack := Some(b)), true, arrives, ok);
    case SendHead(_, arrives, ok) =>
      SendKeepsOwners(c, s, w, k.(up := k.up + [DataHeader(c, b)], ph := HeadSent(b)), false, arrives, ok);
    case SendBody(_, arrives, ok) =>
      SendKeepsOwners(c, s, w, k.(up := k.up + [Body(ToSend(c, b))], ph := Quiet, ack := Some(b)), true, arrives, ok);
  }

  lemma AskKeepsOwners(c: Cfg, s: State, st: Step)
    requires OwnersInv(s) && st.Ask? && DoClient(c, s, st).Some?
    ensures OwnersInv(DoClient(c, s, st).value)
  {
    ConnectedKeepsOwners(s, st.w);
    var s' := Connected(s, st.w);
    var b, k := s'.pipe.movers[st.w].idx, TheConn(s', st.w);
    SendKeepsOwners(c, s', st.w, k.(up := k.up + [Request(c, b)], ph := Asked(b)), false, st.arrives, st.ok);
  }

  lemma EndingsKeepOwners(c: Cfg, s: State, st: Step)
    requires OwnersInv(s) && (st.Stop? || st.HearFail? || st.NoPayload?) && DoClient(c, s, st).Some?
    requires st.Stop? ==> st.w < |s.net| && (s.net[st.w].Some? ==> s.net[st.w].value < |s.conns|)
    ensures OwnersInv(DoClient(c, s, st).value)
  {
    var s' := DoClient(c, s, st).value;
    if st.Stop? {
      if s.net[st.w].Some? {
        HangupKeepsOwners(s, st.w);
        SameEndsKeepOwners(Hangup(s, st.w), s');
      } else {
        SameEndsKeepOwners(s, s');
      }
    } else if st.HearFail? || s.pipe.movers[st.w].tries + 1 < Pipeline.MAX_TRIES {
      BrokenKeepsOwners(c, s, st.w);
    } else {
      SameEndsKeepOwners(s, s');
    }
  }

  lemma SendDoneKeepsOwners(c: Cfg, s: State, st: Step)
    requires OwnersInv(s) && st.SendDone? && DoClient(c, s, st).Some?
    ensures OwnersInv(DoClient(c, s, st).value)
  {
    var s' := DoClient(c, s, st).value;
    forall k | 0 <= k < |s'.conns| && s'.conns[k].open && !s'.conns[k].ph.DoneSent?
      ensures Owned(s', k)
    {
      assert Owned(s, k);
      var v :| 0 <= v < |s.net| && s.net[v] == Some(k);
      assert s'.net[v] == Some(k);
    }
  }

  lemma HandlerKeepsEnds(c: Cfg, sh: Shared, k: Conn, broken: bool)
    requires HandlerStep(c, sh, k, broken).Some?
    ensures HandlerStep(c, sh, k, broken).value.1.open == k.open
    ensures HandlerStep(c, sh, k, broken).value.1.ph == k.ph
  {
  }

  lemma ServerKeepsEnds(c: Cfg, s: State, st: Step)
    requires DoServer(c, s, st).Some?
    ensures SameEnds(s, DoServer(c, s, st).value)
  {
    if st.Handle? {
      HandlerKeepsEnds(c, s.sh, s.conns[st.k], st.broken);
    }
  }

  lemma QuietStepsKeepEnds(c: Cfg, s: State, st: Step)
    requires (st.Inside? || st.DialFail? || st.Hear? || st.CloseDone? || st.Drop?) && DoClient(c, s, st).Some?
    ensures SameEnds(s, DoClient(c, s, st).value)
  {
  }

  lemma StepKeepsOwners(c: Cfg, s: State, st: Step)
    requires SysInv(c, s) && OwnersInv(s) && Do(c, s, st).Some?
    ensures OwnersInv(Do(c, s, st).value)
  {
    if !ClientStep(st) {
      ServerKeepsEnds(c, s, st);
      SameEndsKeepOwners(s, Do(c, s, st).value);
    } else if st.SendZero? || st.SendHead? || st.SendBody? {
      WritesKeepOwners(c, s, st);
    } else if st.Ask? {
      AskKeepsOwners(c, s, st);
    } else if st.Stop? || st.HearFail? || st.NoPayload? {
      if st.Stop? {
        assert WorkerInv(s, st.w);
      }
      EndingsKeepOwners(c, s, st);
    } else if st.SendDone? {
      SendDoneKeepsOwners(c, s, st);
    } else {
      QuietStepsKeepEnds(c, s, st);
      SameEndsKeepOwners(s, Do(c, s, st).value);
    }
  }

  lemma {:induction false} RunKeepsOwners(c: Cfg, s: State, steps: seq<Step>)
    requires SysInv(c, s) && OwnersInv(s) && Run(c, s, steps).Some?
    ensures OwnersInv(Run(c, s, steps).value)
    decreases steps
  {
    if steps != [] {
      StepKeeps(c, s, steps[0]);
      StepKeepsOwners(c, s, steps[0]);
      RunKeepsOwners(c, Do(c, s, steps[0]).value, steps[1..]);
    }
  }

  /** Every open connection but the DONE connection is some transfer worker's. */
  lemma OpenMeansOwned(c: Cfg, s: State)
    requires Hypotheses(c) && Reachable(c, s)
    ensures OwnersInv(s)
  {
    var steps :| Run(c, Init(c), steps) == Some(s);
    InitKeeps(c);
    RunKeepsOwners(c, Init(c), steps);
  }

  // ---- something can move ----

  /** The handler has read everything there is and needs more to go on. */
  predicate WantsMore(k: Conn) {
    k.up == [] && (k.h.Loop? || (k.h.Serve? && k.h.m.dataSize > 0))
  }

  /** Neither a fault nor a step without effect: nothing is dropped or refused, every write
      arrives and is reported so, the client's reads fail only on a dropped connection and the
      handler's only at the end of the stream, no connection is closed twice, and the shutdown
      timer fires only to exit. */
  predicate Useful(s: State, st: Step) {
    match st
    case Drop(_) => false
    case DialFail(_) => false
    case Ask(_, arrives, ok) => arrives && ok
    case SendZero(_, arrives, ok) => arrives && ok
    case SendHead(_, arrives, ok) => arrives && ok
    case SendBody(_, arrives, ok) => arrives && ok
    case HearFail(w) => OnConn(s, w) && TheConn(s, w).dropped
    case SendDone(arrives) => arrives
    case CloseDone(k) => k < |s.conns| && s.conns[k].open
    case Handle(k, broken) => broken ==> k < |s.conns| && WantsMore(s.conns[k])
    case Fire => s.main.active == 0
    case _ => true
  }

  ghost predicate Moves(c: Cfg, s: State, st: Step) {
    Useful(s, st) && Do(c, s, st).Some?
  }

  /** Every hash the handlers may wait for is there. */
  ghost predicate AllKnown(c: Cfg, sh: Shared) {
    forall i: nat :: Known(c, sh, i)
  }

  lemma MainMoves(c: Cfg, s: State, k: nat) returns (st: Step)
    requires s.main.exit.Serving? && k < |s.conns| && !s.conns[k].h.Gone?
    requires s.conns[k].h.Backlog? || Finished(s.conns[k])
    ensures Moves(c, s, st) && !st.SendDone?
  {
    return if s.conns[k].h.Backlog? then Accept(k) else if s.conns[k].h.Returned? then Check(k) else Leave(k);
  }

  /** A handler with something to do can do it. */
  lemma HandlerMoves(c: Cfg, s: State, k: nat) returns (st: Step)
    requires Hypotheses(c) && SharedInv(c, s.sh) && s.main.exit.Serving? && AllKnown(c, s.sh)
    requires k < |s.conns| && ConnInv(c, FactsOf(c, s.sh), s.conns[k]) && !s.conns[k].h.Gone?
    requires WantsMore(s.conns[k]) ==> !s.conns[k].open
    ensures Moves(c, s, st) && !st.SendDone?
  {
    if s.conns[k].h.Backlog? || Finished(s.conns[k]) {
      st := MainMoves(c, s, k);
    } else {
      var broken := WantsMore(s.conns[k]);
      HandlerStepDefined(c, s.sh, s.conns[k], broken);
      st := Handle(k, broken);
    }
  }

  lemma HandlerStepDefined(c: Cfg, sh: Shared, k: Conn, broken: bool)
    requires Hypotheses(c) && SharedInv(c, sh) && AllKnown(c, sh) && ConnInv(c, FactsOf(c, sh), k)
    requires !k.h.Backlog? && !Finished(k)
    requires broken == WantsMore(k) && (broken ==> !k.open)
    ensures HandlerStep(c, sh, k, broken).Some?
  {
    if (k.h.Loop? && !broken) || k.h.Truncate? {
      TasksAreOurs(c, FactsOf(c, sh), k);
    } else if k.h.Serve? {
      ServeDefined(c, sh, k, broken);
    }
  }

  lemma ServeDefined(c: Cfg, sh: Shared, k: Conn, broken: bool)
    requires Hypotheses(c) && SharedInv(c, sh) && AllKnown(c, sh) && ConnInv(c, FactsOf(c, sh), k) && k.h.Serve?
    requires broken == WantsMore(k) && (broken ==> !k.open)
    ensures HandlerStep(c, sh, k, broken).Some?
  {
    assert Known(c, sh, k.h.m.idx);
    if k.h.m.dataSize > 0 {
      ServedData(c, FactsOf(c, sh), k);
      HeaderInBounds(c, FactsOf(c, sh), k);
      if !broken {
        PayloadFits(c, k.ack.value);
      }
    }
  }

  /** A payload is never announced to be longer than a block. */
  lemma HeaderInBounds(c: Cfg, f: Facts, k: Conn)
    requires Hypotheses(c) && ConnInv(c, f, k) && k.h.Serve? && k.h.m.dataSize > 0
    ensures k.h.m.dataSize <= k.h.m.blockSize
  {
    assert Tasks(k)[0] == Head(k.h.m);
    if k.ack.Some? && k.up != [] {
      ServedData(c, f, k);
      PayloadFits(c, k.ack.value);
    } else if k.ph.HeadSent? {
      PayloadFits(c, k.ph.idx);
    }
  }

  lemma AskMoves(c: Cfg, s: State, w: nat)
    requires BusyWorker(s, w) && (s.net[w].Some? ==> OnConn(s, w) && TheConn(s, w).ph.Quiet?)
    ensures Moves(c, s, Ask(w, true, true))
  {
  }

  lemma HearMoves(c: Cfg, s: State, w: nat)
    requires OnConn(s, w) && TheConn(s, w).ph.Asked?
    ensures |TheConn(s, w).down| >= 16 ==> Moves(c, s, Hear(w))
    ensures TheConn(s, w).dropped ==> Moves(c, s, HearFail(w))
  {
  }

  lemma TransferMoves(c: Cfg, s: State, w: nat) returns (st: Step)
    requires OnConn(s, w) && (TheConn(s, w).ph.Answered? || TheConn(s, w).ph.HeadSent?)
    ensures Moves(c, s, st) && !st.SendDone?
  {
    var b := s.pipe.movers[w].idx;
    if TheConn(s, w).ph.HeadSent? {
      return SendBody(w, true, true);
    } else if Packed(c, b).isZero {
      return SendZero(w, true, true);
    } else if ToSend(c, b) == [] {
      return NoPayload(w);
    } else {
      return SendHead(w, true, true);
    }
  }

  /** A transfer worker in the middle of a block can go on, or its handler can. */
  lemma WorkerMoves(c: Cfg, s: State, w: nat) returns (st: Step)
    requires SysInv(c, s) && s.main.exit.Serving? && AllKnown(c, s.sh) && BusyWorker(s, w)
    ensures Moves(c, s, st) && !st.SendDone?
  {
    assert WorkerInv(s, w);
    if s.net[w].None? || TheConn(s, w).ph.Quiet? {
      AskMoves(c, s, w);
      return Ask(w, true, true);
    }
    AtWork(c, FactsOf(c, s.sh), s, w);
    var k := TheConn(s, w);
    if k.ph.Asked? {
      HearMoves(c, s, w);
      AskedIsPending(c, FactsOf(c, s.sh), k);
      if k.down != [] {
        st := Hear(w);
      } else if Finished(k) {
        st := HearFail(w);
      } else {
        st := HandlerMoves(c, s, s.net[w].value);
      }
    } else {
      st := TransferMoves(c, s, w);
    }
  }

  /** A client that waits for an answer has been answered, or has been cut off, or has given
      the handler something to do. */
  lemma AskedIsPending(c: Cfg, f: Facts, k: Conn)
    requires Hypotheses(c) && ConnInv(c, f, k) && k.ph.Asked? && k.open
    ensures k.down == [] || |k.down| == 16
    ensures k.down == [] && Finished(k) ==> k.dropped
    ensures k.down == [] && !Finished(k) ==> !WantsMore(k)
  {
    if !Finished(k) && k.down == [] && k.h.Serve? && k.h.m.dataSize > 0 {
      ServedData(c, f, k);
    }
  }

  // ---- the only way to get stuck ----

  ghost predicate PoolDone(sh: Shared) {
    forall i :: i in sh.jobs ==> sh.jobs[i].Stored?
  }

  /** The client has finished, every handler has been counted out, and no timer is running. */
  ghost predicate Hanging(s: State) {
    && s.main.exit.Serving? && PoolDone(s.sh)
    && Pipeline.AllStopped(s.pipe) && s.doneSent
    && (forall k :: 0 <= k < |s.conns| ==> s.conns[k].h.Gone? && !s.conns[k].open)
    && !s.main.armed && !s.main.idleArmed
  }

  lemma PoolMoves(c: Cfg, s: State) returns (st: Step)
    requires s.main.exit.Serving? && 0 < c.srvWorkers && !PoolDone(s.sh) && (forall i :: i in s.sh.jobs ==> i >= 0)
    ensures Moves(c, s, st) && !st.SendDone?
  {
    var i: nat :| i in s.sh.jobs && !s.sh.jobs[i].Stored?;
    return if s.sh.jobs[i].Todo? then JobRead(i) else JobStore(i);
  }

  lemma PipelineMoves(c: Cfg, s: State) returns (st: Step)
    requires SysInv(c, s) && s.main.exit.Serving? && AllKnown(c, s.sh) && !Pipeline.AllStopped(s.pipe)
    ensures Moves(c, s, st) && !st.SendDone?
  {
    var p := Pipeline.NoDeadlock(Pipe(c), s.pipe);
    if p.Succeed? || p.Fail? {
      st := WorkerMoves(c, s, p.w);
    } else if p.Stop? {
      st := Stop(p.w);
    } else {
      st := Inside(p);
    }
  }

  /** With all workers stopped, an open connection is the DONE connection. */
  lemma OnlyDoneIsOpen(c: Cfg, s: State, k: nat)
    requires Around(c, FactsOf(c, s.sh), s) && OwnersInv(s) && Pipeline.AllStopped(s.pipe)
    requires k < |s.conns| && s.conns[k].open
    ensures s.conns[k].ph.DoneSent?
  {
    StoppedHoldNothing(s);
    assert !Owned(s, k);
  }

  lemma StoppedHoldNothing(s: State)
    requires NetInv(s) && Pipeline.AllStopped(s.pipe)
    ensures forall w :: 0 <= w < |s.net| ==> s.net[w].None?
  {
    forall w | 0 <= w < |s.net|
      ensures s.net[w].None?
    {
      assert WorkerInv(s, w);
    }
  }

  lemma LastHandlerMoves(c: Cfg, s: State, k: nat) returns (st: Step)
    requires SysInv(c, s) && OwnersInv(s) && s.main.exit.Serving? && AllKnown(c, s.sh)
    requires Pipeline.AllStopped(s.pipe) && k < |s.conns| && (s.conns[k].open || !s.conns[k].h.Gone?)
    ensures Moves(c, s, st) && !st.SendDone?
  {
    if s.conns[k].open {
      OnlyDoneIsOpen(c, s, k);
      st := CloseDone(k);
    } else {
      st := HandlerMoves(c, s, k);
    }
  }

  lemma {:induction false} NobodyLive(conns: seq<Conn>)
    requires forall k :: 0 <= k < |conns| ==> conns[k].h.Gone?
    ensures LiveCount(conns) == 0
  {
    if conns != [] {
      assert forall k :: 0 <= k < |conns[1..]| ==> conns[1..][k] == conns[k + 1];
      NobodyLive(conns[1..]);
    }
  }

  lemma TimerMoves(c: Cfg, s: State)
    requires SysInv(c, s) && s.main.exit.Serving? && s.main.armed
    requires forall k :: 0 <= k < |s.conns| ==> s.conns[k].h.Gone?
    ensures Moves(c, s, Fire)
  {
    NobodyLive(s.conns);
  }

  lemma LastMoves(c: Cfg, s: State) returns (st: Step)
    requires SysInv(c, s) && OwnersInv(s) && s.main.exit.Serving? && AllKnown(c, s.sh)
    requires Pipeline.AllStopped(s.pipe) && PoolDone(s.sh) && !Hanging(s)
    ensures Moves(c, s, st)
  {
    if !s.doneSent {
      return SendDone(true);
    }
    if k :| 0 <= k < |s.conns| && (s.conns[k].open || !s.conns[k].h.Gone?) {
      st := LastHandlerMoves(c, s, k);
    } else {
      TimerMoves(c, s);
      st := Fire;
    }
  }

  lemma MoveExists(c: Cfg, s: State) returns (st: Step)
    requires SysInv(c, s) && OwnersInv(s) && CanEnd(c) && s.main.exit.Serving? && !Hanging(s)
    ensures Moves(c, s, st)
  {
    if !PoolDone(s.sh) {
      st := PoolMoves(c, s);
    } else {
      assert AllKnown(c, s.sh);
      if Pipeline.AllStopped(s.pipe) {
        st := LastMoves(c, s);
      } else {
        st := PipelineMoves(c, s);
      }
    }
  }

  /** When the pool hashes every block, no upload is ever deadlocked: in each reachable state the
      server has exited, or some goroutine can take a step without any fault, or everything is
      over and no timer is left to end the server. */
  lemma NeverStuck(c: Cfg, s: State) returns (st: Step)
    requires Hypotheses(c) && Reachable(c, s) && CanEnd(c) && s.main.exit.Serving? && !Hanging(s)
    ensures Moves(c, s, st)
  {
    ReachableInv(c, s);
    OpenMeansOwned(c, s);
    st := MoveExists(c, s);
  }

  // ---- a server that hangs, hangs for ever ----

  lemma PipelineIsOver(p: Pipeline.Params, s: Pipeline.State, st: Pipeline.Step)
    requires 0 < p.workers && Pipeline.Inv(p, s) && Pipeline.AllStopped(s)
    ensures Pipeline.Do(p, s, st).None?
  {
    assert s.movers[0].Stopped?;
    assert s.hashers[0].Ended?;
  }

  lemma ClientIsOver(c: Cfg, s: State, st: Step)
    requires SysInv(c, s) && 0 < c.workers && Hanging(s) && ClientStep(st) && DoClient(c, s, st).Some?
    ensures (st.CloseDone? || st.Drop?) && Hanging(DoClient(c, s, st).value) && !Useful(s, st)
  {
    if st.Inside? {
      PipelineIsOver(Pipe(c), s.pipe, st.p);
    } else if st.Stop? {
      PipelineIsOver(Pipe(c), s.pipe, Pipeline.Stop(st.w));
    }
  }

  lemma ServerIsOver(c: Cfg, s: State, st: Step)
    requires Hanging(s)
    ensures DoServer(c, s, st).None?
  {
  }

  /** From a state where it hangs the server never exits, and nothing useful ever happens. */
  lemma {:induction false} HangsForEver(c: Cfg, s: State, steps: seq<Step>)
    requires SysInv(c, s) && 0 < c.workers && Hanging(s) && Run(c, s, steps).Some?
    ensures Hanging(Run(c, s, steps).value)
    ensures forall st :: !Moves(c, Run(c, s, steps).value, st)
    decreases steps
  {
    if steps == [] {
      forall st
        ensures !Moves(c, s, st)
      {
        if Do(c, s, st).Some? && ClientStep(st) {
          ClientIsOver(c, s, st);
        } else if Do(c, s, st).Some? {
          ServerIsOver(c, s, st);
        }
      }
    } else {
      StepKeeps(c, s, steps[0]);
      if ClientStep(steps[0]) {
        ClientIsOver(c, s, steps[0]);
      } else {
        ServerIsOver(c, s, steps[0]);
      }
      HangsForEver(c, Do(c, s, steps[0]).value, steps[1..]);
    }
  }

  /** So a running server is stuck exactly when it hangs. */
  lemma StuckIffHanging(c: Cfg, s: State)
    requires Hypotheses(c) && 0 < c.workers && Reachable(c, s) && CanEnd(c) && s.main.exit.Serving?
    ensures (forall st :: !Moves(c, s, st)) <==> Hanging(s)
  {
    if Hanging(s) {
      ReachableInv(c, s);
      HangsForEver(c, s, []);
    } else {
      var st := NeverStuck(c, s);
    }
  }
}
