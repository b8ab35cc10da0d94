/** The invariant of the whole system, kept by every step, and what it means for every run. */
module System {
  import opened Basics
  import opened Wire
  import opened Protocol
  import opened SharedMemory
  import opened Handlers
  import opened Clients
  import Pipeline

  ghost predicate ConnsInv(c: Cfg, f: Facts, s: State) {
    forall k :: 0 <= k < |s.conns| ==> ConnInv(c, f, s.conns[k])
  }

  // ---- transfer workers and their connections ----

  /** A worker's connection is open, and where the client is on it matches the worker's block. */
  ghost predicate WorkerInv(s: State, w: nat)
    requires w < |s.net| && w < |s.pipe.movers|
  {
    s.net[w].Some? ==>
      && s.net[w].value < |s.conns|
      && s.conns[s.net[w].value].open
      && match s.pipe.movers[w]
         case Ready => s.conns[s.net[w].value].ph.Quiet?
         case Busy(b, _) => PhaseAt(s.conns[s.net[w].value].ph, b)
         case Stopped => false
  }

  ghost predicate PhaseAt(ph: Phase, b: nat) {
    ph == Quiet || ph == Asked(b) || ph == Answered(b) || ph == HeadSent(b)
  }

  ghost predicate NetInv(s: State) {
    && |s.net| == |s.pipe.movers|
    && (forall w :: 0 <= w < |s.net| ==> WorkerInv(s, w))
    && (forall v, w :: 0 <= v < |s.net| && 0 <= w < |s.net| && v != w && s.net[v].Some? ==> s.net[v] != s.net[w])
  }

  // ---- delivery ----

  /** Block `b` was completed on a connection on which it is the last one sent. */
  ghost predicate OnItsWay(s: State, b: nat) {
    b in s.via && s.via[b] < |s.conns| && s.conns[s.via[b]].ack == Some(b)
  }

  /** Block `b` is in place, or its transfer is the last one sent on its connection. */
  ghost predicate Delivered(f: Facts, s: State, b: nat) {
    b in f.synced || OnItsWay(s, b)
  }

  ghost predicate DeliveryInv(f: Facts, s: State) {
    && (forall b :: b in s.pipe.ok ==> Delivered(f, s, b))
    && (forall b :: b in s.via ==> b in s.pipe.ok)
  }

  // ---- the main loop ----

  ghost predicate IsLive(k: Conn) {
    !k.h.Backlog? && !k.h.Gone?
  }

  /** The number of spawned, unfinished handlers. */
  ghost function LiveCount(conns: seq<Conn>): nat {
    if conns == [] then 0 else (if IsLive(conns[0]) then 1 else 0) + LiveCount(conns[1..])
  }

  ghost predicate DoneInv(f: Facts, s: State) {
    && (s.doneSent ==> Pipeline.AllStopped(s.pipe))
    && (forall k :: 0 <= k < |s.conns| && s.conns[k].ph.DoneSent? ==> s.doneSent)
    && (forall k :: 0 <= k < |s.conns| && s.conns[k].h.Closing? ==> s.conns[k].ph.DoneSent? && 0 in f.known)
    && (s.main.done ==> s.doneSent && 0 in f.known && f.resized)
  }

  ghost predicate TimerInv(s: State) {
    && (s.main.armed || s.main.exit.TimerExit? ==> s.main.done)
    && !s.main.idleArmed && !s.main.exit.IdleExit?
    && (s.main.exit.TimerExit? ==> s.main.active == 0)
  }

  ghost predicate MainInv(f: Facts, s: State) {
    s.main.active == LiveCount(s.conns) && DoneInv(f, s) && TimerInv(s)
  }

  /** Everything but the shared memory, relying of it on the facts `f` only. */
  ghost predicate Around(c: Cfg, f: Facts, s: State) {
    && Pipeline.Inv(Pipe(c), s.pipe)
    && ConnsInv(c, f, s)
    && NetInv(s)
    && DeliveryInv(f, s)
    && MainInv(f, s)
  }

  ghost predicate SysInv(c: Cfg, s: State) {
    Hypotheses(c) && SharedInv(c, s.sh) && Around(c, FactsOf(c, s.sh), s)
  }

  // ---- counting ----

  lemma {:induction false} LiveUpdate(conns: seq<Conn>, k: nat, conn: Conn)
    requires k < |conns|
    ensures LiveCount(conns[k := conn])
      == LiveCount(conns) - (if IsLive(conns[k]) then 1 else 0) + (if IsLive(conn) then 1 else 0)
  {
    if k == 0 {
      assert conns[k := conn][1..] == conns[1..];
    } else {
      LiveUpdate(conns[1..], k - 1, conn);
      assert conns[k := conn][1..] == conns[1..][k - 1 := conn];
    }
  }

  lemma {:induction false} LiveAppend(conns: seq<Conn>, conn: Conn)
    ensures LiveCount(conns + [conn]) == LiveCount(conns) + if IsLive(conn) then 1 else 0
  {
    if conns != [] {
      LiveAppend(conns[1..], conn);
      assert (conns + [conn])[1..] == conns[1..] + [conn];
    } else {
      assert conns + [conn] == [conn];
    }
  }

  lemma LiveCounts(conns: seq<Conn>, k: nat)
    requires k < |conns| && IsLive(conns[k])
    ensures LiveCount(conns) >= 1
  {
    LiveUpdate(conns, k, conns[k].(h := Gone));
  }

  // ---- the client's steps, as compositions of three moves ----

  /** No acknowledgement of a block not yet in place is lost. */
  ghost predicate AcksKept(f: Facts, s: State, s': State) {
    && |s.conns| <= |s'.conns|
    && (forall k :: 0 <= k < |s.conns| && s.conns[k].ack.Some? && s.conns[k].ack.value !in f.synced ==>
          s'.conns[k].ack == s.conns[k].ack)
  }

  lemma AcksKeepDelivery(f: Facts, s: State, s': State)
    requires DeliveryInv(f, s) && AcksKept(f, s, s') && s'.pipe.ok == s.pipe.ok && s'.via == s.via
    ensures DeliveryInv(f, s')
  {
    forall b | b in s'.pipe.ok
      ensures Delivered(f, s', b)
    {
      assert Delivered(f, s, b);
    }
  }

  /** The client puts something on its connection or takes a reply off it. */
  ghost predicate ClientMove(c: Cfg, f: Facts, s: State, w: nat, after: Conn)
    requires OnConn(s, w)
  {
    var k := TheConn(s, w);
    && after.h == k.h && after.open == k.open && !after.ph.DoneSent?
    && PhaseAt(after.ph, s.pipe.movers[w].idx)
    && ConnInv(c, f, after)
    && (k.ack.Some? && after.ack != k.ack ==> k.ack.value in f.synced)
  }

  lemma MoveKeeps(c: Cfg, f: Facts, s: State, w: nat, after: Conn)
    requires Around(c, f, s) && OnConn(s, w) && ClientMove(c, f, s, w, after)
    ensures Around(c, f, s.(conns := s.conns[s.net[w].value := after]))
  {
    var i := s.net[w].value;
    var s' := s.(conns := s.conns[i := after]);
    LiveUpdate(s.conns, i, after);
    AcksKeepDelivery(f, s, s');
    forall v | 0 <= v < |s'.net|
      ensures WorkerInv(s', v)
    {
      assert WorkerInv(s, v);
    }
  }

  /** A worker's connection closed and forgotten. */
  ghost function Hangup(s: State, w: nat): State
    requires w < |s.net| && s.net[w].Some? && s.net[w].value < |s.conns|
  {
    var i := s.net[w].value;
    s.(conns := s.conns[i := s.conns[i].(open := false)], net := s.net[w := None])
  }

  lemma HangupKeeps(c: Cfg, f: Facts, s: State, w: nat)
    requires Around(c, f, s) && w < |s.net| && s.net[w].Some? && s.net[w].value < |s.conns|
    ensures Around(c, f, Hangup(s, w))
  {
    var i := s.net[w].value;
    var s' := Hangup(s, w);
    LiveUpdate(s.conns, i, s'.conns[i]);
    CloseKeeps(c, f, s.conns[i]);
    AcksKeepDelivery(f, s, s');
    forall v | 0 <= v < |s'.net|
      ensures WorkerInv(s', v)
    {
      assert WorkerInv(s, v);
    }
  }

  /** An attempt ends when its connection is quiet or gone; a good end needs the block in
      place or on its way. */
  lemma EndKeeps(c: Cfg, f: Facts, s: State, w: nat, good: bool)
    requires Around(c, f, s) && BusyWorker(s, w)
    requires s.net[w].Some? ==> s.net[w].value < |s.conns| && s.conns[s.net[w].value].ph.Quiet?
    requires good ==> s.net[w].Some?
    requires good ==> s.pipe.movers[w].idx in f.synced || s.conns[s.net[w].value].ack == Some(s.pipe.movers[w].idx)
    ensures Around(c, f, EndAttempt(c, s, w, good))
  {
    var st := if good then Pipeline.Succeed(w) else Pipeline.Fail(w);
    Pipeline.StepKeepsInv(Pipe(c), s.pipe, st);
    var s' := EndAttempt(c, s, w, good);
    forall v | 0 <= v < |s'.net|
      ensures WorkerInv(s', v)
    {
      assert WorkerInv(s, v);
    }
    Pipeline.BusyIsOpen(Pipe(c), s.pipe, w);
    forall b | b in s'.pipe.ok
      ensures Delivered(f, s', b)
    {
      assert b in s.pipe.ok ==> Delivered(f, s, b);
    }
  }

  lemma ConnectedKeeps(c: Cfg, f: Facts, s: State, w: nat)
    requires Around(c, f, s) && BusyWorker(s, w)
    ensures Around(c, f, Connected(s, w)) && OnConn(Connected(s, w), w)
  {
    assert WorkerInv(s, w);
    if s.net[w].None? {
      var s' := Connected(s, w);
      assert forall v :: 0 <= v < |s.net| && WorkerInv(s, v) && s.net[v].Some? ==> s.net[v].value < |s.conns|;
      FreshKeeps(c, f, true);
      LiveAppend(s.conns, FreshConn());
      forall v | 0 <= v < |s'.net|
        ensures WorkerInv(s', v)
      {
        assert WorkerInv(s, v);
      }
      AcksKeepDelivery(f, s, s');
    }
  }

  lemma BrokenKeeps(c: Cfg, f: Facts, s: State, w: nat)
    requires Around(c, f, s) && OnConn(s, w)
    ensures Around(c, f, Broken(c, s, w))
  {
    HangupKeeps(c, f, s, w);
    EndKeeps(c, f, Hangup(s, w), w, false);
  }

  lemma SendKeeps(c: Cfg, f: Facts, s: State, w: nat, after: Conn, final: bool, arrives: bool, ok: bool)
    requires Around(c, f, s) && OnConn(s, w) && ClientMove(c, f, s, w, after)
    requires final ==> after.ph.Quiet? && after.ack == Some(s.pipe.movers[w].idx)
    requires Send(c, s, w, after, final, arrives, ok).Some?
    ensures Around(c, f, Send(c, s, w, after, final, arrives, ok).value)
  {
    var s' := if arrives then s.(conns := s.conns[s.net[w].value := after]) else s;
    MoveKeeps(c, f, s, w, after);
    if !ok {
      BrokenKeeps(c, f, s', w);
    } else if final {
      assert s'.conns[s.net[w].value].ack == Some(s.pipe.movers[w].idx);
      EndKeeps(c, f, s', w, true);
    }
  }

  /** The worker's block and what its connection allows. */
  lemma AtWork(c: Cfg, f: Facts, s: State, w: nat)
    requires Around(c, f, s) && OnConn(s, w)
    ensures InRange(c, s.pipe.movers[w].idx)
    ensures ConnInv(c, f, TheConn(s, w)) && TheConn(s, w).open && PhaseAt(TheConn(s, w).ph, s.pipe.movers[w].idx)
  {
    Pipeline.BusyIsOpen(Pipe(c), s.pipe, w);
    assert WorkerInv(s, w);
  }

  lemma AskStep(c: Cfg, f: Facts, s: State, st: Step)
    requires Around(c, f, s) && st.Ask? && DoClient(c, s, st).Some?
    ensures Around(c, f, DoClient(c, s, st).value)
  {
    var w := st.w;
    ConnectedKeeps(c, f, s, w);
    var s' := Connected(s, w);
    AtWork(c, f, s', w);
    var b, k := s'.pipe.movers[w].idx, TheConn(s', w);
    AskKeeps(c, f, k, b);
    SendKeeps(c, f, s', w, k.(up := k.up + [Request(c, b)], ph := Asked(b)), false, st.arrives, st.ok);
  }

  lemma HearStep(c: Cfg, f: Facts, s: State, st: Step)
    requires Around(c, f, s) && st.Hear? && DoClient(c, s, st).Some?
    ensures TheConn(s, st.w).ack.Some? ==> TheConn(s, st.w).ack.value in f.synced
    ensures Around(c, f, DoClient(c, s, st).value)
  {
    var w := st.w;
    AtWork(c, f, s, w);
    var b, k := s.pipe.movers[w].idx, TheConn(s, w);
    HearKeeps(c, f, k);
    var same := k.down[..16] == Packed(c, b).hash;
    var k' := k.(down := k.down[16..], ack := None, ph := if same then Quiet else Answered(b));
    MoveKeeps(c, f, s, w, k');
    if same {
      EndKeeps(c, f, s.(conns := s.conns[s.net[w].value := k']), w, true);
    }
  }

  lemma SendZeroStep(c: Cfg, f: Facts, s: State, st: Step)
    requires Around(c, f, s) && st.SendZero? && DoClient(c, s, st).Some?
    ensures Around(c, f, DoClient(c, s, st).value)
  {
    var w := st.w;
    AtWork(c, f, s, w);
    var b, k := s.pipe.movers[w].idx, TheConn(s, w);
    SendZeroKeeps(c, f, k);
    SendKeeps(c, f, s, w, k.(up := k.up + [ZeroNotice(c, b)], ph := Quiet, ack := Some(b)), true, st.arrives, st.ok);
  }

  lemma SendHeadStep(c: Cfg, f: Facts, s: State, st: Step)
    requires Around(c, f, s) && st.SendHead? && DoClient(c, s, st).Some?
    ensures Around(c, f, DoClient(c, s, st).value)
  {
    var w := st.w;
    AtWork(c, f, s, w);
    var b, k := s.pipe.movers[w].idx, TheConn(s, w);
    SendHeadKeeps(c, f, k);
    SendKeeps(c, f, s, w, k.(up := k.up + [DataHeader(c, b)], ph := HeadSent(b)), false, st.arrives, st.ok);
  }

  lemma SendBodyStep(c: Cfg, f: Facts, s: State, st: Step)
    requires Around(c, f, s) && st.SendBody? && DoClient(c, s, st).Some?
    ensures Around(c, f, DoClient(c, s, st).value)
  {
    var w := st.w;
    AtWork(c, f, s, w);
    var b, k := s.pipe.movers[w].idx, TheConn(s, w);
    SendBodyKeeps(c, f, k);
    SendKeeps(c, f, s, w, k.(up := k.up + [Body(ToSend(c, b))], ph := Quiet, ack := Some(b)), true, st.arrives, st.ok);
  }

  lemma NoPayloadStep(c: Cfg, f: Facts, s: State, st: Step)
    requires Around(c, f, s) && st.NoPayload? && DoClient(c, s, st).Some?
    ensures Around(c, f, DoClient(c, s, st).value)
  {
    var w := st.w;
    AtWork(c, f, s, w);
    if s.pipe.movers[w].tries + 1 < Pipeline.MAX_TRIES {
      BrokenKeeps(c, f, s, w);
    } else {
      var k := TheConn(s, w);
      GiveUpKeeps(c, f, k);
      MoveKeeps(c, f, s, w, k.(ph := Quiet));
      EndKeeps(c, f, s.(conns := s.conns[s.net[w].value := k.(ph := Quiet)]), w, false);
    }
  }

  /** A step of the pipeline that no transfer worker's attempt is involved in. */
  lemma PipeStep(c: Cfg, f: Facts, s: State, p: Pipeline.Step)
    requires Around(c, f, s) && Pipeline.Do(Pipe(c), s.pipe, p).Some?
    requires !p.Succeed? && !p.Fail? && (p.Stop? ==> s.net[p.w].None?)
    ensures Around(c, f, s.(pipe := Pipeline.Do(Pipe(c), s.pipe, p).value))
  {
    Pipeline.StepKeepsInv(Pipe(c), s.pipe, p);
    var s' := s.(pipe := Pipeline.Do(Pipe(c), s.pipe, p).value);
    forall v | 0 <= v < |s'.net|
      ensures WorkerInv(s', v)
    {
      assert WorkerInv(s, v);
    }
    AcksKeepDelivery(f, s, s');
  }

  lemma StopStep(c: Cfg, f: Facts, s: State, st: Step)
    requires Around(c, f, s) && st.Stop? && DoClient(c, s, st).Some?
    ensures Around(c, f, DoClient(c, s, st).value)
  {
    var w := st.w;
    assert WorkerInv(s, w);
    if s.net[w].Some? {
      HangupKeeps(c, f, s, w);
      PipeStep(c, f, Hangup(s, w), Pipeline.Stop(w));
    } else {
      PipeStep(c, f, s, Pipeline.Stop(w));
      assert s.net[w := None] == s.net;
    }
  }

  /** A connection changed without its worker's doing: nothing the worker relies on may change. */
  ghost predicate Untouched(k: Conn, k': Conn) {
    && k'.ack == k.ack && k'.ph == k.ph
    && (k'.open == k.open || (k.ph.DoneSent? && !k'.open))
  }

  lemma ConnChangeKeeps(c: Cfg, f: Facts, s: State, i: nat, k': Conn, main: MainLoop)
    requires Around(c, f, s) && i < |s.conns| && Untouched(s.conns[i], k') && ConnInv(c, f, k')
    requires var s' := s.(conns := s.conns[i := k'], main := main);
      main.active == LiveCount(s'.conns) && TimerInv(s')
    requires main.done ==> s.main.done || (s.doneSent && 0 in f.known && f.resized)
    requires k'.h.Closing? ==> k'.ph.DoneSent? && 0 in f.known
    ensures Around(c, f, s.(conns := s.conns[i := k'], main := main))
  {
    var s' := s.(conns := s.conns[i := k'], main := main);
    AcksKeepDelivery(f, s, s');
    forall v | 0 <= v < |s'.net|
      ensures WorkerInv(s', v)
    {
      assert WorkerInv(s, v);
    }
  }

  lemma DoneAndNetworkStep(c: Cfg, f: Facts, s: State, st: Step)
    requires Around(c, f, s) && (st.CloseDone? || st.Drop?) && DoClient(c, s, st).Some?
    ensures Around(c, f, DoClient(c, s, st).value)
  {
    var k := s.conns[st.k];
    CloseKeeps(c, f, k);
    DropKeeps(c, f, k);
    var k' := if st.Drop? then k.(dropped := true) else k.(open := false);
    LiveUpdate(s.conns, st.k, k');
    ConnChangeKeeps(c, f, s, st.k, k', s.main);
  }

  lemma SendDoneStep(c: Cfg, f: Facts, s: State, st: Step)
    requires Around(c, f, s) && st.SendDone? && DoClient(c, s, st).Some?
    ensures Around(c, f, DoClient(c, s, st).value)
  {
    var s' := DoClient(c, s, st).value;
    FreshKeeps(c, f, st.arrives);
    LiveAppend(s.conns, s'.conns[|s.conns|]);
    AcksKeepDelivery(f, s, s');
    forall v | 0 <= v < |s'.net|
      ensures WorkerInv(s', v)
    {
      assert WorkerInv(s, v);
    }
  }

  lemma FailureStep(c: Cfg, f: Facts, s: State, st: Step)
    requires Around(c, f, s) && (st.DialFail? || st.HearFail?) && DoClient(c, s, st).Some?
    ensures Around(c, f, DoClient(c, s, st).value)
  {
    if st.DialFail? {
      EndKeeps(c, f, s, st.w, false);
    } else {
      BrokenKeeps(c, f, s, st.w);
    }
  }

  lemma ClientStepKeeps(c: Cfg, f: Facts, s: State, st: Step)
    requires Around(c, f, s) && ClientStep(st) && DoClient(c, s, st).Some?
    ensures Around(c, f, DoClient(c, s, st).value)
  {
    match st
    case Inside(p) => PipeStep(c, f, s, p);
    case Stop(_) => StopStep(c, f, s, st);
    case DialFail(_) => FailureStep(c, f, s, st);
    case Ask(_, _, _) => AskStep(c, f, s, st);
    case Hear(_) => HearStep(c, f, s, st);
    case HearFail(_) => FailureStep(c, f, s, st);
    case SendZero(_, _, _) => SendZeroStep(c, f, s, st);
    case SendHead(_, _, _) => SendHeadStep(c, f, s, st);
    case SendBody(_, _, _) => SendBodyStep(c, f, s, st);
    case NoPayload(_) => NoPayloadStep(c, f, s, st);
    case SendDone(_) => SendDoneStep(c, f, s, st);
    case CloseDone(_) => DoneAndNetworkStep(c, f, s, st);
    case Drop(_) => DoneAndNetworkStep(c, f, s, st);
  }

  // ---- the server's steps ----

  /** Everything around the shared memory stays as good when the facts grow. */
  lemma AroundRelies(c: Cfg, f: Facts, f': Facts, s: State, sh: Shared)
    requires Around(c, f, s) && f.Within(f')
    ensures Around(c, f', s.(sh := sh))
  {
    var s' := s.(sh := sh);
    forall k | 0 <= k < |s.conns|
      ensures ConnInv(c, f', s.conns[k])
    {
      ConnInvRelies(c, f, f', s.conns[k]);
    }
    forall b | b in s.pipe.ok
      ensures Delivered(f', s', b)
    {
      assert Delivered(f, s, b);
    }
    forall v | 0 <= v < |s.net|
      ensures WorkerInv(s', v)
    {
      assert WorkerInv(s, v);
    }
  }

  lemma AcceptStep(c: Cfg, f: Facts, s: State, st: Step)
    requires Around(c, f, s) && s.main.exit.Serving? && st.Accept? && DoServer(c, s, st).Some?
    ensures Around(c, f, DoServer(c, s, st).value)
  {
    var k := s.conns[st.k];
    AcceptKeeps(c, f, k);
    LiveUpdate(s.conns, st.k, k.(h := Loop));
    ConnChangeKeeps(c, f, s, st.k, k.(h := Loop), DoServer(c, s, st).value.main);
  }

  /** The idle timer is never armed: a handler testing the count is itself still counted. */
  lemma CheckStep(c: Cfg, f: Facts, s: State, st: Step)
    requires Around(c, f, s) && st.Check? && DoServer(c, s, st).Some?
    ensures s.main.active >= 1
    ensures Around(c, f, DoServer(c, s, st).value)
  {
    var k := s.conns[st.k];
    FinishedKeeps(c, f, k, Checked);
    LiveUpdate(s.conns, st.k, k.(h := Checked));
    LiveCounts(s.conns, st.k);
    ConnChangeKeeps(c, f, s, st.k, k.(h := Checked), DoServer(c, s, st).value.main);
  }

  lemma LeaveStep(c: Cfg, f: Facts, s: State, st: Step)
    requires Around(c, f, s) && s.main.exit.Serving? && st.Leave? && DoServer(c, s, st).Some?
    ensures Around(c, f, DoServer(c, s, st).value)
  {
    var k := s.conns[st.k];
    FinishedKeeps(c, f, k, Gone);
    LiveUpdate(s.conns, st.k, k.(h := Gone));
    ConnChangeKeeps(c, f, s, st.k, k.(h := Gone), DoServer(c, s, st).value.main);
  }

  lemma TimerStep(c: Cfg, f: Facts, s: State, st: Step)
    requires Around(c, f, s) && (st.Fire? || st.IdleFire?) && DoServer(c, s, st).Some?
    ensures Around(c, f, DoServer(c, s, st).value)
  {
    var s' := DoServer(c, s, st).value;
    forall v | 0 <= v < |s.net|
      ensures WorkerInv(s', v)
    {
      assert WorkerInv(s, v);
    }
    AcksKeepDelivery(f, s, s');
  }

  lemma ClosingNeedsHash(c: Cfg, sh: Shared, k: Conn, broken: bool)
    requires Ready(c, sh, k, broken) && HandlerStep(c, sh, k, broken).value.1.h.Closing?
    ensures k.ph.DoneSent? && Known(c, sh, 0)
  {
    EveryHandlerStepKept(c, sh, k, broken);
    if k.h.Mark? {
      MarkedKeeps(c, FactsOf(c, sh), k);
    } else {
      if k.h.m.dataSize > 0 {
        ServedData(c, FactsOf(c, sh), k);
      } else {
        ServedRequest(c, FactsOf(c, sh), k);
      }
    }
  }

  ghost function MainAfter(main: MainLoop, k: Conn): MainLoop {
    if k.h.Closing? then main.(done := true, armed := true) else main
  }

  lemma HandlerLeavesRest(c: Cfg, f: Facts, s: State, i: nat, k': Conn)
    requires Around(c, f, s) && s.main.exit.Serving? && i < |s.conns| && IsLive(s.conns[i])
    requires ConnInv(c, f, k') && Steady(s.conns[i], k')
    requires k'.h.Closing? ==> 0 in f.known
    ensures Around(c, f, s.(conns := s.conns[i := k'], main := MainAfter(s.main, s.conns[i])))
  {
    LiveUpdate(s.conns, i, k');
    ConnChangeKeeps(c, f, s, i, k', MainAfter(s.main, s.conns[i]));
  }

  lemma HandleShape(c: Cfg, s: State, i: nat, broken: bool)
    requires i < |s.conns| && HandlerStep(c, s.sh, s.conns[i], broken).Some?
    ensures IsLive(s.conns[i])
    ensures var (sh', k') := HandlerStep(c, s.sh, s.conns[i], broken).value;
      DoServer(c, s, Handle(i, broken)) ==
        Some(s.(sh := sh').(conns := s.conns[i := k'], main := MainAfter(s.main, s.conns[i])))
  {
  }

  lemma HandleStep(c: Cfg, s: State, st: Step)
    requires SysInv(c, s) && s.main.exit.Serving? && st.Handle? && DoServer(c, s, st).Some?
    ensures SysInv(c, DoServer(c, s, st).value)
    ensures Grows(c, s.sh, DoServer(c, s, st).value.sh)
  {
    var k := s.conns[st.k];
    HandleShape(c, s, st.k, st.broken);
    var (sh', k') := HandlerStep(c, s.sh, k, st.broken).value;
    var f, f' := FactsOf(c, s.sh), FactsOf(c, sh');
    EveryHandlerStepKept(c, s.sh, k, st.broken);
    GrowsWithin(c, s.sh, sh');
    AroundRelies(c, f, f', s, sh');
    if k'.h.Closing? {
      ClosingNeedsHash(c, s.sh, k, st.broken);
    }
    HandlerLeavesRest(c, f', s.(sh := sh'), st.k, k');
  }

  lemma JobStep(c: Cfg, s: State, st: Step)
    requires SysInv(c, s) && (st.JobRead? || st.JobStore?) && DoServer(c, s, st).Some?
    ensures SysInv(c, DoServer(c, s, st).value)
    ensures Grows(c, s.sh, DoServer(c, s, st).value.sh)
  {
    var sh' := DoServer(c, s, st).value.sh;
    if st.JobRead? {
      JobReadKeeps(c, s.sh, st.i);
    } else {
      JobStoreKeeps(c, s.sh, st.i);
    }
    GrowsWithin(c, s.sh, sh');
    AroundRelies(c, FactsOf(c, s.sh), FactsOf(c, sh'), s, sh');
  }

  lemma ServerStepKeeps(c: Cfg, s: State, st: Step)
    requires SysInv(c, s) && s.main.exit.Serving? && !ClientStep(st) && DoServer(c, s, st).Some?
    ensures SysInv(c, DoServer(c, s, st).value)
    ensures Grows(c, s.sh, DoServer(c, s, st).value.sh)
  {
    var f := FactsOf(c, s.sh);
    match st
    case Accept(_) => AcceptStep(c, f, s, st);
    case Handle(_, _) => HandleStep(c, s, st);
    case Check(_) => CheckStep(c, f, s, st);
    case Leave(_) => LeaveStep(c, f, s, st);
    case JobRead(_) => JobStep(c, s, st);
    case JobStore(_) => JobStep(c, s, st);
    case Fire => TimerStep(c, f, s, st);
    case IdleFire => TimerStep(c, f, s, st);
  }

  lemma ClientKeepsShared(c: Cfg, s: State, st: Step)
    requires ClientStep(st) && DoClient(c, s, st).Some?
    ensures DoClient(c, s, st).value.sh == s.sh
  {
  }

  /** Every step of client, network or server keeps the invariant, and takes back nothing: a
      block in place stays in place, an available hash stays available. */
  lemma StepKeeps(c: Cfg, s: State, st: Step)
    requires SysInv(c, s) && Do(c, s, st).Some?
    ensures SysInv(c, Do(c, s, st).value)
    ensures Grows(c, s.sh, Do(c, s, st).value.sh)
  {
    if ClientStep(st) {
      ClientKeepsShared(c, s, st);
      ClientStepKeeps(c, FactsOf(c, s.sh), s, st);
    } else {
      ServerStepKeeps(c, s, st);
    }
  }

  lemma InitKeeps(c: Cfg)
    requires Hypotheses(c)
    ensures SysInv(c, Init(c))
  {
    Pipeline.InitInv(Pipe(c));
    InitSharedInv(c);
  }

  lemma {:induction false} RunKeeps(c: Cfg, s: State, steps: seq<Step>)
    requires SysInv(c, s) && Run(c, s, steps).Some?
    ensures SysInv(c, Run(c, s, steps).value)
    ensures Grows(c, s.sh, Run(c, s, steps).value.sh)
    decreases steps
  {
    if steps != [] {
      StepKeeps(c, s, steps[0]);
      RunKeeps(c, Do(c, s, steps[0]).value, steps[1..]);
    }
  }

  /** The invariant holds in every reachable state. */
  lemma ReachableInv(c: Cfg, s: State)
    requires Hypotheses(c) && Reachable(c, s)
    ensures SysInv(c, s)
  {
    var steps :| Run(c, Init(c), steps) == Some(s);
    InitKeeps(c);
    RunKeeps(c, Init(c), steps);
  }
}
