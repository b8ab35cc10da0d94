/** An upload without faults always runs to the server's exit, and what it then has delivered
    (client.go, server.go). */
module Completion {
  import opened Basics
  import opened Blocks
  import opened Wire
  import opened Protocol
  import opened SharedMemory
  import opened Handlers
  import opened System
  import opened Delivery
  import opened Guarantees
  import opened Progress
  import opened Termination
  import opened Runs
  import Pipeline

  // ---- what holds as long as there are no faults ----

  /** The DONE message is still to be handled on this connection. */
  ghost predicate DonePending(c: Cfg, k: Conn) {
    k.ph.DoneSent? && !Finished(k) && (k.h.Closing? || (!Applying(k) && Tasks(k) == [DoneMessage(c)]))
  }

  /** A connection that is not accepted yet has a client waiting on it. */
  ghost predicate SmoothConn(k: Conn) {
    !k.dropped && (k.h.Backlog? && !k.ph.DoneSent? ==> k.ph.Asked? && k.open)
  }

  ghost predicate DoneArrives(c: Cfg, s: State) {
    && (s.doneSent ==>
          (exists k :: 0 <= k < |s.conns| && DonePending(c, s.conns[k])) || s.main.done)
    && (s.main.done ==>
          && (s.main.armed || !s.main.exit.Serving?)
          && forall k :: 0 <= k < |s.conns| ==> !s.conns[k].h.Backlog?)
    && (forall j, k ::
          0 <= j < |s.conns| && 0 <= k < |s.conns| && s.conns[j].ph.DoneSent? && s.conns[k].ph.DoneSent? ==> j == k)
  }

  ghost predicate OnlyUnsendableFails(c: Cfg, pipe: Pipeline.State) {
    forall b :: b in pipe.failed ==> !Transferable(c, b)
  }

  ghost predicate Smooth(c: Cfg, s: State) {
    && (forall k :: 0 <= k < |s.conns| ==> SmoothConn(s.conns[k]))
    && DoneArrives(c, s)
    && OnlyUnsendableFails(c, s.pipe)
  }

  // ---- kept by every step ----

  /** The client, or a handler, changes connection `i` and nothing that matters here. */
  lemma ChangeSmooth(c: Cfg, s: State, s': State, i: nat)
    requires Smooth(c, s) && i < |s.conns| == |s'.conns| && s'.conns == s.conns[i := s'.conns[i]]
    requires SmoothConn(s'.conns[i]) && (s'.conns[i].ph.DoneSent? <==> s.conns[i].ph.DoneSent?)
    requires DonePending(c, s.conns[i]) ==> DonePending(c, s'.conns[i])
    requires s'.conns[i].h.Backlog? ==> s.conns[i].h.Backlog?
    requires s'.doneSent == s.doneSent && OnlyUnsendableFails(c, s'.pipe)
    requires s'.main.done == s.main.done && (s.main.done ==> s'.main == s.main)
    ensures Smooth(c, s')
  {
    if s.doneSent && !s.main.done {
      var k :| 0 <= k < |s.conns| && DonePending(c, s.conns[k]);
      assert DonePending(c, s'.conns[k]);
    }
  }

  /** Nothing but the pipeline, the workers' connections and the shared memory changes. */
  lemma RestSmooth(c: Cfg, s: State, s': State)
    requires Smooth(c, s) && s'.conns == s.conns && s'.main == s.main && s'.doneSent == s.doneSent
    requires OnlyUnsendableFails(c, s'.pipe)
    ensures Smooth(c, s')
  {
  }

  lemma PipeFails(c: Cfg, s: Pipeline.State, p: Pipeline.Step)
    requires OnlyUnsendableFails(c, s) && Pipeline.Do(Pipe(c), s, p).Some?
    requires p.Fail? ==> p.w < |s.movers| && s.movers[p.w].Busy? && !Transferable(c, s.movers[p.w].idx)
    ensures OnlyUnsendableFails(c, Pipeline.Do(Pipe(c), s, p).value)
  {
  }

  lemma EndSmooth(c: Cfg, s: State, w: nat, good: bool)
    requires Smooth(c, s) && BusyWorker(s, w) && (!good ==> !Transferable(c, s.pipe.movers[w].idx))
    ensures Smooth(c, EndAttempt(c, s, w, good))
  {
    PipeFails(c, s.pipe, if good then Pipeline.Succeed(w) else Pipeline.Fail(w));
    RestSmooth(c, s, EndAttempt(c, s, w, good));
  }

  lemma MoveSmooth(c: Cfg, s: State, w: nat, k: Conn)
    requires Smooth(c, s) && OnConn(s, w) && !TheConn(s, w).ph.DoneSent? && !k.ph.DoneSent?
    requires k.h == TheConn(s, w).h && SmoothConn(k)
    ensures Smooth(c, s.(conns := s.conns[s.net[w].value := k]))
  {
    ChangeSmooth(c, s, s.(conns := s.conns[s.net[w].value := k]), s.net[w].value);
  }

  lemma HangupSmooth(c: Cfg, s: State, w: nat)
    requires Smooth(c, s) && w < |s.net| && s.net[w].Some? && s.net[w].value < |s.conns|
    requires !s.conns[s.net[w].value].ph.DoneSent? && !s.conns[s.net[w].value].h.Backlog?
    ensures Smooth(c, Hangup(s, w))
  {
    ChangeSmooth(c, s, Hangup(s, w), s.net[w].value);
  }

  /** A new connection, while no DONE message has been sent. */
  lemma NewSmooth(c: Cfg, s: State, s': State, k: Conn)
    requires Smooth(c, s) && DoneInv(FactsOf(c, s.sh), s) && !s.doneSent
    requires s'.conns == s.conns + [k] && s'.main == s.main
    requires SmoothConn(k) && s'.pipe == s.pipe && (k.ph.DoneSent? <==> s'.doneSent)
    requires s'.doneSent ==> DonePending(c, k)
    ensures Smooth(c, s')
  {
    assert s'.conns[|s.conns|] == k;
  }

  lemma BusyMeansNotDone(c: Cfg, s: State, w: nat)
    requires Around(c, FactsOf(c, s.sh), s) && BusyWorker(s, w)
    ensures !s.doneSent && !s.main.done
  {
  }

  lemma AskSmooth(c: Cfg, s: State, w: nat)
    requires Around(c, FactsOf(c, s.sh), s) && Smooth(c, s) && DoClient(c, s, Ask(w, true, true)).Some?
    ensures Smooth(c, DoClient(c, s, Ask(w, true, true)).value)
  {
    BusyMeansNotDone(c, s, w);
    var b, s' := s.pipe.movers[w].idx, DoClient(c, s, Ask(w, true, true)).value;
    if s.net[w].None? {
      var k := FreshConn().(up := [] + [Request(c, b)], ph := Asked(b));
      assert (s.conns + [FreshConn()])[|s.conns| := k] == s.conns + [k];
      NewSmooth(c, s, s', k);
    } else {
      AtWork(c, FactsOf(c, s.sh), s, w);
      MoveSmooth(c, s, w, TheConn(s, w).(up := TheConn(s, w).up + [Request(c, b)], ph := Asked(b)));
    }
  }

  lemma HearSmooth(c: Cfg, s: State, w: nat)
    requires Around(c, FactsOf(c, s.sh), s) && Smooth(c, s) && DoClient(c, s, Hear(w)).Some?
    ensures Smooth(c, DoClient(c, s, Hear(w)).value)
  {
    AtWork(c, FactsOf(c, s.sh), s, w);
    var b, k := s.pipe.movers[w].idx, TheConn(s, w);
    var same := k.down[..16] == Packed(c, b).hash;
    var k' := k.(down := k.down[16..], ack := None, ph := if same then Quiet else Answered(b));
    MoveSmooth(c, s, w, k');
    if same {
      EndSmooth(c, s.(conns := s.conns[s.net[w].value := k']), w, true);
    }
  }

  lemma WriteSmooth(c: Cfg, s: State, st: Step)
    requires Around(c, FactsOf(c, s.sh), s) && Smooth(c, s) && Useful(s, st) && DoClient(c, s, st).Some?
    requires st.SendZero? || st.SendHead? || st.SendBody?
    ensures Smooth(c, DoClient(c, s, st).value)
  {
    var w := st.w;
    AtWork(c, FactsOf(c, s.sh), s, w);
    var b, k := s.pipe.movers[w].idx, TheConn(s, w);
    if st.SendHead? {
      MoveSmooth(c, s, w, k.(up := k.up + [DataHeader(c, b)], ph := HeadSent(b)));
    } else {
      var it := if st.SendZero? then ZeroNotice(c, b) else Body(ToSend(c, b));
      var k' := k.(up := k.up + [it], ph := Quiet, ack := Some(b));
      MoveSmooth(c, s, w, k');
      EndSmooth(c, s.(conns := s.conns[s.net[w].value := k']), w, true);
    }
  }

  lemma NoPayloadSmooth(c: Cfg, s: State, w: nat)
    requires Around(c, FactsOf(c, s.sh), s) && Smooth(c, s) && DoClient(c, s, NoPayload(w)).Some?
    ensures Smooth(c, DoClient(c, s, NoPayload(w)).value)
  {
    AtWork(c, FactsOf(c, s.sh), s, w);
    assert SmoothConn(TheConn(s, w));
    if s.pipe.movers[w].tries + 1 < Pipeline.MAX_TRIES {
      HangupSmooth(c, s, w);
      EndSmooth(c, Hangup(s, w), w, false);
    } else {
      var k' := TheConn(s, w).(ph := Quiet);
      MoveSmooth(c, s, w, k');
      EndSmooth(c, s.(conns := s.conns[s.net[w].value := k']), w, false);
    }
  }

  lemma StopSmooth(c: Cfg, s: State, w: nat)
    requires Around(c, FactsOf(c, s.sh), s) && Smooth(c, s) && DoClient(c, s, Stop(w)).Some?
    ensures Smooth(c, DoClient(c, s, Stop(w)).value)
  {
    assert WorkerInv(s, w);
    PipeFails(c, s.pipe, Pipeline.Stop(w));
    var s' := DoClient(c, s, Stop(w)).value;
    if s.net[w].Some? {
      assert SmoothConn(s.conns[s.net[w].value]);
      HangupSmooth(c, s, w);
      RestSmooth(c, Hangup(s, w), s');
    } else {
      RestSmooth(c, s, s');
    }
  }

  lemma DoneSmooth(c: Cfg, s: State, st: Step)
    requires Around(c, FactsOf(c, s.sh), s) && Smooth(c, s) && Useful(s, st) && DoClient(c, s, st).Some?
    requires st.SendDone? || st.CloseDone?
    ensures Smooth(c, DoClient(c, s, st).value)
  {
    var s' := DoClient(c, s, st).value;
    if st.SendDone? {
      NewSmooth(c, s, s', s'.conns[|s.conns|]);
    } else {
      ChangeSmooth(c, s, s', st.k);
    }
  }

  lemma NotDropped(c: Cfg, s: State, w: nat)
    requires Smooth(c, s) && OnConn(s, w)
    ensures !TheConn(s, w).dropped
  {
    assert SmoothConn(TheConn(s, w));
  }

  lemma ClientSmooth(c: Cfg, s: State, st: Step)
    requires Around(c, FactsOf(c, s.sh), s) && Smooth(c, s) && ClientStep(st) && Useful(s, st)
    requires DoClient(c, s, st).Some?
    ensures Smooth(c, DoClient(c, s, st).value)
  {
    match st
    case Inside(p) =>
      PipeFails(c, s.pipe, p);
      RestSmooth(c, s, DoClient(c, s, st).value);
    case Stop(w) => StopSmooth(c, s, w);
    case Ask(w, _, _) => AskSmooth(c, s, w);
    case Hear(w) => HearSmooth(c, s, w);
    case HearFail(w) =>
      NotDropped(c, s, w);
    case SendZero(_, _, _) => WriteSmooth(c, s, st);
    case SendHead(_, _, _) => WriteSmooth(c, s, st);
    case SendBody(_, _, _) => WriteSmooth(c, s, st);
    case NoPayload(w) => NoPayloadSmooth(c, s, w);
    case SendDone(_) => DoneSmooth(c, s, st);
    case CloseDone(_) => DoneSmooth(c, s, st);
  }

  lemma PendingLoop(c: Cfg, sh: Shared, k: Conn)
    requires HandlerStep(c, sh, k, false).Some? && DonePending(c, k) && k.h.Loop?
    ensures DonePending(c, HandlerStep(c, sh, k, false).value.1)
  {
    assert Tasks(k)[0] == DoneMessage(c) && k.up == [k.up[0]] + k.up[1..];
    assert Tasks(HandlerStep(c, sh, k, false).value.1) == Tasks(k);
  }

  lemma PendingServe(c: Cfg, sh: Shared, k: Conn)
    requires HandlerStep(c, sh, k, false).Some? && DonePending(c, k) && k.h.Serve?
    ensures DonePending(c, HandlerStep(c, sh, k, false).value.1)
  {
    assert Tasks(k)[0] == DoneMessage(c);
    OursAddressable(c, k.h.m);
  }

  /** The handler of the DONE connection goes on until it has begun the shutdown. */
  lemma PendingStays(c: Cfg, sh: Shared, k: Conn)
    requires HandlerStep(c, sh, k, false).Some? && DonePending(c, k) && !k.h.Closing?
    ensures DonePending(c, HandlerStep(c, sh, k, false).value.1)
  {
    if k.h.Loop? {
      PendingLoop(c, sh, k);
    } else if k.h.Serve? {
      PendingServe(c, sh, k);
    }
  }

  lemma PendingReads(c: Cfg, k: Conn, broken: bool)
    requires DonePending(c, k) && (broken ==> WantsMore(k))
    ensures !broken
  {
    if !k.h.Closing? {
      assert Tasks(k)[0] == DoneMessage(c);
    }
  }

  /** When the DONE message has been handled, no connection is left to be accepted. */
  lemma NoneInBacklog(c: Cfg, s: State, i: nat)
    requires Around(c, FactsOf(c, s.sh), s) && OwnersInv(s) && Smooth(c, s) && i < |s.conns| && s.conns[i].h.Closing?
    ensures forall k :: 0 <= k < |s.conns| ==> !s.conns[k].h.Backlog?
  {
    forall k | 0 <= k < |s.conns|
      ensures !s.conns[k].h.Backlog?
    {
      assert SmoothConn(s.conns[k]);
      if s.conns[k].open {
        OnlyDoneIsOpen(c, s, k);
      }
    }
  }

  lemma ShutdownSmooth(c: Cfg, s: State, i: nat, k': Conn)
    requires Around(c, FactsOf(c, s.sh), s) && OwnersInv(s) && Smooth(c, s) && i < |s.conns| && s.conns[i].h.Closing?
    requires s.main.exit.Serving? && k' == s.conns[i].(h := Returned)
    ensures Smooth(c, s.(conns := s.conns[i := k'], main := MainAfter(s.main, s.conns[i])))
  {
    NoneInBacklog(c, s, i);
    assert SmoothConn(s.conns[i]);
  }

  lemma HandlerSmooth(c: Cfg, s: State, i: nat, broken: bool)
    requires SysInv(c, s) && Smooth(c, s) && i < |s.conns| && !s.conns[i].h.Closing?
    requires HandlerStep(c, s.sh, s.conns[i], broken).Some? && (broken ==> WantsMore(s.conns[i]))
    ensures var k := HandlerStep(c, s.sh, s.conns[i], broken).value.1; Smooth(c, s.(conns := s.conns[i := k]))
  {
    var k := s.conns[i];
    assert SmoothConn(k);
    EveryHandlerStepKept(c, s.sh, k, broken);
    if DonePending(c, k) {
      PendingReads(c, k, broken);
      PendingStays(c, s.sh, k);
    }
    ChangeSmooth(c, s, s.(conns := s.conns[i := HandlerStep(c, s.sh, k, broken).value.1]), i);
  }

  lemma MemorySmooth(c: Cfg, s: State, sh: Shared)
    requires Smooth(c, s)
    ensures Smooth(c, s.(sh := sh))
  {
  }

  lemma ClosingReturns(c: Cfg, sh: Shared, k: Conn, broken: bool)
    requires k.h.Closing?
    ensures HandlerStep(c, sh, k, broken) == Some((sh, k.(h := Returned)))
  {
  }

  lemma SameMain(s: State, conns: seq<Conn>)
    ensures s.(conns := conns, main := s.main) == s.(conns := conns)
  {
  }

  lemma AfterHandlerSmooth(c: Cfg, s: State, i: nat, broken: bool)
    requires SysInv(c, s) && OwnersInv(s) && Smooth(c, s) && s.main.exit.Serving? && i < |s.conns|
    requires HandlerStep(c, s.sh, s.conns[i], broken).Some? && (broken ==> WantsMore(s.conns[i]))
    ensures var k := HandlerStep(c, s.sh, s.conns[i], broken).value.1;
      Smooth(c, s.(conns := s.conns[i := k], main := MainAfter(s.main, s.conns[i])))
  {
    var k := HandlerStep(c, s.sh, s.conns[i], broken).value.1;
    if s.conns[i].h.Closing? {
      ClosingReturns(c, s.sh, s.conns[i], broken);
      ShutdownSmooth(c, s, i, k);
    } else {
      HandlerSmooth(c, s, i, broken);
      SameMain(s, s.conns[i := k]);
    }
  }

  lemma HandleSmooth(c: Cfg, s: State, i: nat, broken: bool)
    requires SysInv(c, s) && OwnersInv(s) && Smooth(c, s) && s.main.exit.Serving?
    requires Useful(s, Handle(i, broken)) && DoServer(c, s, Handle(i, broken)).Some?
    ensures Smooth(c, DoServer(c, s, Handle(i, broken)).value)
  {
    HandleShape(c, s, i, broken);
    var (sh', k') := HandlerStep(c, s.sh, s.conns[i], broken).value;
    AfterHandlerSmooth(c, s, i, broken);
    MemorySmooth(c, s.(conns := s.conns[i := k'], main := MainAfter(s.main, s.conns[i])), sh');
  }

  lemma CountingSmooth(c: Cfg, s: State, st: Step)
    requires SysInv(c, s) && Smooth(c, s) && s.main.exit.Serving? && DoServer(c, s, st).Some?
    requires st.Accept? || st.Check? || st.Leave?
    ensures Smooth(c, DoServer(c, s, st).value)
  {
    var s' := DoServer(c, s, st).value;
    assert SmoothConn(s.conns[st.k]);
    if st.Check? {
      CheckStep(c, FactsOf(c, s.sh), s, st);
    }
    if st.Leave? {
      var mid := s.(conns := s'.conns);
      ChangeSmooth(c, s, mid, st.k);
    } else {
      ChangeSmooth(c, s, s', st.k);
    }
  }

  lemma StepSmooth(c: Cfg, s: State, st: Step)
    requires SysInv(c, s) && OwnersInv(s) && Smooth(c, s) && Moves(c, s, st)
    ensures Smooth(c, Do(c, s, st).value)
  {
    if ClientStep(st) {
      ClientSmooth(c, s, st);
    } else if st.Handle? {
      HandleSmooth(c, s, st.k, st.broken);
    } else if st.Accept? || st.Check? || st.Leave? {
      CountingSmooth(c, s, st);
    } else if st.JobRead? || st.JobStore? {
      RestSmooth(c, s, Do(c, s, st).value);
    }
  }

  /** All that a step without a fault keeps, and that it leaves less to do. */
  lemma GoesOn(c: Cfg, s: State, st: Step)
    requires SysInv(c, s) && OwnersInv(s) && Smooth(c, s) && Moves(c, s, st)
    ensures var t := Do(c, s, st).value;
      SysInv(c, t) && OwnersInv(t) && Smooth(c, t) && Effort(c, t) < Effort(c, s)
  {
    UsefulStepLowers(c, s, st);
    StepKeeps(c, s, st);
    StepKeepsOwners(c, s, st);
    StepSmooth(c, s, st);
  }

  lemma InitSmooth(c: Cfg)
    ensures Smooth(c, Init(c)) && OwnersInv(Init(c))
  {
  }

  lemma {:induction false} FaultFreeSmooth(c: Cfg, s: State, steps: seq<Step>)
    requires SysInv(c, s) && OwnersInv(s) && Smooth(c, s) && FaultFree(c, s, steps)
    ensures Run(c, s, steps).Some? && Smooth(c, Run(c, s, steps).value)
    decreases steps
  {
    if steps != [] {
      if FiresEarly(c, s, steps[0]) {
        ArmedAgain(c, s, steps[0]);
      } else {
        GoesOn(c, s, steps[0]);
      }
      FaultFreeSmooth(c, Do(c, s, steps[0]).value, steps[1..]);
    }
  }

  // ---- every upload without faults ends, and how ----

  lemma SmoothNeverHangs(c: Cfg, s: State)
    requires Smooth(c, s)
    ensures !Hanging(s)
  {
  }

  /** A run without faults, in which the shutdown timer may fire early any number of times, is limited
      in its other steps, and when it can go no further it has ended with the timer's exit. */
  lemma FaultFreeRunsExit(c: Cfg, steps: seq<Step>)
    requires Hypotheses(c) && CanEnd(c) && FaultFree(c, Init(c), steps)
    ensures Run(c, Init(c), steps).Some? && UsefulSteps(c, Init(c), steps) <= Effort(c, Init(c))
    ensures var t := Run(c, Init(c), steps).value;
      (forall st :: !Moves(c, t, st)) ==> t.main.exit.TimerExit?
  {
    InitKeeps(c);
    InitSmooth(c);
    FaultFreeSmooth(c, Init(c), steps);
    SmoothNeverHangs(c, Run(c, Init(c), steps).value);
    assert Run(c, Init(c), []) == Some(Init(c));
    FaultsStopThenItEnds(c, Init(c), steps);
  }

  lemma {:induction false} CompletionFrom(c: Cfg, s: State) returns (steps: seq<Step>)
    requires SysInv(c, s) && OwnersInv(s) && Smooth(c, s) && CanEnd(c)
    ensures FaultFree(c, s, steps)
    ensures Run(c, s, steps).Some? && Run(c, s, steps).value.main.exit.TimerExit?
    decreases Effort(c, s)
  {
    if s.main.exit.TimerExit? {
      return [];
    }
    SmoothNeverHangs(c, s);
    var st := MoveExists(c, s);
    GoesOn(c, s, st);
    var rest := CompletionFrom(c, Do(c, s, st).value);
    steps := [st] + rest;
    assert steps[1..] == rest;
  }

  ghost predicate EndsInExit(c: Cfg, steps: seq<Step>) {
    Run(c, Init(c), steps).Some? && Run(c, Init(c), steps).value.main.exit.TimerExit?
  }

  /** An upload can end with the server's exit if and only if the pool hashes every block of an old
      destination that is not empty; and then it can do so without any fault. */
  lemma ExitReachableIff(c: Cfg)
    requires Hypotheses(c)
    ensures (exists steps :: EndsInExit(c, steps)) <==> CanEnd(c)
    ensures CanEnd(c) ==> exists steps :: EndsInExit(c, steps) && FaultFree(c, Init(c), steps)
  {
    if CanEnd(c) {
      InitKeeps(c);
      InitSmooth(c);
      var steps := CompletionFrom(c, Init(c));
      assert EndsInExit(c, steps);
    }
    forall steps | EndsInExit(c, steps)
      ensures CanEnd(c)
    {
      ShutdownNeedsBlockZero(c, Run(c, Init(c), steps).value);
    }
  }

  lemma TargetBlock(c: Cfg, sh: Shared, b: nat)
    requires View(c, sh) == Target(c) && InRange(c, b)
    ensures ViewBlock(c, sh, b) == SrcBlock(c, b)
  {
    BlockInside(c, b);
    MulMonotone(c.skip, b, c.bs);
    var n := Min(c.skip * c.bs, |c.src|);
    ReadTail(Resized(c.prior, |c.src|)[..n], c.src, n, b * c.bs, c.bs);
  }

  lemma ReadTail(a: Bytes, f: Bytes, n: nat, off: nat, size: nat)
    requires |a| == n <= off && n <= |f|
    ensures ReadAt(a + f[n..], off, size) == ReadAt(f, off, size)
  {
  }

  /** What an upload without faults delivers: when it has ended, the destination is the source if and
      only if every block for which there is nothing to send had the right content before. */
  lemma FaultFreeDeliversIff(c: Cfg, steps: seq<Step>)
    requires Hypotheses(c) && 0 < c.workers && FaultFree(c, Init(c), steps) && EndsInExit(c, steps)
    ensures View(c, Run(c, Init(c), steps).value.sh) == Target(c)
      <==> forall b :: InRange(c, b) && !Transferable(c, b) ==> GrownBlock(c, b) == SrcBlock(c, b)
  {
    var t := Run(c, Init(c), steps).value;
    InitKeeps(c);
    InitSmooth(c);
    FaultFreeSmooth(c, Init(c), steps);
    ReachableInv(c, t);
    AtExit(c, t);
    if forall b :: InRange(c, b) && !Transferable(c, b) ==> GrownBlock(c, b) == SrcBlock(c, b) {
      forall b | c.skip <= b <= Last(c)
        ensures Synced(c, t.sh, b)
      {
        SmoothBlockInPlace(c, t, b);
      }
      SyncedBytes(c, t.sh);
    }
    if View(c, t.sh) == Target(c) {
      forall b | InRange(c, b) && !Transferable(c, b)
        ensures GrownBlock(c, b) == SrcBlock(c, b)
      {
        TargetBlock(c, t.sh, b);
        UnsendableInPlaceIff(c, t, b);
      }
    }
  }

  lemma NotLeftOpen(c: Cfg, s: State, b: nat)
    requires Smooth(c, s)
    ensures !LeftOpen(s, b)
  {
    if OnItsWay(s, b) {
      assert SmoothConn(s.conns[s.via[b]]);
    }
  }

  /** After an upload whose workers have stopped and whose handlers have ended, without faults: a block
      is in place if there was something to send for it, or nothing had to be sent. */
  lemma SmoothBlockInPlace(c: Cfg, s: State, b: nat)
    requires SysInv(c, s) && 0 < c.workers && Pipeline.AllStopped(s.pipe) && s.sh.resized && Smooth(c, s)
    requires forall k :: 0 <= k < |s.conns| && s.conns[k].ack.Some? ==> s.conns[k].h.Gone?
    requires InRange(c, b) && (!Transferable(c, b) ==> GrownBlock(c, b) == SrcBlock(c, b))
    ensures Synced(c, s.sh, b)
  {
    Outcome(c, s, b);
    NotLeftOpen(c, s, b);
    assert BlockInv(c, s.sh, b);
  }

  lemma SentIsInPlace(c: Cfg, s: State, b: nat)
    requires SysInv(c, s) && 0 < c.workers && Pipeline.AllStopped(s.pipe) && Smooth(c, s)
    requires forall k :: 0 <= k < |s.conns| && s.conns[k].ack.Some? ==> s.conns[k].h.Gone?
    requires InRange(c, b) && Transferable(c, b)
    ensures Synced(c, s.sh, b)
  {
    Outcome(c, s, b);
    NotLeftOpen(c, s, b);
  }

  lemma AtExit(c: Cfg, s: State)
    requires SysInv(c, s) && s.main.exit.TimerExit?
    ensures Pipeline.AllStopped(s.pipe) && s.sh.resized
    ensures forall k :: 0 <= k < |s.conns| && s.conns[k].ack.Some? ==> s.conns[k].h.Gone?
  {
    forall k | 0 <= k < |s.conns| && s.conns[k].ack.Some?
      ensures s.conns[k].h.Gone?
    {
      ExitMeansFinished(c, s, k);
    }
  }

  /** A run without faults in which there is something to send for every block is clean. */
  lemma FaultFreeClean(c: Cfg, steps: seq<Step>)
    requires Hypotheses(c) && FaultFree(c, Init(c), steps) && forall b :: InRange(c, b) ==> Transferable(c, b)
    ensures Run(c, Init(c), steps).Some? && CleanRun(Run(c, Init(c), steps).value)
  {
    InitKeeps(c);
    InitSmooth(c);
    FaultFreeSmooth(c, Init(c), steps);
    FaultFreeRunsAreFinite(c, Init(c), steps);
    SmoothIsClean(c, Run(c, Init(c), steps).value);
  }

  lemma SmoothIsClean(c: Cfg, t: State)
    requires SysInv(c, t) && Smooth(c, t) && forall b :: InRange(c, b) ==> Transferable(c, b)
    ensures CleanRun(t)
  {
    forall b | b in t.via
      ensures !LeftOpen(t, b)
    {
      NotLeftOpen(c, t, b);
    }
    forall b
      ensures b !in t.pipe.failed
    {
      if b in t.pipe.failed {
        Pipeline.FailedInRange(Pipe(c), t.pipe, b);
      }
    }
  }

  // ---- up to the DONE message ----

  /** The client has only DONE left to send, and the server has served everything else. */
  ghost predicate ReadyForDone(s: State) {
    && !s.doneSent && s.main.exit.Serving? && PoolDone(s.sh) && Pipeline.AllStopped(s.pipe)
    && forall k :: 0 <= k < |s.conns| ==> s.conns[k].h.Gone? && !s.conns[k].open
  }

  lemma NotDoneYet(c: Cfg, s: State, st: Step)
    requires SysInv(c, s) && !s.doneSent && s.main.exit.Serving? && !st.SendDone? && Do(c, s, st).Some?
    ensures !Do(c, s, st).value.doneSent && Do(c, s, st).value.main.exit.Serving?
  {
  }

  lemma BeforeDone(c: Cfg, s: State) returns (st: Step)
    requires SysInv(c, s) && OwnersInv(s) && CanEnd(c) && !s.doneSent && s.main.exit.Serving? && !ReadyForDone(s)
    ensures Moves(c, s, st) && !st.SendDone?
  {
    if !PoolDone(s.sh) {
      st := PoolMoves(c, s);
    } else {
      assert AllKnown(c, s.sh);
      if !Pipeline.AllStopped(s.pipe) {
        st := PipelineMoves(c, s);
      } else {
        var k :| 0 <= k < |s.conns| && (s.conns[k].open || !s.conns[k].h.Gone?);
        st := LastHandlerMoves(c, s, k);
      }
    }
  }

  lemma {:induction false} UpToDone(c: Cfg, s: State) returns (t: State)
    requires Reachable(c, s) && SysInv(c, s) && OwnersInv(s) && Smooth(c, s) && CanEnd(c)
    requires !s.doneSent && s.main.exit.Serving?
    ensures Reachable(c, t) && SysInv(c, t) && Smooth(c, t) && ReadyForDone(t)
    decreases Effort(c, s)
  {
    if ReadyForDone(s) {
      return s;
    }
    var st := BeforeDone(c, s);
    NotDoneYet(c, s, st);
    GoesOn(c, s, st);
    Next(c, s, st, Do(c, s, st).value);
    t := UpToDone(c, Do(c, s, st).value);
  }
}
