/** Without faults every upload comes to an end: each step leaves less to do, and the last one is
    the server's exit (client.go, server.go). */
module Termination {
  import opened Basics
  import opened Wire
  import opened Protocol
  import opened SharedMemory
  import opened Handlers
  import opened Clients
  import opened System
  import opened Progress
  import Pipeline

  // ---- what is left to do ----

  /** How far the attempt of worker `w` still has to go on its connection. */
  ghost function PhaseWeight(s: State, w: nat): nat {
    if !BusyWorker(s, w) then 0
    else if !OnConn(s, w) then 3
    else match TheConn(s, w).ph
      case Quiet => 3
      case Asked(_) => 2
      case Answered(_) => 1
      case HeadSent(_) => 0
      case DoneSent => 0
  }

  ghost function PhaseSum(s: State, n: nat): nat {
    if n == 0 then 0 else PhaseSum(s, n - 1) + PhaseWeight(s, n - 1)
  }

  ghost function HandlerWeight(h: Handler): nat {
    match h
    case Backlog => 5
    case Loop => 4
    case Measure(_) => 9
    case Truncate(_) => 8
    case Serve(_) => 7
    case ZeroOut(_) => 6
    case ZeroMark(_) => 5
    case Store(_, _) => 6
    case Mark(_, _) => 5
    case Closing => 3
    case Returned => 2
    case Checked => 1
    case Gone => 0
  }

  /** What is left for the handler of a connection. */
  ghost function ConnWeight(k: Conn): nat {
    7 * |k.up| + HandlerWeight(k.h)
  }

  ghost function OpenDone(k: Conn): nat {
    if k.open && k.ph.DoneSent? then 1 else 0
  }

  ghost function Total(weight: Conn -> nat, conns: seq<Conn>): nat {
    if conns == [] then 0 else weight(conns[0]) + Total(weight, conns[1..])
  }

  ghost function JobWeight(jobs: map<nat, Job>, i: nat): nat {
    if i !in jobs then 0 else match jobs[i] case Todo => 2 case Reading(_) => 1 case Stored => 0
  }

  ghost function JobSum(jobs: map<nat, Job>, n: nat): nat {
    if n == 0 then 0 else JobSum(jobs, n - 1) + JobWeight(jobs, n - 1)
  }

  /** What is left for the client. */
  ghost function ClientEffort(c: Cfg, s: State): nat {
    4 * Pipeline.WorkLeft(Pipe(c), s.pipe) + PhaseSum(s, |s.pipe.movers|) + Total(k => OpenDone(k), s.conns)
    + if s.doneSent then 0 else 2
  }

  /** What is left for the server. */
  ghost function ServerEffort(c: Cfg, s: State): nat {
    Total(k => ConnWeight(k), s.conns) + JobSum(s.sh.jobs, MaxId(c) + 1) + if s.main.exit.Serving? then 1 else 0
  }

  /** A step of the client gives the server at most twelve units more to do. */
  ghost function Effort(c: Cfg, s: State): nat {
    13 * ClientEffort(c, s) + ServerEffort(c, s)
  }

  // ---- sums ----

  lemma {:induction false} TotalUpdate(weight: Conn -> nat, conns: seq<Conn>, i: nat, k: Conn)
    requires i < |conns|
    ensures Total(weight, conns[i := k]) == Total(weight, conns) - weight(conns[i]) + weight(k)
  {
    if i == 0 {
      assert conns[i := k][1..] == conns[1..];
    } else {
      TotalUpdate(weight, conns[1..], i - 1, k);
      assert conns[i := k][1..] == conns[1..][i - 1 := k];
    }
  }

  lemma {:induction false} TotalAppend(weight: Conn -> nat, conns: seq<Conn>, k: Conn)
    ensures Total(weight, conns + [k]) == Total(weight, conns) + weight(k)
  {
    if conns == [] {
      assert conns + [k] == [k] && [k][1..] == [];
    } else {
      TotalAppend(weight, conns[1..], k);
      assert (conns + [k])[1..] == conns[1..] + [k];
    }
  }

  lemma {:induction false} PhaseSumSame(s: State, s': State, n: nat)
    requires forall v :: 0 <= v < n ==> PhaseWeight(s', v) == PhaseWeight(s, v)
    ensures PhaseSum(s', n) == PhaseSum(s, n)
  {
    if n > 0 {
      PhaseSumSame(s, s', n - 1);
    }
  }

  lemma {:induction false} PhaseSumChange(s: State, s': State, w: nat, n: nat)
    requires w < n && forall v :: 0 <= v < n && v != w ==> PhaseWeight(s', v) == PhaseWeight(s, v)
    ensures PhaseSum(s', n) - PhaseWeight(s', w) == PhaseSum(s, n) - PhaseWeight(s, w)
  {
    if w == n - 1 {
      PhaseSumSame(s, s', n - 1);
    } else {
      PhaseSumChange(s, s', w, n - 1);
    }
  }

  lemma {:induction false} JobSumSame(jobs: map<nat, Job>, i: nat, job: Job, n: nat)
    requires n <= i
    ensures JobSum(jobs[i := job], n) == JobSum(jobs, n)
  {
    if n > 0 {
      JobSumSame(jobs, i, job, n - 1);
    }
  }

  lemma {:induction false} JobSumChange(jobs: map<nat, Job>, i: nat, job: Job, n: nat)
    requires i < n
    ensures JobSum(jobs[i := job], n) - JobWeight(jobs[i := job], i) == JobSum(jobs, n) - JobWeight(jobs, i)
  {
    if i == n - 1 {
      JobSumSame(jobs, i, job, n - 1);
    } else {
      JobSumChange(jobs, i, job, n - 1);
    }
  }

  // ---- the client's steps ----

  /** Only worker `w` and its connection have changed. */
  ghost predicate OnlyWorker(s: State, s': State, w: nat)
    requires w < |s.net|
  {
    && |s'.net| == |s.net| && |s'.pipe.movers| == |s.pipe.movers| && |s.conns| <= |s'.conns|
    && (forall v :: 0 <= v < |s.net| && v != w ==> s'.net[v] == s.net[v])
    && (forall v :: 0 <= v < |s.pipe.movers| && v != w ==> s'.pipe.movers[v] == s.pipe.movers[v])
    && (forall i :: 0 <= i < |s.conns| && s.net[w] != Some(i) ==> s'.conns[i].ph == s.conns[i].ph)
  }

  lemma OthersWeighTheSame(s: State, s': State, w: nat)
    requires NetInv(s) && w < |s.net| && OnlyWorker(s, s', w)
    ensures PhaseSum(s', |s'.pipe.movers|) - PhaseWeight(s', w) == PhaseSum(s, |s.pipe.movers|) - PhaseWeight(s, w)
  {
    forall v | 0 <= v < |s.pipe.movers| && v != w
      ensures PhaseWeight(s', v) == PhaseWeight(s, v)
    {
      assert WorkerInv(s, v);
    }
    PhaseSumChange(s, s', w, |s.pipe.movers|);
  }

  ghost predicate ClientLowered(c: Cfg, s: State, s': State) {
    ClientEffort(c, s') < ClientEffort(c, s) && ServerEffort(c, s') <= ServerEffort(c, s) + 12
  }

  lemma TakeWeighs(c: Cfg, s: State, w: nat)
    requires NetInv(s) && Pipeline.Do(Pipe(c), s.pipe, Pipeline.Take(w)).Some?
    ensures var s' := s.(pipe := Pipeline.Do(Pipe(c), s.pipe, Pipeline.Take(w)).value);
      PhaseSum(s', |s'.pipe.movers|) <= PhaseSum(s, |s.pipe.movers|) + 3
  {
    OthersWeighTheSame(s, s.(pipe := Pipeline.Do(Pipe(c), s.pipe, Pipeline.Take(w)).value), w);
  }

  lemma OtherPipeWeighs(c: Cfg, s: State, p: Pipeline.Step)
    requires Pipeline.Do(Pipe(c), s.pipe, p).Some? && !p.Succeed? && !p.Fail? && !p.Take?
    ensures var s' := s.(pipe := Pipeline.Do(Pipe(c), s.pipe, p).value);
      PhaseSum(s', |s'.pipe.movers|) == PhaseSum(s, |s.pipe.movers|)
  {
    PhaseSumSame(s, s.(pipe := Pipeline.Do(Pipe(c), s.pipe, p).value), |s.pipe.movers|);
  }

  lemma PipeLowers(c: Cfg, s: State, p: Pipeline.Step)
    requires Pipeline.Inv(Pipe(c), s.pipe) && NetInv(s) && Pipeline.Do(Pipe(c), s.pipe, p).Some?
    requires !p.Succeed? && !p.Fail?
    ensures ClientLowered(c, s, s.(pipe := Pipeline.Do(Pipe(c), s.pipe, p).value))
  {
    Pipeline.StepMakesProgress(Pipe(c), s.pipe, p);
    if p.Take? {
      TakeWeighs(c, s, p.w);
    } else {
      OtherPipeWeighs(c, s, p);
    }
  }

  /** The connection of worker `w` has become `k`, and its attempt goes on. */
  lemma AttemptGoesOn(c: Cfg, s: State, w: nat, k: Conn)
    requires NetInv(s) && OnConn(s, w) && !k.ph.DoneSent? && !TheConn(s, w).ph.DoneSent?
    requires k.h == TheConn(s, w).h && |k.up| <= |TheConn(s, w).up| + 1
    ensures var s' := s.(conns := s.conns[s.net[w].value := k]);
      && ClientEffort(c, s') - PhaseWeight(s', w) == ClientEffort(c, s) - PhaseWeight(s, w)
      && ServerEffort(c, s') <= ServerEffort(c, s) + 7
  {
    var i := s.net[w].value;
    var s' := s.(conns := s.conns[i := k]);
    OthersWeighTheSame(s, s', w);
    TotalUpdate(k => OpenDone(k), s.conns, i, k);
    TotalUpdate(k => ConnWeight(k), s.conns, i, k);
  }

  /** The attempt of worker `w` ends. */
  lemma AttemptEnds(c: Cfg, s: State, w: nat, good: bool)
    requires Pipeline.Inv(Pipe(c), s.pipe) && NetInv(s) && BusyWorker(s, w)
    ensures ClientEffort(c, EndAttempt(c, s, w, good)) + 4 + PhaseWeight(s, w)
      <= ClientEffort(c, s) + if good then 0 else 3
    ensures ServerEffort(c, EndAttempt(c, s, w, good)) == ServerEffort(c, s)
  {
    var s' := EndAttempt(c, s, w, good);
    Pipeline.StepMakesProgress(Pipe(c), s.pipe, if good then Pipeline.Succeed(w) else Pipeline.Fail(w));
    OthersWeighTheSame(s, s', w);
  }

  lemma HangupWeighs(c: Cfg, s: State, w: nat)
    requires NetInv(s) && w < |s.net| && s.net[w].Some? && s.net[w].value < |s.conns|
    requires !s.conns[s.net[w].value].ph.DoneSent?
    ensures ClientEffort(c, Hangup(s, w)) - PhaseWeight(Hangup(s, w), w) == ClientEffort(c, s) - PhaseWeight(s, w)
    ensures ServerEffort(c, Hangup(s, w)) == ServerEffort(c, s)
  {
    var i, s' := s.net[w].value, Hangup(s, w);
    OthersWeighTheSame(s, s', w);
    TotalUpdate(k => OpenDone(k), s.conns, i, s'.conns[i]);
    TotalUpdate(k => ConnWeight(k), s.conns, i, s'.conns[i]);
  }

  lemma BrokenLowers(c: Cfg, s: State, w: nat)
    requires Around(c, FactsOf(c, s.sh), s) && OnConn(s, w) && PhaseWeight(s, w) > 0
    ensures ClientLowered(c, s, Broken(c, s, w))
  {
    AtWork(c, FactsOf(c, s.sh), s, w);
    HangupWeighs(c, s, w);
    HangupKeeps(c, FactsOf(c, s.sh), s, w);
    AttemptEnds(c, Hangup(s, w), w, false);
  }

  lemma ConnectedWeighs(c: Cfg, s: State, w: nat)
    requires NetInv(s) && BusyWorker(s, w)
    ensures ClientEffort(c, Connected(s, w)) <= ClientEffort(c, s)
    ensures ServerEffort(c, Connected(s, w)) <= ServerEffort(c, s) + 5
  {
    if s.net[w].None? {
      OthersWeighTheSame(s, Connected(s, w), w);
      TotalAppend(k => OpenDone(k), s.conns, FreshConn());
      TotalAppend(k => ConnWeight(k), s.conns, FreshConn());
    }
  }

  lemma AskLowers(c: Cfg, s: State, w: nat)
    requires Around(c, FactsOf(c, s.sh), s) && DoClient(c, s, Ask(w, true, true)).Some?
    ensures ClientLowered(c, s, DoClient(c, s, Ask(w, true, true)).value)
  {
    ConnectedWeighs(c, s, w);
    ConnectedKeeps(c, FactsOf(c, s.sh), s, w);
    var s' := Connected(s, w);
    var b, k := s'.pipe.movers[w].idx, TheConn(s', w);
    AttemptGoesOn(c, s', w, k.(up := k.up + [Request(c, b)], ph := Asked(b)));
  }

  lemma HearLowers(c: Cfg, s: State, w: nat)
    requires Around(c, FactsOf(c, s.sh), s) && DoClient(c, s, Hear(w)).Some?
    ensures ClientLowered(c, s, DoClient(c, s, Hear(w)).value)
  {
    AtWork(c, FactsOf(c, s.sh), s, w);
    var b, k := s.pipe.movers[w].idx, TheConn(s, w);
    HearKeeps(c, FactsOf(c, s.sh), k);
    var same := k.down[..16] == Packed(c, b).hash;
    var k' := k.(down := k.down[16..], ack := None, ph := if same then Quiet else Answered(b));
    AttemptGoesOn(c, s, w, k');
    if same {
      MoveKeeps(c, FactsOf(c, s.sh), s, w, k');
      AttemptEnds(c, s.(conns := s.conns[s.net[w].value := k']), w, true);
    }
  }

  lemma HeaderLowers(c: Cfg, s: State, w: nat)
    requires Around(c, FactsOf(c, s.sh), s) && DoClient(c, s, SendHead(w, true, true)).Some?
    ensures ClientLowered(c, s, DoClient(c, s, SendHead(w, true, true)).value)
  {
    var b, k := s.pipe.movers[w].idx, TheConn(s, w);
    AttemptGoesOn(c, s, w, k.(up := k.up + [DataHeader(c, b)], ph := HeadSent(b)));
  }

  /** The last write of an attempt. */
  lemma LastWriteLowers(c: Cfg, s: State, w: nat, it: Item, b: nat)
    requires Around(c, FactsOf(c, s.sh), s) && OnConn(s, w)
    requires var k := TheConn(s, w);
      ClientMove(c, FactsOf(c, s.sh), s, w, k.(up := k.up + [it], ph := Quiet, ack := Some(b)))
    requires !TheConn(s, w).ph.DoneSent?
    ensures var k := TheConn(s, w);
      var s' := s.(conns := s.conns[s.net[w].value := k.(up := k.up + [it], ph := Quiet, ack := Some(b))]);
      ClientLowered(c, s, EndAttempt(c, s', w, true))
  {
    var k := TheConn(s, w);
    var k' := k.(up := k.up + [it], ph := Quiet, ack := Some(b));
    AttemptGoesOn(c, s, w, k');
    MoveKeeps(c, FactsOf(c, s.sh), s, w, k');
    AttemptEnds(c, s.(conns := s.conns[s.net[w].value := k']), w, true);
  }

  lemma ZeroLowers(c: Cfg, s: State, w: nat)
    requires Around(c, FactsOf(c, s.sh), s) && DoClient(c, s, SendZero(w, true, true)).Some?
    ensures ClientLowered(c, s, DoClient(c, s, SendZero(w, true, true)).value)
  {
    AtWork(c, FactsOf(c, s.sh), s, w);
    var b := s.pipe.movers[w].idx;
    SendZeroKeeps(c, FactsOf(c, s.sh), TheConn(s, w));
    LastWriteLowers(c, s, w, ZeroNotice(c, b), b);
  }

  lemma PayloadLowers(c: Cfg, s: State, w: nat)
    requires Around(c, FactsOf(c, s.sh), s) && DoClient(c, s, SendBody(w, true, true)).Some?
    ensures ClientLowered(c, s, DoClient(c, s, SendBody(w, true, true)).value)
  {
    AtWork(c, FactsOf(c, s.sh), s, w);
    var b := s.pipe.movers[w].idx;
    SendBodyKeeps(c, FactsOf(c, s.sh), TheConn(s, w));
    LastWriteLowers(c, s, w, Body(ToSend(c, b)), b);
  }

  lemma NoPayloadLowers(c: Cfg, s: State, w: nat)
    requires Around(c, FactsOf(c, s.sh), s) && DoClient(c, s, NoPayload(w)).Some?
    ensures ClientLowered(c, s, DoClient(c, s, NoPayload(w)).value)
  {
    AtWork(c, FactsOf(c, s.sh), s, w);
    if s.pipe.movers[w].tries + 1 < Pipeline.MAX_TRIES {
      BrokenLowers(c, s, w);
    } else {
      var k' := TheConn(s, w).(ph := Quiet);
      GiveUpKeeps(c, FactsOf(c, s.sh), TheConn(s, w));
      AttemptGoesOn(c, s, w, k');
      MoveKeeps(c, FactsOf(c, s.sh), s, w, k');
      AttemptEnds(c, s.(conns := s.conns[s.net[w].value := k']), w, false);
    }
  }

  lemma StopShape(c: Cfg, s: State, w: nat)
    requires w < |s.net| && DoClient(c, s, Stop(w)).Some? && (s.net[w].Some? ==> s.net[w].value < |s.conns|)
    ensures var s' := if s.net[w].Some? then Hangup(s, w) else s;
      && Pipeline.Do(Pipe(c), s'.pipe, Pipeline.Stop(w)).Some?
      && DoClient(c, s, Stop(w)).value == s'.(pipe := Pipeline.Do(Pipe(c), s'.pipe, Pipeline.Stop(w)).value)
  {
    if s.net[w].None? {
      assert s.net[w := None] == s.net;
    }
  }

  lemma StopLowers(c: Cfg, s: State, w: nat)
    requires Around(c, FactsOf(c, s.sh), s) && DoClient(c, s, Stop(w)).Some?
    ensures ClientLowered(c, s, DoClient(c, s, Stop(w)).value)
  {
    assert WorkerInv(s, w);
    StopShape(c, s, w);
    if s.net[w].Some? {
      HangupWeighs(c, s, w);
      HangupKeeps(c, FactsOf(c, s.sh), s, w);
      PipeLowers(c, Hangup(s, w), Pipeline.Stop(w));
    } else {
      PipeLowers(c, s, Pipeline.Stop(w));
    }
  }

  lemma DoneLowers(c: Cfg, s: State, st: Step)
    requires Around(c, FactsOf(c, s.sh), s) && (st.SendDone? || st.CloseDone?) && Useful(s, st)
    requires DoClient(c, s, st).Some?
    ensures ClientLowered(c, s, DoClient(c, s, st).value)
  {
    var s' := DoClient(c, s, st).value;
    forall v | 0 <= v < |s.pipe.movers|
      ensures PhaseWeight(s', v) == PhaseWeight(s, v)
    {
      assert WorkerInv(s, v);
    }
    PhaseSumSame(s, s', |s.pipe.movers|);
    if st.SendDone? {
      TotalAppend(k => OpenDone(k), s.conns, s'.conns[|s.conns|]);
      TotalAppend(k => ConnWeight(k), s.conns, s'.conns[|s.conns|]);
    } else {
      TotalUpdate(k => OpenDone(k), s.conns, st.k, s'.conns[st.k]);
      TotalUpdate(k => ConnWeight(k), s.conns, st.k, s'.conns[st.k]);
    }
  }

  lemma ClientLowers(c: Cfg, s: State, st: Step)
    requires Around(c, FactsOf(c, s.sh), s) && ClientStep(st) && Useful(s, st) && DoClient(c, s, st).Some?
    ensures ClientLowered(c, s, DoClient(c, s, st).value)
  {
    match st
    case Inside(p) => PipeLowers(c, s, p);
    case Stop(w) => StopLowers(c, s, w);
    case Ask(w, _, _) => AskLowers(c, s, w);
    case Hear(w) => HearLowers(c, s, w);
    case HearFail(w) => BrokenLowers(c, s, w);
    case SendZero(w, _, _) => ZeroLowers(c, s, w);
    case SendHead(w, _, _) => HeaderLowers(c, s, w);
    case SendBody(w, _, _) => PayloadLowers(c, s, w);
    case NoPayload(w) => NoPayloadLowers(c, s, w);
    case SendDone(_) => DoneLowers(c, s, st);
    case CloseDone(_) => DoneLowers(c, s, st);
  }

  // ---- the server's steps ----

  lemma HandlerLowers(c: Cfg, sh: Shared, k: Conn, broken: bool)
    requires HandlerStep(c, sh, k, broken).Some?
    ensures var k' := HandlerStep(c, sh, k, broken).value.1;
      ConnWeight(k') < ConnWeight(k) && k'.ph == k.ph && k'.open == k.open
  {
    if k.h.Loop? && !broken {
      assert |k.up[1..]| == |k.up| - 1;
    } else if k.h.Serve? && k.h.m.dataSize > 0 && !broken {
      assert |k.up[1..]| == |k.up| - 1;
    }
  }

  /** The server changes connection `i` only, for the client not at all. */
  lemma ConnLowers(c: Cfg, s: State, i: nat, k: Conn, sh: Shared, main: MainLoop)
    requires i < |s.conns| && k.ph == s.conns[i].ph && k.open == s.conns[i].open
    requires ConnWeight(k) < ConnWeight(s.conns[i])
    requires sh.jobs == s.sh.jobs && main.exit == s.main.exit
    ensures var s' := s.(sh := sh, conns := s.conns[i := k], main := main);
      ClientEffort(c, s') == ClientEffort(c, s) && ServerEffort(c, s') < ServerEffort(c, s)
  {
    var s' := s.(sh := sh, conns := s.conns[i := k], main := main);
    forall v | 0 <= v < |s.pipe.movers|
      ensures PhaseWeight(s', v) == PhaseWeight(s, v)
    {
    }
    PhaseSumSame(s, s', |s.pipe.movers|);
    TotalUpdate(k => OpenDone(k), s.conns, i, k);
    TotalUpdate(k => ConnWeight(k), s.conns, i, k);
  }

  lemma JobLowers(c: Cfg, s: State, i: nat, job: Job, sh: Shared)
    requires i <= MaxId(c) && sh.jobs == s.sh.jobs[i := job] && JobWeight(sh.jobs, i) < JobWeight(s.sh.jobs, i)
    ensures var s' := s.(sh := sh);
      ClientEffort(c, s') == ClientEffort(c, s) && ServerEffort(c, s') < ServerEffort(c, s)
  {
    var s' := s.(sh := sh);
    PhaseSumSame(s, s', |s.pipe.movers|);
    JobSumChange(s.sh.jobs, i, job, MaxId(c) + 1);
  }

  lemma HandleKeepsJobs(c: Cfg, sh: Shared, k: Conn, broken: bool)
    requires HandlerStep(c, sh, k, broken).Some?
    ensures HandlerStep(c, sh, k, broken).value.0.jobs == sh.jobs
  {
  }

  lemma HandleLowers(c: Cfg, s: State, i: nat, broken: bool)
    requires i < |s.conns| && HandlerStep(c, s.sh, s.conns[i], broken).Some?
    ensures var s' := DoServer(c, s, Handle(i, broken)).value;
      ClientEffort(c, s') == ClientEffort(c, s) && ServerEffort(c, s') < ServerEffort(c, s)
  {
    var (sh', k') := HandlerStep(c, s.sh, s.conns[i], broken).value;
    HandlerLowers(c, s.sh, s.conns[i], broken);
    HandleKeepsJobs(c, s.sh, s.conns[i], broken);
    HandleShape(c, s, i, broken);
    ConnLowers(c, s, i, k', sh', MainAfter(s.main, s.conns[i]));
  }

  lemma TimerLowers(c: Cfg, s: State)
    requires s.main.exit.Serving? && s.main.armed && s.main.active == 0
    ensures var s' := DoServer(c, s, Fire).value;
      ClientEffort(c, s') == ClientEffort(c, s) && ServerEffort(c, s') < ServerEffort(c, s)
  {
    PhaseSumSame(s, DoServer(c, s, Fire).value, |s.pipe.movers|);
  }

  lemma CountLowers(c: Cfg, s: State, st: Step)
    requires (st.Accept? || st.Check? || st.Leave?) && DoServer(c, s, st).Some?
    ensures var s' := DoServer(c, s, st).value;
      ClientEffort(c, s') == ClientEffort(c, s) && ServerEffort(c, s') < ServerEffort(c, s)
  {
    var s' := DoServer(c, s, st).value;
    ConnLowers(c, s, st.k, s'.conns[st.k], s.sh, s'.main);
  }

  lemma PoolLowers(c: Cfg, s: State, st: Step)
    requires SharedInv(c, s.sh) && (st.JobRead? || st.JobStore?) && DoServer(c, s, st).Some?
    ensures var s' := DoServer(c, s, st).value;
      ClientEffort(c, s') == ClientEffort(c, s) && ServerEffort(c, s') < ServerEffort(c, s)
  {
    var s' := DoServer(c, s, st).value;
    JobLowers(c, s, st.i, s'.sh.jobs[st.i], s'.sh);
  }

  lemma ServerLowers(c: Cfg, s: State, st: Step)
    requires SysInv(c, s) && s.main.exit.Serving? && !ClientStep(st) && Useful(s, st) && DoServer(c, s, st).Some?
    ensures var s' := DoServer(c, s, st).value;
      ClientEffort(c, s') == ClientEffort(c, s) && ServerEffort(c, s') < ServerEffort(c, s)
  {
    match st
    case Accept(_) => CountLowers(c, s, st);
    case Handle(i, broken) => HandleLowers(c, s, i, broken);
    case Check(_) => CountLowers(c, s, st);
    case Leave(_) => CountLowers(c, s, st);
    case JobRead(_) => PoolLowers(c, s, st);
    case JobStore(_) => PoolLowers(c, s, st);
    case Fire => TimerLowers(c, s);
  }

  /** Every step without a fault, of client or server, leaves strictly less to do. */
  lemma UsefulStepLowers(c: Cfg, s: State, st: Step)
    requires SysInv(c, s) && Moves(c, s, st)
    ensures Effort(c, Do(c, s, st).value) < Effort(c, s)
  {
    if ClientStep(st) {
      ClientLowers(c, s, st);
    } else {
      ServerLowers(c, s, st);
    }
  }

  // ---- runs without faults ----

  /** The shutdown timer fires while handlers are still counted. */
  ghost predicate FiresEarly(c: Cfg, s: State, st: Step) {
    st.Fire? && s.main.active != 0 && Do(c, s, st).Some?
  }

  /** No step is a fault; the shutdown timer may also fire early, any number of times. */
  ghost predicate FaultFree(c: Cfg, s: State, steps: seq<Step>)
    decreases steps
  {
    steps == [] ||
    ((Moves(c, s, steps[0]) || FiresEarly(c, s, steps[0])) && FaultFree(c, Do(c, s, steps[0]).value, steps[1..]))
  }

  /** The steps that are not early firings. */
  ghost function UsefulSteps(c: Cfg, s: State, steps: seq<Step>): nat
    decreases steps
  {
    if steps == [] || Do(c, s, steps[0]).None? then 0
    else (if FiresEarly(c, s, steps[0]) then 0 else 1) + UsefulSteps(c, Do(c, s, steps[0]).value, steps[1..])
  }

  /** A timer that fires early is armed again, and nothing else happens. */
  lemma ArmedAgain(c: Cfg, s: State, st: Step)
    requires FiresEarly(c, s, st)
    ensures Do(c, s, st).value == s
  {
  }

  lemma OneStepCounts(c: Cfg, s: State, st: Step)
    requires SysInv(c, s) && (Moves(c, s, st) || FiresEarly(c, s, st))
    ensures SysInv(c, Do(c, s, st).value)
    ensures Effort(c, Do(c, s, st).value) + (if FiresEarly(c, s, st) then 0 else 1) <= Effort(c, s)
  {
    StepKeeps(c, s, st);
    if FiresEarly(c, s, st) {
      ArmedAgain(c, s, st);
    } else {
      UsefulStepLowers(c, s, st);
    }
  }

  /** No run without faults has more steps, early firings apart, than there was to do. */
  lemma {:induction false} FaultFreeRunsAreFinite(c: Cfg, s: State, steps: seq<Step>)
    requires SysInv(c, s) && FaultFree(c, s, steps)
    ensures Run(c, s, steps).Some? && SysInv(c, Run(c, s, steps).value)
    ensures UsefulSteps(c, s, steps) + Effort(c, Run(c, s, steps).value) <= Effort(c, s)
    decreases steps
  {
    if steps != [] {
      OneStepCounts(c, s, steps[0]);
      FaultFreeRunsAreFinite(c, Do(c, s, steps[0]).value, steps[1..]);
    }
  }

  /** From any reachable state, whatever faults led there: the steps without a fault that follow are
      limited in number, however often the timer fires early, and when none is left the server has
      exited or hangs. */
  lemma FaultsStopThenItEnds(c: Cfg, s: State, steps: seq<Step>)
    requires Hypotheses(c) && CanEnd(c) && Reachable(c, s) && FaultFree(c, s, steps)
    ensures Run(c, s, steps).Some? && UsefulSteps(c, s, steps) <= Effort(c, s)
    ensures var t := Run(c, s, steps).value;
      (forall st :: !Moves(c, t, st)) ==> t.main.exit.TimerExit? || Hanging(t)
  {
    ReachableInv(c, s);
    OpenMeansOwned(c, s);
    FaultFreeRunsAreFinite(c, s, steps);
    RunKeepsOwners(c, s, steps);
    var t := Run(c, s, steps).value;
    if t.main.exit.Serving? && !Hanging(t) {
      var st := MoveExists(c, t);
    }
  }

  // ---- a running shutdown timer ----

  /** Only a new connection stops a running shutdown timer: every other step leaves it running, or
      ends the server, and its firing ends the server exactly when no handler is counted. */
  lemma OnlyAcceptStopsTimer(c: Cfg, s: State, st: Step)
    requires s.main.armed && s.main.exit.Serving? && Do(c, s, st).Some?
    ensures var t := Do(c, s, st).value; t.main.armed || !t.main.exit.Serving? <==> !st.Accept?
    ensures st.Fire? ==> (Do(c, s, st).value.main.exit.TimerExit? <==> s.main.active == 0)
  {
    if ClientStep(st) {
      ClientLeavesMain(c, s, st);
    } else {
      TimerAmongServer(c, s, st);
    }
  }

  lemma ClientLeavesMain(c: Cfg, s: State, st: Step)
    requires ClientStep(st) && DoClient(c, s, st).Some?
    ensures DoClient(c, s, st).value.main == s.main
  {
  }

  lemma TimerAmongServer(c: Cfg, s: State, st: Step)
    requires s.main.armed && s.main.exit.Serving? && DoServer(c, s, st).Some?
    ensures var t := DoServer(c, s, st).value; t.main.armed || !t.main.exit.Serving? <==> !st.Accept?
    ensures st.Fire? ==> (DoServer(c, s, st).value.main.exit.TimerExit? <==> s.main.active == 0)
  {
  }

  ghost predicate NoneWaiting(s: State) {
    forall k :: 0 <= k < |s.conns| ==> !s.conns[k].h.Backlog?
  }

  lemma ClientHasFinished(c: Cfg, s: State)
    requires SysInv(c, s) && s.main.armed
    ensures s.doneSent && forall w: nat :: !BusyWorker(s, w)
  {
  }

  lemma NoNewConnection(c: Cfg, s: State, st: Step)
    requires s.doneSent && (forall w: nat :: !BusyWorker(s, w))
    requires NoneWaiting(s) && ClientStep(st) && DoClient(c, s, st).Some?
    ensures NoneWaiting(DoClient(c, s, st).value)
  {
    assert st.Inside? || st.Stop? || st.CloseDone? || st.Drop?;
  }

  lemma ServerMakesNone(c: Cfg, s: State, st: Step)
    requires NoneWaiting(s) && DoServer(c, s, st).Some?
    ensures NoneWaiting(DoServer(c, s, st).value)
  {
    if st.Handle? {
      HandlerAccepted(c, s.sh, s.conns[st.k], st.broken);
    }
  }

  lemma HandlerAccepted(c: Cfg, sh: Shared, k: Conn, broken: bool)
    requires HandlerStep(c, sh, k, broken).Some?
    ensures !HandlerStep(c, sh, k, broken).value.1.h.Backlog?
  {
  }

  lemma ExitIsFinal(c: Cfg, s: State, st: Step)
    requires !s.main.exit.Serving? && Do(c, s, st).Some?
    ensures Do(c, s, st).value.main == s.main
  {
  }

  /** The server has exited, or its timer runs and no connection waits to be accepted. */
  ghost predicate Ticking(s: State) {
    !s.main.exit.Serving? || (s.main.armed && NoneWaiting(s))
  }

  lemma StepTicks(c: Cfg, s: State, st: Step)
    requires SysInv(c, s) && Ticking(s) && Do(c, s, st).Some?
    ensures Ticking(Do(c, s, st).value)
  {
    if !s.main.exit.Serving? {
      ExitIsFinal(c, s, st);
    } else {
      OnlyAcceptStopsTimer(c, s, st);
      if ClientStep(st) {
        ClientHasFinished(c, s);
        NoNewConnection(c, s, st);
      } else {
        ServerMakesNone(c, s, st);
      }
    }
  }

  lemma {:induction false} RunTicks(c: Cfg, s: State, steps: seq<Step>)
    requires SysInv(c, s) && Ticking(s) && Run(c, s, steps).Some?
    ensures Ticking(Run(c, s, steps).value)
    decreases steps
  {
    if steps != [] {
      StepKeeps(c, s, steps[0]);
      StepTicks(c, s, steps[0]);
      RunTicks(c, Do(c, s, steps[0]).value, steps[1..]);
    }
  }

  /** A running timer with no connection waiting to be accepted ends the server, whatever faults led
      there: a run without further faults that can go no further has ended with the timer's exit. */
  lemma RunningTimerEnds(c: Cfg, s: State, steps: seq<Step>)
    requires Hypotheses(c) && CanEnd(c) && Reachable(c, s) && s.main.exit.Serving?
    requires s.main.armed && forall k :: 0 <= k < |s.conns| ==> !s.conns[k].h.Backlog?
    requires FaultFree(c, s, steps)
    ensures Run(c, s, steps).Some? && UsefulSteps(c, s, steps) <= Effort(c, s)
    ensures var t := Run(c, s, steps).value; t.main.armed || !t.main.exit.Serving?
    ensures var t := Run(c, s, steps).value;
      (forall st :: !Moves(c, t, st)) ==> t.main.exit.TimerExit?
  {
    ReachableInv(c, s);
    FaultsStopThenItEnds(c, s, steps);
    RunTicks(c, s, steps);
  }
}
