/** Building runs step by step: each lemma here adds one action of one goroutine to a reachable
    state, whatever else that state holds (client.go, server.go). */
module Runs {
  import opened Basics
  import opened Blocks
  import opened Wire
  import opened Protocol

  lemma {:induction false} RunThen(c: Cfg, s: State, steps: seq<Step>, st: Step)
    requires Run(c, s, steps).Some?
    ensures Run(c, s, steps + [st]) == Do(c, Run(c, s, steps).value, st)
    decreases steps
  {
    if steps == [] {
      assert [] + [st] == [st] && [st][1..] == [];
    } else {
      assert (steps + [st])[1..] == steps[1..] + [st];
      RunThen(c, Do(c, s, steps[0]).value, steps[1..], st);
    }
  }

  lemma InitReachable(c: Cfg)
    ensures Reachable(c, Init(c))
  {
    assert Run(c, Init(c), []) == Some(Init(c));
  }

  lemma Next(c: Cfg, s: State, st: Step, t: State)
    requires Reachable(c, s) && Do(c, s, st) == Some(t)
    ensures Reachable(c, t)
  {
    var steps :| Run(c, Init(c), steps) == Some(s);
    RunThen(c, Init(c), steps, st);
  }

  // ---- the handlers ----

  ghost function AfterAccept(main: MainLoop): MainLoop {
    main.(active := main.active + 1, had := true, armed := false, idleArmed := false)
  }

  lemma Accepted(c: Cfg, s: State, i: nat)
    requires Reachable(c, s) && i < |s.conns| && s.conns[i].h.Backlog? && s.main.exit.Serving?
    ensures Reachable(c, s.(conns := s.conns[i := s.conns[i].(h := Loop)],
      main := AfterAccept(s.main)))
  {
    Next(c, s, Accept(i), s.(conns := s.conns[i := s.conns[i].(h := Loop)], main := AfterAccept(s.main)));
  }

  lemma Handled(c: Cfg, s: State, i: nat, broken: bool, sh: Shared, k: Conn)
    requires Reachable(c, s) && s.main.exit.Serving? && i < |s.conns| && !s.conns[i].h.Closing?
    requires HandlerStep(c, s.sh, s.conns[i], broken) == Some((sh, k))
    ensures Reachable(c, s.(sh := sh, conns := s.conns[i := k]))
  {
    Next(c, s, Handle(i, broken), s.(sh := sh, conns := s.conns[i := k]));
  }

  lemma HandledTwice(c: Cfg, s: State, i: nat, sh: Shared, k: Conn, sh': Shared, k': Conn)
    requires Reachable(c, s) && s.main.exit.Serving? && i < |s.conns| && !s.conns[i].h.Closing? && !k.h.Closing?
    requires HandlerStep(c, s.sh, s.conns[i], false) == Some((sh, k))
    requires HandlerStep(c, sh, k, false) == Some((sh', k'))
    ensures Reachable(c, s.(sh := sh', conns := s.conns[i := k']))
  {
    Handled(c, s, i, false, sh, k);
    Handled(c, s.(sh := sh, conns := s.conns[i := k]), i, false, sh', k');
    assert s.conns[i := k][i := k'] == s.conns[i := k'];
  }

  /** The shared memory once the file has the source's length. */
  ghost function Sized(c: Cfg, sh: Shared): Shared {
    sh.(dst := Resized(sh.dst, |c.src|), resized := true)
  }

  /** A header of this upload is read, and the file is sized. */
  lemma HeaderRead(c: Cfg, s: State, i: nat, head: Msg, rest: seq<Item>)
    requires Reachable(c, s) && s.main.exit.Serving? && i < |s.conns| && Last(c) == 0
    requires s.conns[i].h.Loop? && s.conns[i].last == 0 && s.conns[i].up == [Head(head)] + rest
    requires head.magic == MAGIC && head.blockSize == c.bs && head.fileSize == |c.src|
    ensures Reachable(c, s.(sh := Sized(c, s.sh), conns := s.conns[i := s.conns[i].(up := rest, h := Serve(head))]))
  {
    var k := s.conns[i];
    assert k.up[1..] == rest;
    var k1 := k.(up := rest, h := Measure(head));
    if |s.sh.dst| == |c.src| {
      assert Sized(c, s.sh) == s.sh.(resized := true);
      HandledTwice(c, s, i, s.sh, k1, Sized(c, s.sh), k1.(h := Serve(head)));
    } else {
      HandledTwice(c, s, i, s.sh, k1, s.sh, k1.(h := Truncate(head)));
      var mid := s.(conns := s.conns[i := k1.(h := Truncate(head))]);
      assert s.(sh := s.sh) == s;
      Handled(c, mid, i, false, Sized(c, s.sh), k1.(h := Serve(head)));
      assert mid.conns[i := k1.(h := Serve(head))] == s.conns[i := k1.(h := Serve(head))];
    }
  }

  // ---- the server's count and timer ----

  ghost function WithHandler(s: State, i: nat, h: Handler): State
    requires i < |s.conns|
  {
    s.(conns := s.conns[i := s.conns[i].(h := h)])
  }

  /** The handler of connection `i` has been counted out. */
  ghost function Counted(s: State, i: nat): State
    requires i < |s.conns|
  {
    s.(conns := s.conns[i := s.conns[i].(h := Gone)], main := s.main.(active := s.main.active - 1))
  }

  lemma CountedAfter(s: State, i: nat, h: Handler)
    requires i < |s.conns|
    ensures Counted(WithHandler(s, i, h), i) == Counted(s, i)
    ensures forall h' :: WithHandler(WithHandler(s, i, h), i, h') == WithHandler(s, i, h')
  {
    forall h'
      ensures s.conns[i := s.conns[i].(h := h)][i := s.conns[i].(h := h')] == s.conns[i := s.conns[i].(h := h')]
    {
    }
  }

  lemma OwnTest(c: Cfg, s: State, i: nat)
    requires Reachable(c, s) && i < |s.conns| && s.conns[i].h.Returned? && s.main.exit.Serving? && s.main.active >= 1
    ensures Reachable(c, WithHandler(s, i, Checked))
  {
    Next(c, s, Check(i), WithHandler(s, i, Checked));
  }

  lemma CountsDown(c: Cfg, s: State, i: nat)
    requires Reachable(c, s) && i < |s.conns| && s.conns[i].h.Checked? && s.main.exit.Serving?
    ensures Reachable(c, Counted(s, i))
  {
    Next(c, s, Leave(i), Counted(s, i));
  }

  /** A handler that has returned is counted out. */
  lemma CountedOut(c: Cfg, s: State, i: nat)
    requires Reachable(c, s) && i < |s.conns| && s.conns[i].h.Returned? && s.main.exit.Serving? && s.main.active >= 1
    ensures Reachable(c, Counted(s, i))
  {
    OwnTest(c, s, i);
    CountsDown(c, WithHandler(s, i, Checked), i);
    CountedAfter(s, i, Checked);
  }

  lemma LoopEnds(c: Cfg, s: State, i: nat)
    requires Reachable(c, s) && i < |s.conns| && s.conns[i].h.Loop? && s.main.exit.Serving?
    requires s.conns[i].dropped || (s.conns[i].up == [] && !s.conns[i].open)
    ensures Reachable(c, WithHandler(s, i, Returned))
  {
    Handled(c, s, i, true, s.sh, s.conns[i].(h := Returned));
    assert s.(sh := s.sh) == s;
  }

  /** A handler that finds its stream at an end, or its connection dropped, returns and is counted out. */
  lemma Leaves(c: Cfg, s: State, i: nat)
    requires Reachable(c, s) && i < |s.conns| && s.conns[i].h.Loop? && s.main.exit.Serving? && s.main.active >= 1
    requires s.conns[i].dropped || (s.conns[i].up == [] && !s.conns[i].open)
    ensures Reachable(c, Counted(s, i))
  {
    LoopEnds(c, s, i);
    CountedOut(c, WithHandler(s, i, Returned), i);
    CountedAfter(s, i, Returned);
  }

  lemma TimerFires(c: Cfg, s: State)
    requires Reachable(c, s) && s.main.armed && s.main.exit.Serving? && s.main.active == 0
    ensures Reachable(c, s.(main := s.main.(armed := false, exit := TimerExit)))
  {
    Next(c, s, Fire, s.(main := s.main.(armed := false, exit := TimerExit)));
  }

  // ---- the DONE message ----

  ghost function DoneConn(c: Cfg, arrives: bool, h: Handler): Conn {
    FreshConn().(ph := DoneSent, open := arrives, up := if arrives then [DoneMessage(c)] else [], h := h)
  }

  ghost predicate WorkersStopped(s: State) {
    forall w :: 0 <= w < |s.pipe.movers| ==> s.pipe.movers[w].Stopped?
  }

  /** The DONE connection is there, its handler at `h`. */
  ghost function DoneOut(c: Cfg, s: State, arrives: bool, h: Handler, main: MainLoop): State {
    s.(conns := s.conns + [DoneConn(c, arrives, h)], doneSent := true, main := main)
  }

  lemma DoneWritten(c: Cfg, s: State, arrives: bool)
    requires Reachable(c, s) && !s.doneSent && WorkersStopped(s)
    ensures Reachable(c, DoneOut(c, s, arrives, Backlog, s.main))
  {
    Next(c, s, SendDone(arrives), DoneOut(c, s, arrives, Backlog, s.main));
  }

  lemma AcceptedDone(c: Cfg, s: State, arrives: bool)
    ensures var t := DoneOut(c, s, arrives, Backlog, s.main);
      t.(conns := t.conns[|s.conns| := t.conns[|s.conns|].(h := Loop)], main := AfterAccept(s.main))
      == DoneOut(c, s, arrives, Loop, AfterAccept(s.main))
  {
    var t := DoneOut(c, s, arrives, Backlog, s.main);
    assert t.conns[|s.conns| := t.conns[|s.conns|].(h := Loop)] == s.conns + [DoneConn(c, arrives, Loop)];
  }

  /** DONE is sent on a new connection, arriving or not, and the connection is accepted. */
  lemma DoneAccepted(c: Cfg, s: State, arrives: bool)
    requires Reachable(c, s) && !s.doneSent && WorkersStopped(s) && s.main.exit.Serving?
    ensures Reachable(c, DoneOut(c, s, arrives, Loop, AfterAccept(s.main)))
  {
    DoneWritten(c, s, arrives);
    AcceptedDone(c, s, arrives);
    Accepted(c, DoneOut(c, s, arrives, Backlog, s.main), |s.conns|);
  }

  /** The DONE connection's handler has answered and is at `h`. */
  ghost function DoneAt(c: Cfg, s: State, i: nat, h: Handler, hash: Bytes, main: MainLoop): State
    requires i < |s.conns|
  {
    s.(sh := Sized(c, s.sh), conns := s.conns[i := DoneConn(c, true, h).(up := [], down := hash)], main := main)
  }

  lemma DoneAnswered(c: Cfg, s: State, i: nat, hash: Bytes)
    requires i < |s.conns| && s.main.exit.Serving? && WaitFor(c, s.sh, 0) == Some(hash)
    requires Reachable(c, DoneAt(c, s, i, Serve(DoneMessage(c).msg), [], s.main))
    ensures Reachable(c, DoneAt(c, s, i, Closing, hash, s.main))
  {
    var t := DoneAt(c, s, i, Serve(DoneMessage(c).msg), [], s.main);
    var k := DoneConn(c, true, Closing).(up := [], down := hash);
    assert [] + hash == hash;
    Handled(c, t, i, false, t.sh, k);
    assert t.conns[i := k] == s.conns[i := k];
  }

  lemma DoneShuts(c: Cfg, s: State, i: nat, hash: Bytes, main: MainLoop)
    requires i < |s.conns| && Reachable(c, DoneAt(c, s, i, Closing, hash, s.main)) && s.main.exit.Serving?
    requires main == s.main.(done := true, armed := true)
    ensures Reachable(c, DoneAt(c, s, i, Returned, hash, main))
  {
    var t, u := DoneAt(c, s, i, Closing, hash, s.main), DoneAt(c, s, i, Returned, hash, main);
    assert t.conns[i := t.conns[i].(h := Returned)] == u.conns;
    assert t.(sh := t.sh) == t;
    Next(c, t, Handle(i, false), u);
  }

  lemma DoneCountedOut(c: Cfg, s: State, i: nat, hash: Bytes, main: MainLoop)
    requires i < |s.conns|
    ensures Counted(DoneAt(c, s, i, Returned, hash, main), i)
      == DoneAt(c, s, i, Gone, hash, main.(active := main.active - 1))
  {
    var conns := s.conns[i := DoneConn(c, true, Returned).(up := [], down := hash)];
    assert conns[i := DoneConn(c, true, Gone).(up := [], down := hash)]
      == s.conns[i := DoneConn(c, true, Gone).(up := [], down := hash)];
  }

  lemma DoneRead(c: Cfg, s: State, i: nat)
    requires Reachable(c, s) && i < |s.conns| && s.conns[i] == DoneConn(c, true, Loop) && s.main.exit.Serving?
    requires Last(c) == 0
    ensures Reachable(c, DoneAt(c, s, i, Serve(DoneMessage(c).msg), [], s.main))
  {
    var m := DoneMessage(c).msg;
    assert [DoneMessage(c)] == [Head(m)] + [];
    HeaderRead(c, s, i, m, []);
  }

  lemma DoneCloses(c: Cfg, s: State, i: nat, hash: Bytes)
    requires Reachable(c, s) && i < |s.conns| && s.conns[i] == DoneConn(c, true, Loop) && s.main.exit.Serving?
    requires Last(c) == 0 && WaitFor(c, s.sh, 0) == Some(hash)
    ensures Reachable(c, DoneAt(c, s, i, Closing, hash, s.main))
  {
    DoneRead(c, s, i);
    DoneAnswered(c, s, i, hash);
  }

  lemma DoneEnds(c: Cfg, s: State, i: nat, hash: Bytes, main: MainLoop)
    requires i < |s.conns| && Reachable(c, DoneAt(c, s, i, Returned, hash, main))
    requires main.exit.Serving? && main.active >= 1
    ensures Reachable(c, DoneAt(c, s, i, Gone, hash, main.(active := main.active - 1)))
  {
    CountedOut(c, DoneAt(c, s, i, Returned, hash, main), i);
    DoneCountedOut(c, s, i, hash, main);
  }

  /** With a hash for block 0 to answer with, the handler of an arrived DONE begins the shutdown and is
      counted out. */
  lemma DoneServed(c: Cfg, s: State, i: nat, hash: Bytes, main: MainLoop)
    requires Reachable(c, s) && i < |s.conns| && s.conns[i] == DoneConn(c, true, Loop) && s.main.exit.Serving?
    requires Last(c) == 0 && WaitFor(c, s.sh, 0) == Some(hash) && s.main.active >= 1
    requires main == s.main.(done := true, armed := true)
    ensures Reachable(c, DoneAt(c, s, i, Gone, hash, main.(active := main.active - 1)))
  {
    DoneCloses(c, s, i, hash);
    DoneShuts(c, s, i, hash, main);
    DoneEnds(c, s, i, hash, main);
  }
}
