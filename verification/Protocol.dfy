/** One upload as a concurrent system: the client's transfer workers, the connections, the
    server's handlers, its hash pool and its shutdown timers, all sharing one destination file
    and one checksum cache (client.go, server.go, checksum.go, main.go).

    A step of the system is one action of one goroutine, of the network or of a timer; `Do`
    says what the step changes, and None that it cannot happen now. The network may drop any
    connection at any time, and a write may be reported as failed whether or not it arrived. */
module Protocol {
  import opened Basics
  import opened Blocks
  import opened Hashing
  import opened Wire
  import opened Packing
  import opened Checksum
  import Pipeline

  // ---- the run's parameters ----

  datatype Config = Config(
    src: Bytes,          // the source file
    prior: Bytes,        // the destination file before the run
    bs: uint32,          // the client's block size
    srvBs: uint32,       // the block size the server was started with
    skip: uint32,        // the client's first block
    srvSkip: uint32,     // the server's first precomputed block
    workers: nat,        // the client's workers
    srvWorkers: nat,     // the server's hash workers
    noCompress: bool,
    codec: Codec)

  /** The sizes for which the source's machine arithmetic does not wrap. */
  predicate Bounded(c: Config) {
    && 0 < c.bs && 0 < c.srvBs
    && 0 < |c.src| < 0x8000_0000_0000_0000 && |c.prior| < 0x8000_0000_0000_0000
    && LastBlock(|c.src|, c.bs) < 0xffff_ffff
    && (0 < |c.prior| ==> LastBlock(|c.prior|, c.srvBs) < 0xffff_ffff)
  }

  type Cfg = c: Config | Bounded(c)
    witness Config([1], [1], 1, 1, 0, 0, 1, 1, false, Codec(x => x, x => Some(x)))

  /** Go's conversion to uint32. */
  function U32(n: nat): uint32 {
    n % 0x1_0000_0000
  }

  function Last(c: Cfg): nat {
    LastBlock(|c.src|, c.bs)
  }

  /** The cache's maxId: the last block of the old destination, or 0 when it was empty. */
  function MaxId(c: Cfg): nat {
    if 0 < |c.prior| then LastBlock(|c.prior|, c.srvBs) else 0
  }

  function SrcBlock(c: Cfg, i: nat): Bytes {
    BlockOf(c.src, c.bs, i)
  }

  function Packed(c: Cfg, i: nat): PackedBlock {
    PackBlock(c.codec, i, SrcBlock(c, i))
  }

  function ToSend(c: Cfg, i: nat): Bytes {
    Payload(c.noCompress, Packed(c, i)).0
  }

  function Pipe(c: Cfg): Pipeline.Params {
    Pipeline.Params(c.skip, Last(c), c.workers)
  }

  // ---- the messages the client sends ----

  function Request(c: Cfg, i: nat): Item {
    Head(Msg(MAGIC, U32(i), c.bs, |c.src|, 0, false, false, false))
  }

  function ZeroNotice(c: Cfg, i: nat): Item {
    Head(Msg(MAGIC, U32(i), c.bs, |c.src|, 0, false, true, false))
  }

  function DataHeader(c: Cfg, i: nat): Item {
    Head(Msg(MAGIC, U32(i), c.bs, |c.src|, U32(|ToSend(c, i)|), Payload(c.noCompress, Packed(c, i)).1, false, false))
  }

  function DoneMessage(c: Cfg): Item {
    Head(Msg(MAGIC, 0, c.bs, |c.src|, 0, false, false, true))
  }

  // ---- the server's shared memory ----

  /** One block of the precompute pool's range: not yet read, read by a worker, hash stored. */
  datatype Job = Todo | Reading(data: Bytes) | Stored

  /** `resized` is a history variable: some handler has found or made the destination as
      long as the source. */
  datatype Shared = Shared(dst: Bytes, resized: bool, cache: map<nat, Bytes>, jobs: map<nat, Job>)

  /** What WaitFor returns; None as long as it would block. */
  function WaitFor(c: Cfg, sh: Shared, i: nat): Option<Bytes> {
    Lookup(MaxId(c), sh.cache, i)
  }

  // ---- one connection and its handler ----

  /** Where a handler is: waiting to be accepted, reading, sizing the file, serving the
      message, between a write and its cache entry, finished and counted out. */
  datatype Handler =
    | Backlog | Loop
    | Measure(m: Msg) | Truncate(m: Msg) | Serve(m: Msg)
    | ZeroOut(m: Msg) | ZeroMark(m: Msg)
    | Store(m: Msg, data: Bytes) | Mark(m: Msg, data: Bytes)
    | Closing | Returned | Checked | Gone

  /** Where the client is on a connection. */
  datatype Phase = Quiet | Asked(idx: nat) | Answered(idx: nat) | HeadSent(idx: nat) | DoneSent

  /** `ack` is a history variable: the block last sent in full on this connection, until the
      next reply has been read. */
  datatype Conn = Conn(
    up: seq<Item>, down: Bytes, open: bool, dropped: bool,
    h: Handler, last: nat, ph: Phase, ack: Option<nat>)

  function FreshConn(): Conn {
    Conn([], [], true, false, Backlog, 0, Quiet, None)
  }

  /** Where in the file a message's block begins. */
  function Offset(m: Msg): nat {
    m.idx * m.blockSize
  }

  /** The value of a 64-bit word read as a signed integer. */
  function Int64(n: nat): int {
    var w := n % 0x1_0000_0000_0000_0000;
    if w < 0x8000_0000_0000_0000 then w else w - 0x1_0000_0000_0000_0000
  }

  /** The offset is not negative as an int64, so that the file can be read and written there. */
  predicate Addressable(m: Msg) {
    Offset(m) < 0x8000_0000_0000_0000
  }

  /** The source multiplies two int64 values: the product is the offset, or negative. */
  lemma AddressableIff(m: Msg)
    ensures Addressable(m) <==> Int64(Offset(m)) >= 0
    ensures Addressable(m) ==> Int64(Offset(m)) == Offset(m)
  {
    ProductBound(m.idx, m.blockSize);
  }

  lemma ProductBound(a: uint32, b: uint32)
    ensures a * b < 0x1_0000_0000_0000_0000
  {
    Blocks.MulMonotone(a, 0xffff_ffff, b);
  }

  /** One step of a handler. `broken` chooses the error branch of a network operation, which
      is there when the connection was dropped, or at the end of a closed stream. A step on
      which the process ends, by a panic or a failed truncation, is not a step; a read or write
      at a negative offset fails and ends the loop. */
  function HandlerStep(c: Cfg, sh: Shared, k: Conn, broken: bool): Option<(Shared, Conn)> {
    match k.h
    case Loop =>
      if broken then
        if k.dropped || (k.up == [] && !k.open) then Some((sh, k.(h := Returned))) else None
      else if k.up == [] || k.up[0].Body? then None
      else
        var m, k' := k.up[0].msg, k.(up := k.up[1..]);
        if m.magic != MAGIC then Some((sh, k'.(h := Returned)))
        else if m.fileSize > 0 && k.last == 0 then
          if m.blockSize == 0 then None
          else Some((sh, k'.(h := Measure(m), last := U32(LastBlock(m.fileSize, m.blockSize)))))
        else Some((sh, k'.(h := Serve(m))))
    case Measure(m) =>
      if |sh.dst| != m.fileSize then Some((sh, k.(h := Truncate(m))))
      else Some((sh.(resized := true), k.(h := Serve(m))))
    case Truncate(m) =>
      if m.fileSize >= 0x8000_0000_0000_0000 then None
      else Some((sh.(dst := Resized(sh.dst, m.fileSize), resized := true), k.(h := Serve(m))))
    case Serve(m) =>
      if m.dataSize == 0 && !m.zero && !Addressable(m) then Some((sh, k.(h := Returned)))
      else if m.dataSize == 0 then
        match WaitFor(c, sh, m.idx) {
          case None => None
          case Some(hash) =>
            if m.zero then Some((sh, k.(h := if hash == ZERO_HASH || hash == EOF_MARK then Loop else ZeroOut(m))))
            else if broken then
              if k.dropped || !k.open then Some((sh, k.(h := Returned))) else None
            else Some((sh, k.(down := k.down + hash, h := if m.done then Closing else Loop)))
        }
      else if m.dataSize > m.blockSize then None
      else if broken then
        if k.dropped || (k.up == [] && !k.open) then Some((sh, k.(h := Returned))) else None
      else if k.up == [] || k.up[0].Head? || |k.up[0].data| != m.dataSize then None
      else
        var k' := k.(up := k.up[1..]);
        match Restore(c.codec, k.up[0].data, m.compressed) {
          case None => Some((sh, k'.(h := Returned)))
          case Some(data) => Some((sh, k'.(h := Store(m, data))))
        }
    case ZeroOut(m) =>
      if !Addressable(m) then Some((sh, k.(h := Returned)))
      else Some((sh.(dst := Written(sh.dst, Offset(m), Zeros(m.blockSize))), k.(h := ZeroMark(m))))
    case ZeroMark(m) =>
      Some((sh.(cache := sh.cache[m.idx := ZERO_HASH]), k.(h := Loop)))
    case Store(m, data) =>
      if !Addressable(m) then Some((sh, k.(h := Returned)))
      else Some((sh.(dst := Written(sh.dst, Offset(m), data)), k.(h := Mark(m, data))))
    case Mark(m, data) =>
      Some((sh.(cache := sh.cache[m.idx := Fnv(data)]), k.(h := if m.done then Closing else Loop)))
    case Closing => Some((sh, k.(h := Returned)))
    case _ => None
  }

  // ---- the whole system ----

  datatype Exit = Serving | TimerExit | IdleExit

  /** The server's main loop: its counters and timers. A timer that was stopped no longer fires,
      whether or not it had expired. */
  datatype MainLoop = MainLoop(
    active: int, had: bool, done: bool, armed: bool, idleArmed: bool, exit: Exit)

  /** `net[w]` is the connection transfer worker `w` holds. `via` is a history variable: for every
      block delivered, the connection on which the attempt that succeeded was made. */
  datatype State = State(
    sh: Shared, conns: seq<Conn>, main: MainLoop,
    pipe: Pipeline.State, net: seq<Option<nat>>, doneSent: bool, via: map<nat, nat>)

  datatype Step =
    // client
    | Inside(p: Pipeline.Step)
    | Stop(w: nat)
    | DialFail(w: nat)
    | Ask(w: nat, arrives: bool, ok: bool)
    | Hear(w: nat) | HearFail(w: nat)
    | SendZero(w: nat, arrives: bool, ok: bool)
    | SendHead(w: nat, arrives: bool, ok: bool)
    | SendBody(w: nat, arrives: bool, ok: bool)
    | NoPayload(w: nat)
    | SendDone(arrives: bool) | CloseDone(k: nat)
    // network
    | Drop(k: nat)
    // server
    | Accept(k: nat) | Handle(k: nat, broken: bool) | Check(k: nat) | Leave(k: nat)
    | JobRead(i: nat) | JobStore(i: nat)
    | Fire | IdleFire

  /** The blocks the server's hash pool is given; none when the destination was empty. */
  predicate InPool(c: Cfg, i: nat) {
    0 < |c.prior| && c.srvSkip <= i <= MaxId(c)
  }

  /** The pool hashes every block of the old destination, and there is one. */
  predicate CanEnd(c: Cfg) {
    0 < |c.prior| && c.srvSkip == 0 && 0 < c.srvWorkers
  }

  function InitJobs(c: Cfg): map<nat, Job> {
    map i: nat | i <= MaxId(c) && InPool(c, i) :: Todo
  }

  function Init(c: Cfg): State {
    State(
      Shared(c.prior, false, map[], InitJobs(c)), [],
      MainLoop(0, false, false, false, false, Serving),
      Pipeline.Init(Pipe(c)), seq(c.workers, i => None), false, map[])
  }

  predicate BusyWorker(s: State, w: nat) {
    w < |s.net| && w < |s.pipe.movers| && s.pipe.movers[w].Busy?
  }

  /** Worker `w` is in the middle of an attempt on its connection. */
  predicate OnConn(s: State, w: nat) {
    BusyWorker(s, w) && s.net[w].Some? && s.net[w].value < |s.conns|
  }

  function TheConn(s: State, w: nat): Conn
    requires OnConn(s, w)
  {
    s.conns[s.net[w].value]
  }

  /** The attempt at the worker's block ends, well or badly. */
  function EndAttempt(c: Cfg, s: State, w: nat, good: bool): State
    requires BusyWorker(s, w)
  {
    s.(pipe := Pipeline.Do(Pipe(c), s.pipe, if good then Pipeline.Succeed(w) else Pipeline.Fail(w)).value,
       via := if good && s.net[w].Some? then s.via[s.pipe.movers[w].idx := s.net[w].value] else s.via)
  }

  /** A network error: the connection is closed and forgotten, the attempt has failed. */
  function Broken(c: Cfg, s: State, w: nat): State
    requires OnConn(s, w)
  {
    var k := s.net[w].value;
    EndAttempt(c, s.(conns := s.conns[k := s.conns[k].(open := false)], net := s.net[w := None]), w, false)
  }

  /** One write: `after` is the connection with the item on it. The last write of an attempt
      completes the block. */
  function Send(c: Cfg, s: State, w: nat, after: Conn, final: bool, arrives: bool, ok: bool): Option<State>
    requires OnConn(s, w)
  {
    var s' := if arrives then s.(conns := s.conns[s.net[w].value := after]) else s;
    if ok && !arrives then None
    else if ok then Some(if final then EndAttempt(c, s', w, true) else s')
    else Some(Broken(c, s', w))
  }

  /** Connects when the worker has no connection. */
  function Connected(s: State, w: nat): State
    requires BusyWorker(s, w)
  {
    if s.net[w].Some? then s
    else s.(conns := s.conns + [FreshConn()], net := s.net[w := Some(|s.conns|)])
  }

  function DoClient(c: Cfg, s: State, st: Step): Option<State> {
    match st
    case Inside(p) =>
      if p.Succeed? || p.Fail? || p.Stop? then None
      else match Pipeline.Do(Pipe(c), s.pipe, p) {
        case None => None
        case Some(pipe) => Some(s.(pipe := pipe))
      }
    case Stop(w) =>
      if w >= |s.net| then None
      else match Pipeline.Do(Pipe(c), s.pipe, Pipeline.Stop(w)) {
        case None => None
        case Some(pipe) =>
          var s' := s.(pipe := pipe, net := s.net[w := None]);
          if s.net[w].Some? && s.net[w].value < |s.conns| then
            var k := s.net[w].value;
            Some(s'.(conns := s.conns[k := s.conns[k].(open := false)]))
          else Some(s')
      }
    case DialFail(w) =>
      if BusyWorker(s, w) && s.net[w].None? then Some(EndAttempt(c, s, w, false)) else None
    case Ask(w, arrives, ok) =>
      if !BusyWorker(s, w) then None
      else
        var s' := Connected(s, w);
        if !OnConn(s', w) || !TheConn(s', w).ph.Quiet? then None
        else
          var b, k := s'.pipe.movers[w].idx, TheConn(s', w);
          Send(c, s', w, k.(up := k.up + [Request(c, b)], ph := Asked(b)), false, arrives, ok)
    case Hear(w) =>
      if !OnConn(s, w) || !TheConn(s, w).ph.Asked? || |TheConn(s, w).down| < 16 then None
      else
        var b, k := s.pipe.movers[w].idx, TheConn(s, w);
        var same := k.down[..16] == Packed(c, b).hash;
        var k' := k.(down := k.down[16..], ack := None, ph := if same then Quiet else Answered(b));
        var s' := s.(conns := s.conns[s.net[w].value := k']);
        Some(if same then EndAttempt(c, s', w, true) else s')
    case HearFail(w) =>
      if OnConn(s, w) && TheConn(s, w).ph.Asked? then Some(Broken(c, s, w)) else None
    case SendZero(w, arrives, ok) =>
      if !OnConn(s, w) || !TheConn(s, w).ph.Answered? || !Packed(c, s.pipe.movers[w].idx).isZero then None
      else
        var b, k := s.pipe.movers[w].idx, TheConn(s, w);
        Send(c, s, w, k.(up := k.up + [ZeroNotice(c, b)], ph := Quiet, ack := Some(b)), true, arrives, ok)
    case SendHead(w, arrives, ok) =>
      if !OnConn(s, w) || !TheConn(s, w).ph.Answered? || Packed(c, s.pipe.movers[w].idx).isZero
         || ToSend(c, s.pipe.movers[w].idx) == [] then None
      else
        var b, k := s.pipe.movers[w].idx, TheConn(s, w);
        Send(c, s, w, k.(up := k.up + [DataHeader(c, b)], ph := HeadSent(b)), false, arrives, ok)
    case SendBody(w, arrives, ok) =>
      if !OnConn(s, w) || !TheConn(s, w).ph.HeadSent? then None
      else
        var b, k := s.pipe.movers[w].idx, TheConn(s, w);
        Send(c, s, w, k.(up := k.up + [Body(ToSend(c, b))], ph := Quiet, ack := Some(b)), true, arrives, ok)
    case NoPayload(w) =>
      if !OnConn(s, w) || !TheConn(s, w).ph.Answered? || Packed(c, s.pipe.movers[w].idx).isZero
         || ToSend(c, s.pipe.movers[w].idx) != [] then None
      else if s.pipe.movers[w].tries + 1 < Pipeline.MAX_TRIES then
        Some(Broken(c, s, w))  // the next attempt begins by closing the connection
      else
        var s' := s.(conns := s.conns[s.net[w].value := TheConn(s, w).(ph := Quiet)]);
        Some(EndAttempt(c, s', w, false))
    case SendDone(arrives) =>
      if s.doneSent || !(forall w :: 0 <= w < |s.pipe.movers| ==> s.pipe.movers[w].Stopped?) then None
      else
        var k := FreshConn().(ph := DoneSent, open := arrives, up := if arrives then [DoneMessage(c)] else []);
        Some(s.(conns := s.conns + [k], doneSent := true))
    case CloseDone(k) =>
      if k < |s.conns| && s.conns[k].ph.DoneSent? then Some(s.(conns := s.conns[k := s.conns[k].(open := false)]))
      else None
    case Drop(k) =>
      if k < |s.conns| then Some(s.(conns := s.conns[k := s.conns[k].(dropped := true)])) else None
    case _ => None
  }

  function DoServer(c: Cfg, s: State, st: Step): Option<State> {
    match st
    case Accept(k) =>
      if k < |s.conns| && s.conns[k].h.Backlog? then
        Some(s.(conns := s.conns[k := s.conns[k].(h := Loop)],
                main := s.main.(active := s.main.active + 1, had := true, armed := false, idleArmed := false)))
      else None
    case Handle(k, broken) =>
      if k >= |s.conns| then None
      else match HandlerStep(c, s.sh, s.conns[k], broken) {
        case None => None
        case Some((sh, conn)) =>
          var s' := s.(sh := sh, conns := s.conns[k := conn]);
          Some(if s.conns[k].h.Closing? then s'.(main := s.main.(done := true, armed := true)) else s')
      }
    case Check(k) =>
      if k < |s.conns| && s.conns[k].h.Returned? then
        var idle := s.main.active == 0 && s.main.had && !s.main.done;
        Some(s.(conns := s.conns[k := s.conns[k].(h := Checked)],
                main := s.main.(idleArmed := s.main.idleArmed || idle)))
      else None
    case Leave(k) =>
      if k < |s.conns| && s.conns[k].h.Checked? then
        Some(s.(conns := s.conns[k := s.conns[k].(h := Gone)], main := s.main.(active := s.main.active - 1)))
      else None
    case JobRead(i) =>
      if i in s.sh.jobs && s.sh.jobs[i].Todo? && 0 < c.srvWorkers then
        var data := BlockOf(s.sh.dst, c.srvBs, i);
        Some(s.(sh := s.sh.(jobs := s.sh.jobs[i := Reading(data)])))
      else None
    case JobStore(i) =>
      if i in s.sh.jobs && s.sh.jobs[i].Reading? then
        var hash := JobHash(s.sh.jobs[i].data);
        Some(s.(sh := s.sh.(jobs := s.sh.jobs[i := Stored], cache := s.sh.cache[i := hash])))
      else None
    case Fire =>
      if !s.main.armed then None
      else if s.main.active == 0 then Some(s.(main := s.main.(armed := false, exit := TimerExit)))
      else Some(s)  // armed again
    case IdleFire =>
      if !s.main.idleArmed then None
      else if s.main.active == 0 && !s.main.done then Some(s.(main := s.main.(idleArmed := false, exit := IdleExit)))
      else Some(s.(main := s.main.(idleArmed := false)))
    case _ => None
  }

  predicate ClientStep(st: Step) {
    !(st.Accept? || st.Handle? || st.Check? || st.Leave? || st.JobRead? || st.JobStore? || st.Fire? || st.IdleFire?)
  }

  /** After its exit the server does nothing any more. */
  function Do(c: Cfg, s: State, st: Step): Option<State> {
    if ClientStep(st) then DoClient(c, s, st)
    else if s.main.exit.Serving? then DoServer(c, s, st)
    else None
  }

  function Run(c: Cfg, s: State, steps: seq<Step>): Option<State>
    decreases steps
  {
    if steps == [] then Some(s)
    else match Do(c, s, steps[0])
      case None => None
      case Some(t) => Run(c, t, steps[1..])
  }

  ghost predicate Reachable(c: Cfg, s: State) {
    exists steps :: Run(c, Init(c), steps) == Some(s)
  }
}
