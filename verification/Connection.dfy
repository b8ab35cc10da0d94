/** The reconnecting connection, the write loop and one worker's attempts at a block, on bytes:
    whatever the network does, every connection ever made carries a byte prefix of a well-framed
    stream of this run's messages, so its handler reads nothing else (connection.go, client.go). */
module Connection {
  import opened Basics
  import opened Wire
  import opened Protocol
  import opened SharedMemory
  import opened Handlers
  import opened Frames
  import Pipeline

  datatype Error = NoError | NetError | Stalled | NoData

  /** The messages of a run's transfer workers. */
  ghost predicate Ours(c: Cfg, it: Item) {
    exists b :: 0 <= b <= Last(c) && OursFor(c, b, it)
  }

  ghost predicate OursFor(c: Cfg, b: nat, it: Item) {
    it == Request(c, b) || it in Transfer(c, b)
  }

  /** Well framed, with no payload outstanding at the end. */
  ghost predicate Complete(items: seq<Item>)
    decreases |items|
  {
    items == [] ||
    (&& items[0].Head? && items[0].msg.magic == MAGIC
     && if items[0].msg.dataSize == 0 then Complete(items[1..])
        else items[1..] != [] && items[1].Body? && |items[1].data| == items[0].msg.dataSize && Complete(items[2..]))
  }

  ghost predicate Prefix(a: Bytes, b: Bytes) {
    |a| <= |b| && b[..|a|] == a
  }

  ghost predicate FramedBy(c: Cfg, wire: Bytes, items: seq<Item>) {
    WellFramed(items) && Prefix(wire, Stream(items)) && forall it :: it in items ==> Ours(c, it)
  }

  ghost predicate CompleteBy(c: Cfg, wire: Bytes, items: seq<Item>) {
    Complete(items) && wire == Stream(items) && forall it :: it in items ==> Ours(c, it)
  }

  /** Some messages of the run, sent in full but for the last one, make up these bytes. */
  ghost predicate Framed(c: Cfg, wire: Bytes) {
    exists items :: FramedBy(c, wire, items)
  }

  ghost predicate AtBoundary(c: Cfg, wire: Bytes) {
    exists items :: CompleteBy(c, wire, items)
  }

  // ---- streams of messages ----

  lemma {:induction false} CompleteThen(a: seq<Item>, b: seq<Item>)
    requires Complete(a)
    ensures WellFramed(b) ==> WellFramed(a + b)
    ensures Complete(b) ==> Complete(a + b)
    decreases |a|
  {
    if a == [] {
      assert a + b == b;
    } else if a[0].msg.dataSize == 0 {
      CompleteThen(a[1..], b);
      assert (a + b)[1..] == a[1..] + b;
    } else {
      CompleteThen(a[2..], b);
      assert (a + b)[2..] == a[2..] + b;
    }
  }

  /** Whatever prefix of further messages arrives at a boundary, the bytes stay framed; when
      they arrive completely the boundary is regained. */
  lemma Extend(c: Cfg, wire: Bytes, more: seq<Item>, part: Bytes)
    requires AtBoundary(c, wire) && WellFramed(more) && Prefix(part, Stream(more))
    requires forall it :: it in more ==> Ours(c, it)
    ensures Framed(c, wire + part)
    ensures Complete(more) && part == Stream(more) ==> AtBoundary(c, wire + part)
  {
    var items :| CompleteBy(c, wire, items);
    CompleteThen(items, more);
    StreamAppend(items, more);
    assert (wire + Stream(more))[..|wire + part|] == wire + part;
    assert FramedBy(c, wire + part, items + more);
    if Complete(more) && part == Stream(more) {
      assert CompleteBy(c, wire + part, items + more);
    }
  }

  lemma EmptyIsBoundary(c: Cfg)
    ensures AtBoundary(c, [])
  {
    assert CompleteBy(c, [], []);
  }

  /** A part of a header, which is what a write that stalls at once leaves behind, is no boundary. */
  lemma StallOffBoundary(c: Cfg, wire: Bytes)
    requires 0 < |wire| < MSG_LEN
    ensures !AtBoundary(c, wire)
  {
    forall items
      ensures !CompleteBy(c, wire, items)
    {
      if Complete(items) && items != [] {
        assert |Stream(items)| >= |ItemBytes(items[0])|;
      }
    }
  }

  /** What a handler reads off such bytes: this run's messages and nothing else. */
  lemma HandlerReadsOnlyOurs(c: Cfg, wire: Bytes, it: Item)
    requires Framed(c, wire) && it in Parse(wire)
    ensures Ours(c, it)
  {
    var items :| FramedBy(c, wire, items);
    TornStream(items, |wire|);
    assert it in items;
  }

  // ---- one block's messages ----

  lemma RequestFrames(c: Cfg, b: nat)
    requires b <= Last(c)
    ensures Complete([Request(c, b)]) && WellFramed([Request(c, b)]) && Ours(c, Request(c, b))
    ensures Stream([Request(c, b)]) == ItemBytes(Request(c, b))
  {
    assert [Request(c, b)][1..] == [];
    assert OursFor(c, b, Request(c, b));
  }

  lemma ZeroFrames(c: Cfg, b: nat)
    requires b <= Last(c) && Packed(c, b).isZero
    ensures Complete([ZeroNotice(c, b)]) && WellFramed([ZeroNotice(c, b)]) && Ours(c, ZeroNotice(c, b))
    ensures Stream([ZeroNotice(c, b)]) == ItemBytes(ZeroNotice(c, b))
  {
    assert [ZeroNotice(c, b)][1..] == [];
    assert OursFor(c, b, ZeroNotice(c, b));
  }

  lemma PairFrames(m: Msg, data: Bytes)
    requires m.magic == MAGIC && m.dataSize == |data| && data != []
    ensures Complete([Head(m), Body(data)]) && WellFramed([Head(m), Body(data)])
    ensures Stream([Head(m), Body(data)]) == Pack(m) + data
  {
    var more := [Head(m), Body(data)];
    assert more[1..] == [Body(data)] && more[2..] == [] && more[1..][1..] == [];
    assert Stream(more[1..]) == data + Stream([]);
  }

  lemma DataFrames(c: Cfg, b: nat)
    requires Hypotheses(c) && b <= Last(c) && !Packed(c, b).isZero && ToSend(c, b) != []
    ensures var more := [DataHeader(c, b), Body(ToSend(c, b))];
      && Complete(more) && WellFramed(more) && (forall it :: it in more ==> Ours(c, it))
      && Stream(more) == ItemBytes(DataHeader(c, b)) + ToSend(c, b)
  {
    PayloadFits(c, b);
    PairFrames(DataHeader(c, b).msg, ToSend(c, b));
    assert OursFor(c, b, DataHeader(c, b)) && OursFor(c, b, Body(ToSend(c, b)));
  }

  // ---- the connection ----

  /** `part` went onto the current connection, or onto a new one when there was none. */
  ghost predicate Took(live: bool, wires: seq<Bytes>, wires': seq<Bytes>, part: Bytes) {
    if live then wires != [] && wires' == wires[|wires| - 1 := wires[|wires| - 1] + part]
    else wires' == wires + [part]
  }

  /** Nothing changed, or some prefix of `data` was taken. */
  ghost predicate Grew(live: bool, wires: seq<Bytes>, wires': seq<Bytes>, data: Bytes) {
    wires' == wires || exists n :: 0 <= n <= |data| && Took(live, wires, wires', data[..n])
  }

  /** What the network does with one call: a write is taken as far as `data` is long, a read gives
      the first bytes of `data`, and the call fails unless `ok`. */
  datatype Event = Event(ok: bool, data: Bytes)

  /** The call fails, or nothing moves: a refused dial, an error, a stalled write, the end of a stream. */
  predicate Fault(e: Event) {
    !e.ok || e.data == []
  }

  ghost predicate NoFault(net: nat -> Event, from: nat, until: nat) {
    from <= until && forall t :: from <= t < until ==> !Fault(net(t))
  }

  /** The last of these calls is the first to fail. */
  ghost predicate EndsInFault(net: nat -> Event, from: nat, until: nat) {
    from < until && Fault(net(until - 1)) && NoFault(net, from, until - 1)
  }

  /** The bytes the calls from `from` to `until` bring into a buffer of `size` bytes. */
  ghost function Brought(net: nat -> Event, from: nat, until: nat, size: nat): (b: Bytes)
    ensures |b| <= size
    decreases until
  {
    if until <= from then []
    else
      var before := Brought(net, from, until - 1, size);
      before + net(until - 1).data[..Min(|net(until - 1).data|, size - |before|)]
  }

  /** How many of these calls fail. */
  ghost function Faults(net: nat -> Event, from: nat, until: nat): nat
    decreases until
  {
    if until <= from then 0 else Faults(net, from, until - 1) + if Fault(net(until - 1)) then 1 else 0
  }

  lemma {:induction false} FaultsAdd(net: nat -> Event, from: nat, mid: nat, until: nat)
    requires from <= mid <= until
    ensures Faults(net, from, until) == Faults(net, from, mid) + Faults(net, mid, until)
    decreases until
  {
    if mid < until {
      FaultsAdd(net, from, mid, until - 1);
    }
  }

  lemma {:induction false} NoneFail(net: nat -> Event, from: nat, until: nat)
    requires NoFault(net, from, until)
    ensures Faults(net, from, until) == 0
    decreases until
  {
    if from < until {
      NoneFail(net, from, until - 1);
    }
  }

  lemma HowManyFail(net: nat -> Event, from: nat, until: nat, err: Error)
    requires if err.NetError? || err.Stalled? then EndsInFault(net, from, until) else NoFault(net, from, until)
    ensures from <= until && Faults(net, from, until) == if err.NetError? || err.Stalled? then 1 else 0
  {
    NoneFail(net, from, if err.NetError? || err.Stalled? then until - 1 else until);
  }

  /** `b` is what some calls in a row, none of them failing, have brought. */
  ghost predicate Received(net: nat -> Event, from: nat, until: nat, b: Bytes) {
    exists t: nat, u: nat :: from < t <= u <= until && NoFault(net, t, u) && b == Brought(net, t, u, |b|)
  }

  lemma ItIsReceived(net: nat -> Event, from: nat, t: nat, u: nat, b: Bytes)
    requires from < t && NoFault(net, t, u) && b == Brought(net, t, u, |b|)
    ensures Received(net, from, u, b)
  {
  }

  lemma LongerWindow(net: nat -> Event, from: nat, until: nat, from': nat, until': nat, b: Bytes)
    requires from' <= from && until <= until' && Received(net, from, until, b)
    ensures Received(net, from', until', b)
  {
  }

  /** What has been read, by how much had been written before. */
  type Replies = map<nat, Bytes>

  function ReplyAt(m: Replies, at: nat): Bytes {
    if at in m then m[at] else []
  }

  /** `b` has been read from the last connection when `at` bytes had been written. */
  function Entered(heard: seq<Replies>, at: nat, b: Bytes): seq<Replies>
    requires heard != []
  {
    var m := heard[|heard| - 1];
    if b == [] then heard else heard[|heard| - 1 := m[at := ReplyAt(m, at) + b]]
  }

  lemma EnteredTwice(heard: seq<Replies>, at: nat, a: Bytes, b: Bytes)
    requires heard != []
    ensures Entered(Entered(heard, at, a), at, b) == Entered(heard, at, a + b)
  {
    var m := heard[|heard| - 1];
    assert ReplyAt(m, at) + a + b == ReplyAt(m, at) + (a + b);
    assert a == [] ==> a + b == b;
    assert b == [] ==> a + b == a;
    assert m[at := ReplyAt(m, at) + a][at := ReplyAt(m, at) + (a + b)] == m[at := ReplyAt(m, at) + (a + b)];
  }

  ghost predicate AllFramed(c: Cfg, wires: seq<Bytes>) {
    forall g {:trigger Framed(c, wires[g])} :: 0 <= g < |wires| ==> Framed(c, wires[g])
  }

  ghost predicate LastAtBoundary(c: Cfg, live: bool, wires: seq<Bytes>) {
    live ==> wires != [] && AtBoundary(c, wires[|wires| - 1])
  }

  /** Nothing has been read from a connection at a place it has not come to. */
  ghost predicate Timely(wires: seq<Bytes>, heard: seq<Replies>) {
    |heard| == |wires| && forall g, at :: 0 <= g < |heard| && at in heard[g] ==> at <= |wires[g]|
  }

  /** On the last connection exactly `b` was read when `at` bytes had been written. */
  ghost predicate HeardAt(heard: seq<Replies>, at: int, b: Bytes) {
    heard != [] && at >= 0 && ReplyAt(heard[|heard| - 1], at) == b
  }

  /** `wires` holds what each connection made so far has taken, and `heard` what was read from it,
      the current one last; `live` says that there is a current one. The network's answers to all
      calls are given; `clock` counts the calls made. */
  class AutoReconnectTCP {
    const net: nat -> Event
    var clock: nat
    var live: bool
    var wires: seq<Bytes>
    var heard: seq<Replies>

    ghost predicate Sound()
      reads this
    {
      && (live ==> wires != [])
      && Timely(wires, heard)
    }

    ghost predicate Valid(c: Cfg)
      reads this
    {
      Sound() && AllFramed(c, wires)
    }

    /** The current connection, if any, is between messages. */
    ghost predicate Settled(c: Cfg)
      reads this
    {
      LastAtBoundary(c, live, wires)
    }

    constructor (net: nat -> Event)
      ensures this.net == net && clock == 0 && !live && wires == [] && heard == [] && Sound()
    {
      this.net := net;
      clock, live, wires, heard := 0, false, [], [];
    }

    /** Dials only when there is no connection, and fails only when the network refuses. */
    method Connect() returns (err: Error)
      requires Sound()
      modifies this
      ensures Sound()
      ensures clock == old(clock) + if old(live) then 0 else 1
      ensures err == if old(live) || !Fault(net(old(clock))) then NoError else NetError
      ensures live == err.NoError?
      ensures wires == old(wires) + if old(live) || err.NetError? then [] else [[]]
      ensures heard == old(heard) + if old(live) || err.NetError? then [] else [map[]]
    {
      if live {
        return NoError;
      }
      var answer := net(clock);
      clock := clock + 1;
      if Fault(answer) {
        return NetError;
      }
      live, wires, heard := true, wires + [[]], heard + [map[]];
      return NoError;
    }

    method Close()
      requires Sound()
      modifies this
      ensures Sound() && !live && wires == old(wires) && heard == old(heard) && clock == old(clock)
    {
      live := false;
    }

    /** Any part of the bytes may have gone out, whatever is reported; fails exactly when the network
        does, and then the connection is gone. */
    method Write(b: Bytes) returns (n: nat, err: Error)
      requires Sound()
      modifies this
      ensures Sound() && (err.NoError? || err.NetError?)
      ensures heard == old(heard) + if |wires| > |old(wires)| then [map[]] else []
      ensures old(clock) < clock
      ensures err.NoError? ==> NoFault(net, old(clock), clock - 1) && net(clock - 1).ok
      ensures err.NoError? ==> n == Min(|net(clock - 1).data|, |b|)
      ensures err.NoError? ==> live && Took(old(live), old(wires), wires, b[..n])
      ensures err.NetError? ==> EndsInFault(net, old(clock), clock)
      ensures err.NetError? ==> !live && Grew(old(live), old(wires), wires, b)
    {
      n := 0;
      err := Connect();
      if !err.NoError? {
        return;
      }
      var answer := net(clock);
      clock := clock + 1;
      var taken: nat := Min(|answer.data|, |b|);
      wires := wires[|wires| - 1 := wires[|wires| - 1] + b[..taken]];
      assert [] + b[..taken] == b[..taken];
      assert !old(live) ==> wires == old(wires) + [b[..taken]];
      assert Took(old(live), old(wires), wires, b[..taken]);
      if !answer.ok {
        Close();
        return 0, NetError;
      }
      return taken, NoError;
    }

    /** At most `size` bytes of what the network brings. */
    method Read(size: nat) returns (b: Bytes, err: Error)
      requires Sound() && live && 0 < size
      modifies this
      ensures Sound() && wires == old(wires) && clock == old(clock) + 1
      ensures err == if Fault(net(old(clock))) then NetError else NoError
      ensures live == err.NoError?
      ensures b == if err.NoError? then net(old(clock)).data[..Min(|net(old(clock)).data|, size)] else []
      ensures heard == Entered(old(heard), |wires[|wires| - 1]|, b)
    {
      var answer := net(clock);
      clock := clock + 1;
      if Fault(answer) {
        Close();
        return [], NetError;
      }
      b := answer.data[..Min(|answer.data|, size)];
      heard := Entered(heard, |wires[|wires| - 1]|, b);
      return b, NoError;
    }

    /** Fills the buffer with what the network brings, or fails exactly when the network does. */
    method ReadFull(size: nat) returns (b: Bytes, err: Error)
      requires Sound() && live
      modifies this
      ensures Sound() && wires == old(wires) && (err.NoError? || err.NetError?)
      ensures err.NoError? ==> live && |b| == size && b == Brought(net, old(clock), clock, size)
      ensures if err.NoError? then NoFault(net, old(clock), clock) else EndsInFault(net, old(clock), clock)
      ensures live == err.NoError?
      ensures heard == Entered(old(heard), |wires[|wires| - 1]|, b)
    {
      b, err := [], NoError;
      while |b| < size
        invariant Sound() && live && wires == old(wires) && |b| <= size && err.NoError?
        invariant NoFault(net, old(clock), clock) && b == Brought(net, old(clock), clock, size)
        invariant heard == Entered(old(heard), |wires[|wires| - 1]|, b)
      {
        var some;
        some, err := Read(size - |b|);
        EnteredTwice(old(heard), |wires[|wires| - 1]|, b, some);
        if !err.NoError? {
          return;
        }
        b := b + some;
      }
    }
  }

  /** Writes all bytes, going on after partial writes. It fails exactly when the network does, and
      without an error all bytes went onto one connection; with one, at most a prefix of them did,
      and the connection is gone unless the write stalled. */
  method ConnWrite(conn: AutoReconnectTCP, data: Bytes) returns (err: Error)
    requires conn.Sound() && data != []
    modifies conn
    ensures conn.Sound() && !err.NoData? && old(conn.clock) < conn.clock
    ensures conn.heard == old(conn.heard) + if |conn.wires| > |old(conn.wires)| then [map[]] else []
    ensures if err.NoError? then NoFault(conn.net, old(conn.clock), conn.clock)
      else EndsInFault(conn.net, old(conn.clock), conn.clock)
    ensures err.Stalled? ==> conn.net(conn.clock - 1) == Event(true, [])
    ensures err.NoError? ==> conn.live && Took(old(conn.live), old(conn.wires), conn.wires, data)
    ensures Grew(old(conn.live), old(conn.wires), conn.wires, data)
    ensures err.NetError? ==> !conn.live
  {
    var start := 0;
    assert data[..|data|] == data;
    while true
      invariant conn.Sound() && 0 <= start < |data|
      invariant NoFault(conn.net, old(conn.clock), conn.clock)
      invariant conn.heard == old(conn.heard) + if |conn.wires| > |old(conn.wires)| then [map[]] else []
      invariant start == 0 ==> conn.live == old(conn.live) && conn.wires == old(conn.wires)
      invariant start > 0 ==> conn.live && Took(old(conn.live), old(conn.wires), conn.wires, data[..start])
      decreases |data| - start
    {
      ghost var before, was := conn.wires, conn.live;
      var n;
      n, err := conn.Write(data[start..]);
      StillOneConnection(old(conn.live), old(conn.wires), was, before, conn.wires, data, start, n, err);
      if !err.NoError? {
        return;
      }
      start := start + n;
      if start == |data| {
        assert Took(old(conn.live), old(conn.wires), conn.wires, data[..start]);
        return;
      }
      if n == 0 {
        return Stalled;
      }
    }
  }

  /** A further write of the rest continues the prefix taken so far. */
  lemma StillOneConnection(
      live: bool, wires: seq<Bytes>, was: bool, before: seq<Bytes>, after: seq<Bytes>,
      data: Bytes, start: nat, n: nat, err: Error)
    requires start <= |data| && (live ==> wires != [])
    requires start == 0 ==> was == live && before == wires
    requires start > 0 ==> was && Took(live, wires, before, data[..start])
    requires err.NoError? ==> n <= |data| - start && Took(was, before, after, data[start..][..n])
    requires err.NetError? ==> Grew(was, before, after, data[start..])
    ensures err.NoError? ==> Took(live, wires, after, data[..start + n])
    ensures err.NoError? || err.NetError? ==> Grew(live, wires, after, data)
  {
    if err.NoError? {
      Continues(live, wires, was, before, after, data, start, n);
    } else if err.NetError? && after != before {
      var k :| 0 <= k <= |data[start..]| && Took(was, before, after, data[start..][..k]);
      Continues(live, wires, was, before, after, data, start, k);
    } else if start > 0 {
      assert Took(live, wires, before, data[..start]);
    }
  }

  lemma Continues(
      live: bool, wires: seq<Bytes>, was: bool, before: seq<Bytes>, after: seq<Bytes>, data: Bytes, start: nat, n: nat)
    requires start + n <= |data| && (live ==> wires != [])
    requires start == 0 ==> was == live && before == wires
    requires start > 0 ==> was && Took(live, wires, before, data[..start])
    requires Took(was, before, after, data[start..][..n])
    ensures Took(live, wires, after, data[..start + n])
    ensures Grew(live, wires, after, data)
  {
    assert data[..start] + data[start..][..n] == data[..start + n];
    if start > 0 && live {
      var last := wires[|wires| - 1];
      assert last + data[..start] + data[start..][..n] == last + data[..start + n];
    }
    assert Took(live, wires, after, data[..start + n]);
  }

  // ---- one attempt, and the retry loop ----

  /** Connections left behind are never written again, and at most `n` new ones were made. */
  ghost predicate LeftAlone(live: bool, wires: seq<Bytes>, wires': seq<Bytes>, n: nat) {
    && |wires| <= |wires'| <= |wires| + n
    && forall g :: 0 <= g < |wires| - (if live then 1 else 0) ==> wires'[g] == wires[g]
  }

  /** Messages begun at a boundary leave every connection framed, however many of their bytes
      were taken; taken completely, they end at a boundary. */
  lemma MessagesKeepFraming(c: Cfg, live: bool, wires: seq<Bytes>, wires': seq<Bytes>, more: seq<Item>, data: Bytes)
    requires AllFramed(c, wires) && LastAtBoundary(c, live, wires)
    requires WellFramed(more) && (forall it :: it in more ==> Ours(c, it)) && Prefix(data, Stream(more))
    requires Grew(live, wires, wires', data)
    ensures AllFramed(c, wires') && LeftAlone(live, wires, wires', 1)
    ensures Took(live, wires, wires', data) && Complete(more) && data == Stream(more) ==>
      LastAtBoundary(c, true, wires')
  {
    if Took(live, wires, wires', data) {
      PartKeepsFraming(c, live, wires, wires', more, data);
    } else if wires' != wires {
      var n :| 0 <= n <= |data| && Took(live, wires, wires', data[..n]);
      assert Prefix(data[..n], Stream(more));
      PartKeepsFraming(c, live, wires, wires', more, data[..n]);
    }
  }

  /** One connection has changed, or one is new, and it holds `wire`. */
  ghost predicate OneWire(live: bool, wires: seq<Bytes>, wires': seq<Bytes>, wire: Bytes) {
    if live then wires != [] && wires' == wires[|wires| - 1 := wire] else wires' == wires + [wire]
  }

  lemma OneWireFramed(c: Cfg, live: bool, wires: seq<Bytes>, wires': seq<Bytes>, wire: Bytes)
    requires AllFramed(c, wires) && Framed(c, wire) && OneWire(live, wires, wires', wire)
    ensures AllFramed(c, wires') && LeftAlone(live, wires, wires', 1)
    ensures wires' != [] && wires'[|wires'| - 1] == wire
  {
  }

  lemma PartKeepsFraming(c: Cfg, live: bool, wires: seq<Bytes>, wires': seq<Bytes>, more: seq<Item>, part: Bytes)
    requires AllFramed(c, wires) && LastAtBoundary(c, live, wires)
    requires WellFramed(more) && (forall it :: it in more ==> Ours(c, it)) && Prefix(part, Stream(more))
    requires Took(live, wires, wires', part)
    ensures AllFramed(c, wires') && LeftAlone(live, wires, wires', 1)
    ensures Complete(more) && part == Stream(more) ==> LastAtBoundary(c, true, wires')
  {
    var base := if live then wires[|wires| - 1] else [];
    EmptyIsBoundary(c);
    Extend(c, base, more, part);
    assert [] + part == part;
    OneWireFramed(c, live, wires, wires', base + part);
  }

  lemma TwoWrites(live: bool, wires: seq<Bytes>, mid: seq<Bytes>, wires': seq<Bytes>, head: Bytes, body: Bytes)
    requires live ==> wires != []
    requires head != [] && Took(live, wires, mid, head) && Grew(true, mid, wires', body)
    ensures Grew(live, wires, wires', head + body)
    ensures Took(true, mid, wires', body) ==> Took(live, wires, wires', head + body)
  {
    var data, n := head + body, |head|;
    assert data[..n] == head && data[n..] == body && data[..n + |body|] == data && body[..|body|] == body;
    if Took(true, mid, wires', body) {
      Continues(live, wires, true, mid, wires', data, n, |body|);
    } else if wires' != mid {
      var k :| 0 <= k <= |body| && Took(true, mid, wires', body[..k]);
      Continues(live, wires, true, mid, wires', data, n, k);
    }
  }

  /** What a complete attempt puts on the connection: the request, and the block's transfer
      unless the server's hash was the block's own. */
  ghost function Exchange(c: Cfg, b: nat, serverHash: Bytes): Bytes {
    ItemBytes(Request(c, b)) + if serverHash == Packed(c, b).hash then [] else Stream(Transfer(c, b))
  }

  lemma ThenMore(live: bool, wires: seq<Bytes>, mid: seq<Bytes>, wires': seq<Bytes>, a: Bytes, b: Bytes)
    requires Took(live, wires, mid, a) && Took(true, mid, wires', b)
    ensures Took(live, wires, wires', a + b)
  {
    if live {
      assert wires[|wires| - 1] + a + b == wires[|wires| - 1] + (a + b);
    }
  }

  lemma ThenNothing(live: bool, wires: seq<Bytes>, wires': seq<Bytes>, a: Bytes)
    requires Took(live, wires, wires', a)
    ensures Took(live, wires, wires', a + [])
  {
    assert a + [] == a;
  }

  /** Bytes just written put the connection where nothing has been read yet. */
  ghost predicate Unheard(wires: seq<Bytes>, heard: seq<Replies>) {
    |heard| == |wires| != 0 && |wires[|wires| - 1]| !in heard[|heard| - 1]
  }

  lemma NewlyWritten(
      live: bool, wires: seq<Bytes>, heard: seq<Replies>, wires': seq<Bytes>, heard': seq<Replies>, part: Bytes)
    requires part != [] && Timely(wires, heard) && Took(live, wires, wires', part)
    requires heard' == heard + if |wires'| > |wires| then [map[]] else []
    ensures Unheard(wires', heard')
  {
    if live {
      assert heard' == heard;
    } else {
      assert heard' == heard + [map[]];
    }
  }

  lemma NowHeard(wires: seq<Bytes>, heard: seq<Replies>, b: Bytes)
    requires Unheard(wires, heard)
    ensures HeardAt(Entered(heard, |wires[|wires| - 1]|, b), |wires[|wires| - 1]|, b)
  {
    assert [] + b == b;
  }

  /** Sends the request for block `b` and reads the sixteen bytes of the answer. */
  method AskForHash(c: Cfg, conn: AutoReconnectTCP, b: nat) returns (err: Error, serverHash: Bytes)
    requires b <= Last(c) && conn.Valid(c) && conn.Settled(c)
    modifies conn
    ensures conn.Valid(c) && !err.NoData? && (!err.Stalled? ==> conn.Settled(c))
    ensures LeftAlone(old(conn.live), old(conn.wires), conn.wires, 1)
    ensures if err.NoError? then NoFault(conn.net, old(conn.clock), conn.clock)
      else EndsInFault(conn.net, old(conn.clock), conn.clock)
    ensures err.NoError? ==> conn.live && Took(old(conn.live), old(conn.wires), conn.wires, ItemBytes(Request(c, b)))
    ensures err.NoError? ==> |serverHash| == 16 && Received(conn.net, old(conn.clock), conn.clock, serverHash)
    ensures err.NoError? ==> HeardAt(conn.heard, |conn.wires[|conn.wires| - 1]|, serverHash)
  {
    serverHash := [];
    RequestFrames(c, b);
    err := ConnWrite(conn, ItemBytes(Request(c, b)));
    MessagesKeepFraming(c, old(conn.live), old(conn.wires), conn.wires, [Request(c, b)], ItemBytes(Request(c, b)));
    if !err.NoError? {
      return;
    }
    ghost var asked, unheard := conn.clock, conn.heard;
    NewlyWritten(
      old(conn.live), old(conn.wires), old(conn.heard), conn.wires, conn.heard, ItemBytes(Request(c, b)));
    serverHash, err := conn.ReadFull(16);
    if err.NoError? {
      NowHeard(conn.wires, unheard, serverHash);
      ItIsReceived(conn.net, old(conn.clock), asked, conn.clock, serverHash);
    }
  }

  method SendZeroNotice(c: Cfg, conn: AutoReconnectTCP, b: nat) returns (err: Error)
    requires b <= Last(c) && conn.Valid(c) && conn.live && conn.Settled(c) && Packed(c, b).isZero
    modifies conn
    ensures conn.Valid(c) && (!err.Stalled? ==> conn.Settled(c)) && !err.NoData?
    ensures LeftAlone(true, old(conn.wires), conn.wires, 0)
    ensures err.NoError? ==> conn.live && Took(true, old(conn.wires), conn.wires, Stream(Transfer(c, b)))
    ensures err.NoError? ==> conn.heard == old(conn.heard)
    ensures if err.NoError? then NoFault(conn.net, old(conn.clock), conn.clock)
      else EndsInFault(conn.net, old(conn.clock), conn.clock)
  {
    ZeroFrames(c, b);
    err := ConnWrite(conn, ItemBytes(ZeroNotice(c, b)));
    MessagesKeepFraming(c, true, old(conn.wires), conn.wires, [ZeroNotice(c, b)], ItemBytes(ZeroNotice(c, b)));
  }

  lemma HeadKeepsFraming(c: Cfg, b: nat, wires: seq<Bytes>, mid: seq<Bytes>)
    requires Hypotheses(c) && b <= Last(c) && !Packed(c, b).isZero && ToSend(c, b) != []
    requires AllFramed(c, wires) && LastAtBoundary(c, true, wires)
    requires Grew(true, wires, mid, ItemBytes(DataHeader(c, b)))
    ensures AllFramed(c, mid) && LeftAlone(true, wires, mid, 0)
  {
    DataFrames(c, b);
    MessagesKeepFraming(c, true, wires, mid, [DataHeader(c, b), Body(ToSend(c, b))], ItemBytes(DataHeader(c, b)));
  }

  lemma BodyKeepsFraming(c: Cfg, b: nat, wires: seq<Bytes>, mid: seq<Bytes>, wires': seq<Bytes>)
    requires Hypotheses(c) && b <= Last(c) && !Packed(c, b).isZero && ToSend(c, b) != []
    requires AllFramed(c, wires) && LastAtBoundary(c, true, wires)
    requires Took(true, wires, mid, ItemBytes(DataHeader(c, b))) && Grew(true, mid, wires', ToSend(c, b))
    ensures AllFramed(c, wires') && LeftAlone(true, wires, wires', 0)
    ensures Took(true, mid, wires', ToSend(c, b)) ==> LastAtBoundary(c, true, wires')
  {
    var head, body := ItemBytes(DataHeader(c, b)), ToSend(c, b);
    DataFrames(c, b);
    TwoWrites(true, wires, mid, wires', head, body);
    MessagesKeepFraming(c, true, wires, wires', [DataHeader(c, b), Body(body)], head + body);
  }

  method SendData(c: Cfg, conn: AutoReconnectTCP, b: nat) returns (err: Error)
    requires Hypotheses(c) && b <= Last(c) && conn.Valid(c) && conn.live && conn.Settled(c)
    requires !Packed(c, b).isZero && ToSend(c, b) != []
    modifies conn
    ensures conn.Valid(c) && (!err.Stalled? ==> conn.Settled(c)) && !err.NoData?
    ensures LeftAlone(true, old(conn.wires), conn.wires, 0)
    ensures err.NoError? ==> conn.live && Took(true, old(conn.wires), conn.wires, Stream(Transfer(c, b)))
    ensures err.NoError? ==> conn.heard == old(conn.heard)
    ensures if err.NoError? then NoFault(conn.net, old(conn.clock), conn.clock)
      else EndsInFault(conn.net, old(conn.clock), conn.clock)
  {
    err := ConnWrite(conn, ItemBytes(DataHeader(c, b)));
    HeadKeepsFraming(c, b, old(conn.wires), conn.wires);
    if err.NoError? {
      ghost var mid := conn.wires;
      err := ConnWrite(conn, ToSend(c, b));
      BodyKeepsFraming(c, b, old(conn.wires), mid, conn.wires);
      if err.NoError? {
        DataFrames(c, b);
        ThenMore(true, old(conn.wires), mid, conn.wires, ItemBytes(DataHeader(c, b)), ToSend(c, b));
      }
    }
  }

  /** Sends the zero notice, or the header and the payload; fails at once when there is no payload. */
  method SendTransfer(c: Cfg, conn: AutoReconnectTCP, b: nat) returns (err: Error)
    requires Hypotheses(c) && b <= Last(c) && conn.Valid(c) && conn.live && conn.Settled(c)
    modifies conn
    ensures conn.Valid(c) && (!err.Stalled? ==> conn.Settled(c))
    ensures LeftAlone(true, old(conn.wires), conn.wires, 0)
    ensures err.NoData? <==> !Transferable(c, b)
    ensures err.NoData? ==> conn.live && conn.wires == old(conn.wires)
    ensures err.NoError? ==> conn.live && Took(true, old(conn.wires), conn.wires, Stream(Transfer(c, b)))
    ensures err.NoError? || err.NoData? ==> conn.heard == old(conn.heard)
    ensures if err.NoError? || err.NoData? then NoFault(conn.net, old(conn.clock), conn.clock)
      else EndsInFault(conn.net, old(conn.clock), conn.clock)
  {
    if Packed(c, b).isZero {
      err := SendZeroNotice(c, conn, b);
    } else if ToSend(c, b) == [] {
      err := NoData;
    } else {
      err := SendData(c, conn, b);
    }
  }

  ghost predicate EndsWith(wire: Bytes, tail: Bytes) {
    |tail| <= |wire| && wire[|wire| - |tail|..] == tail
  }

  /** The last connection ends with the whole exchange, and `hash` was read from it just after the
      forty bytes of the request. */
  ghost predicate ExchangeDone(c: Cfg, b: nat, hash: Bytes, wires: seq<Bytes>, heard: seq<Replies>) {
    && wires != [] && EndsWith(wires[|wires| - 1], Exchange(c, b, hash))
    && HeardAt(heard, |wires[|wires| - 1]| - |Exchange(c, b, hash)| + 40, hash)
  }

  /** The request, the answer and the transfer, if one is needed, make up the exchange. */
  lemma ItIsDone(
      c: Cfg, b: nat, hash: Bytes, live: bool, wires: seq<Bytes>, mid: seq<Bytes>, wires': seq<Bytes>,
      heard: seq<Replies>)
    requires Took(live, wires, mid, ItemBytes(Request(c, b))) && HeardAt(heard, |mid[|mid| - 1]|, hash)
    requires if hash == Packed(c, b).hash then wires' == mid else Took(true, mid, wires', Stream(Transfer(c, b)))
    ensures Took(live, wires, wires', Exchange(c, b, hash)) && ExchangeDone(c, b, hash, wires', heard)
  {
    if hash == Packed(c, b).hash {
      ThenNothing(live, wires, mid, ItemBytes(Request(c, b)));
    } else {
      ThenMore(live, wires, mid, wires', ItemBytes(Request(c, b)), Stream(Transfer(c, b)));
    }
  }

  /** One attempt at block `b`. Sixteen bytes are read after the request on the connection in use.
      It succeeds when no call fails and these are the block's hash or the block can be
      transferred, and then the transfer has gone out unless they were; it fails otherwise. Without
      a stall it ends with the connection between messages, or gone. */
  method ProcessBlock(c: Cfg, conn: AutoReconnectTCP, b: nat) returns (err: Error, serverHash: Bytes)
    requires Hypotheses(c) && b <= Last(c) && conn.Valid(c) && conn.Settled(c)
    modifies conn
    ensures conn.Valid(c) && (!err.Stalled? ==> conn.Settled(c))
    ensures LeftAlone(old(conn.live), old(conn.wires), conn.wires, 1)
    ensures if err.NetError? || err.Stalled? then EndsInFault(conn.net, old(conn.clock), conn.clock)
      else NoFault(conn.net, old(conn.clock), conn.clock)
    ensures err.NoError? || err.NoData? ==>
      |serverHash| == 16 && Received(conn.net, old(conn.clock), conn.clock, serverHash)
    ensures err.NoError? ==> conn.live && Took(old(conn.live), old(conn.wires), conn.wires, Exchange(c, b, serverHash))
    ensures err.NoError? ==> ExchangeDone(c, b, serverHash, conn.wires, conn.heard)
    ensures err.NoData? ==> serverHash != Packed(c, b).hash && !Transferable(c, b)
    ensures err.NoData? ==> Took(old(conn.live), old(conn.wires), conn.wires, ItemBytes(Request(c, b)))
    ensures err.NoData? ==> HeardAt(conn.heard, |conn.wires[|conn.wires| - 1]|, serverHash)
  {
    err, serverHash := AskForHash(c, conn, b);
    if !err.NoError? {
      return;
    }
    ghost var mid, asked := conn.wires, conn.clock;
    if serverHash != Packed(c, b).hash {
      err := SendTransfer(c, conn, b);
      LongerWindow(conn.net, old(conn.clock), asked, old(conn.clock), conn.clock, serverHash);
    }
    if err.NoError? {
      ItIsDone(c, b, serverHash, old(conn.live), old(conn.wires), mid, conn.wires, conn.heard);
    }
  }

  /** One attempt in its turn: every attempt but the first gives the connection up first. */
  method Attempt(c: Cfg, conn: AutoReconnectTCP, b: nat, retry: nat) returns (err: Error, serverHash: Bytes)
    requires Hypotheses(c) && b <= Last(c) && conn.Valid(c) && (retry == 0 ==> conn.Settled(c))
    modifies conn
    ensures conn.Valid(c) && (!err.Stalled? ==> conn.Settled(c))
    ensures old(conn.clock) <= conn.clock
    ensures Faults(conn.net, old(conn.clock), conn.clock) == if err.NetError? || err.Stalled? then 1 else 0
    ensures err.NoData? ==> !Transferable(c, b)
    ensures LeftAlone(old(conn.live) && retry == 0, old(conn.wires), conn.wires, 1)
    ensures err.NoError? ==> ExchangeDone(c, b, serverHash, conn.wires, conn.heard)
    ensures err.NoError? ==> |serverHash| == 16 && Received(conn.net, old(conn.clock), conn.clock, serverHash)
  {
    if retry > 0 {
      conn.Close();
    }
    err, serverHash := ProcessBlock(c, conn, b);
    HowManyFail(conn.net, old(conn.clock), conn.clock, err);
  }

  lemma StillLeftAlone(live: bool, wires: seq<Bytes>, mid: seq<Bytes>, wires': seq<Bytes>, n: nat)
    requires LeftAlone(live, wires, mid, n) && LeftAlone(false, mid, wires', 1)
    ensures LeftAlone(live, wires, wires', n + 1)
  {
  }

  /** The attempts at one block: at most three, each but the first on a fresh connection, so a
      retry never starts in the middle of a message. Each failing call of the network costs a block
      that can be transferred one attempt, and nothing else does. Every connection ever made stays
      framed; success means that the last one took the whole exchange and brought the server's hash
      in the middle of it. Only a stall in the last attempt leaves a connection in use that is not
      between messages. */
  method TransferBlock(c: Cfg, conn: AutoReconnectTCP, b: nat)
    returns (lastErr: Error, attempts: nat, serverHash: Bytes)
    requires Hypotheses(c) && b <= Last(c) && conn.Valid(c) && conn.Settled(c)
    modifies conn
    ensures conn.Valid(c) && (!lastErr.Stalled? ==> conn.Settled(c))
    ensures 1 <= attempts <= 3 && (!lastErr.NoError? ==> attempts == 3)
    ensures lastErr.NoData? ==> !Transferable(c, b)
    ensures Transferable(c, b) ==>
      Faults(conn.net, old(conn.clock), conn.clock) == attempts - if lastErr.NoError? then 1 else 0
    ensures LeftAlone(old(conn.live), old(conn.wires), conn.wires, attempts)
    ensures lastErr.NoError? ==> ExchangeDone(c, b, serverHash, conn.wires, conn.heard)
    ensures lastErr.NoError? ==> |serverHash| == 16 && Received(conn.net, old(conn.clock), conn.clock, serverHash)
  {
    lastErr, serverHash := NoError, [];
    attempts := 0;
    while attempts < Pipeline.MAX_TRIES
      invariant 0 <= attempts <= Pipeline.MAX_TRIES && old(conn.clock) <= conn.clock
      invariant conn.Valid(c) && (attempts == 0 || !lastErr.NoError?)
      invariant attempts == 0 || !lastErr.Stalled? ==> conn.Settled(c)
      invariant attempts == 0 ==> conn.live == old(conn.live) && conn.wires == old(conn.wires)
      invariant attempts > 0 ==> LeftAlone(old(conn.live), old(conn.wires), conn.wires, attempts)
      invariant Transferable(c, b) ==> !lastErr.NoData?
      invariant Transferable(c, b) ==> Faults(conn.net, old(conn.clock), conn.clock) == attempts
      decreases Pipeline.MAX_TRIES - attempts
    {
      ghost var wires, clock := conn.wires, conn.clock;
      lastErr, serverHash := Attempt(c, conn, b, attempts);
      FaultsAdd(conn.net, old(conn.clock), clock, conn.clock);
      if attempts > 0 {
        StillLeftAlone(old(conn.live), old(conn.wires), wires, conn.wires, attempts);
      }
      attempts := attempts + 1;
      if lastErr.NoError? {
        LongerWindow(conn.net, clock, conn.clock, old(conn.clock), conn.clock, serverHash);
        return;
      }
    }
  }
}
