/** Bytes on a connection and what the reading side makes of them, however the stream is cut
    (msg.go, connection.go, server.go). */
module Frames {
  import opened Basics
  import opened Wire

  function ItemBytes(it: Item): Bytes {
    match it case Head(m) => Pack(m) case Body(data) => data
  }

  function Stream(items: seq<Item>): Bytes {
    if items == [] then [] else ItemBytes(items[0]) + Stream(items[1..])
  }

  /** Headers carry the magic text, and one that announces bytes is followed by exactly them,
      unless it is the last thing written. */
  predicate WellFramed(items: seq<Item>)
    decreases |items|
  {
    items == [] ||
    (&& items[0].Head? && items[0].msg.magic == MAGIC
     && if items[0].msg.dataSize == 0 then WellFramed(items[1..])
        else items[1..] == [] ||
             (items[1].Body? && |items[1].data| == items[0].msg.dataSize && WellFramed(items[2..])))
  }

  /** The items a handler gets out of a stream: full headers, each followed by the full payload
      it announces. It stops at a wrong magic text and at the first read that comes up short. */
  function Parse(b: Bytes): seq<Item>
    decreases |b|, 0
  {
    if |b| < MSG_LEN then []
    else
      var m := Unpack(b).value;
      [Head(m)] + if m.magic == MAGIC then Following(m, b[MSG_LEN..]) else []
  }

  /** The items after a header, its own payload first if it is there in full. */
  function Following(m: Msg, after: Bytes): seq<Item>
    decreases |after|, 1
  {
    if m.dataSize == 0 then Parse(after)
    else if |after| < m.dataSize then []
    else [Body(after[..m.dataSize])] + Parse(after[m.dataSize..])
  }

  /** How many of the items lie wholly within the first `n` bytes of their stream. */
  function Whole(items: seq<Item>, n: nat): (count: nat)
    ensures count <= |items|
  {
    if items == [] || n < |ItemBytes(items[0])| then 0
    else 1 + Whole(items[1..], n - |ItemBytes(items[0])|)
  }

  lemma ParseHeader(m: Msg, rest: Bytes)
    requires m.magic == MAGIC
    ensures Parse(Pack(m) + rest) == [Head(m)] + Following(m, rest)
  {
    UnpackPack(m, rest);
    assert (Pack(m) + rest)[MSG_LEN..] == rest;
  }

  /** Torn streams are safe: cut after any number of bytes, a well-framed stream is read as
      exactly the items that arrived whole; no tail of a payload is ever taken for a header
      and no part of a payload for the payload. */
  lemma {:induction false} TornStream(items: seq<Item>, n: nat)
    requires WellFramed(items) && n <= |Stream(items)|
    ensures Parse(Stream(items)[..n]) == items[..Whole(items, n)]
    decreases |items|, 1
  {
    if items != [] && n >= MSG_LEN {
      if items[0].msg.dataSize == 0 {
        TornHeader(items, n);
      } else if n >= MSG_LEN + items[0].msg.dataSize {
        TornPayload(items, n);
      } else {
        TornShort(items, n);
      }
    }
  }

  lemma CutAfterHeader(items: seq<Item>, n: nat)
    requires items != [] && items[0].Head? && MSG_LEN <= n <= |Stream(items)|
    ensures n - MSG_LEN <= |Stream(items[1..])|
    ensures Stream(items)[..n] == Pack(items[0].msg) + Stream(items[1..])[..n - MSG_LEN]
  {
  }

  lemma {:induction false} TornHeader(items: seq<Item>, n: nat)
    requires WellFramed(items) && items != [] && MSG_LEN <= n <= |Stream(items)| && items[0].msg.dataSize == 0
    ensures Parse(Stream(items)[..n]) == items[..Whole(items, n)]
    decreases |items|, 0
  {
    var m, n', tail := items[0].msg, n - MSG_LEN, items[1..];
    CutAfterHeader(items, n);
    var rest := Stream(tail)[..n'];
    ParseHeader(m, rest);
    assert WellFramed(tail);
    TornStream(tail, n');
    HeadThenWhole(items, n);
    assert Parse(Stream(items)[..n]) == [Head(m)] + Parse(rest);
  }

  lemma HeadThenWhole(items: seq<Item>, n: nat)
    requires items != [] && n >= |ItemBytes(items[0])|
    ensures items[..Whole(items, n)] == [items[0]] + items[1..][..Whole(items[1..], n - |ItemBytes(items[0])|)]
  {
  }

  /** The payload did not arrive in full: only its header is read. */
  lemma TornShort(items: seq<Item>, n: nat)
    requires WellFramed(items) && items != [] && MSG_LEN <= n <= |Stream(items)|
    requires n < MSG_LEN + items[0].msg.dataSize
    ensures Parse(Stream(items)[..n]) == items[..Whole(items, n)]
  {
    CutAfterHeader(items, n);
    ParseHeader(items[0].msg, Stream(items[1..])[..n - MSG_LEN]);
    assert Whole(items[1..], n - MSG_LEN) == 0;
  }

  lemma CutAfterPayload(items: seq<Item>, n: nat, size: nat)
    requires |items| >= 2 && items[0].Head? && items[1].Body? && |items[1].data| == size
    requires MSG_LEN + size <= n <= |Stream(items)|
    ensures n - MSG_LEN - size <= |Stream(items[2..])|
    ensures Stream(items)[..n] == Pack(items[0].msg) + (items[1].data + Stream(items[2..])[..n - MSG_LEN - size])
  {
    var tail := items[1..];
    assert tail[1..] == items[2..];
    assert Stream(tail) == items[1].data + Stream(items[2..]);
    CutAfterHeader(items, n);
  }

  lemma FollowingPayload(m: Msg, data: Bytes, rest: Bytes)
    requires m.dataSize > 0 && |data| == m.dataSize
    ensures Following(m, data + rest) == [Body(data)] + Parse(rest)
  {
    assert (data + rest)[..m.dataSize] == data && (data + rest)[m.dataSize..] == rest;
  }

  lemma {:induction false} TornPayload(items: seq<Item>, n: nat)
    requires WellFramed(items) && n <= |Stream(items)| && items != []
    requires items[0].msg.dataSize > 0 && n >= MSG_LEN + items[0].msg.dataSize
    ensures Parse(Stream(items)[..n]) == items[..Whole(items, n)]
    decreases |items|, 0
  {
    var m := items[0].msg;
    assert items[1..] != [];
    var data, n' := items[1].data, n - MSG_LEN - m.dataSize;
    CutAfterPayload(items, n, m.dataSize);
    var rest := Stream(items[2..])[..n'];
    ParseHeader(m, data + rest);
    FollowingPayload(m, data, rest);
    TornStream(items[2..], n');
    PairThenWhole(items, n);
  }

  lemma PairThenWhole(items: seq<Item>, n: nat)
    requires |items| >= 2 && n >= |ItemBytes(items[0])| + |ItemBytes(items[1])|
    ensures var n' := n - |ItemBytes(items[0])| - |ItemBytes(items[1])|;
      items[..Whole(items, n)] == [items[0]] + ([items[1]] + items[2..][..Whole(items[2..], n')])
  {
    HeadThenWhole(items, n);
    assert items[1..][1..] == items[2..];
    HeadThenWhole(items[1..], n - |ItemBytes(items[0])|);
  }

  /** A whole stream is read back as the items written. */
  lemma ParseStream(items: seq<Item>)
    requires WellFramed(items)
    ensures Parse(Stream(items)) == items
  {
    TornStream(items, |Stream(items)|);
    assert Stream(items)[..|Stream(items)|] == Stream(items);
    AllWhole(items);
    assert items[..|items|] == items;
  }

  lemma {:induction false} AllWhole(items: seq<Item>)
    ensures Whole(items, |Stream(items)|) == |items|
  {
    if items != [] {
      AllWhole(items[1..]);
    }
  }

  lemma {:induction false} StreamAppend(a: seq<Item>, b: seq<Item>)
    ensures Stream(a + b) == Stream(a) + Stream(b)
  {
    if a == [] {
      assert a + b == b;
    } else {
      assert (a + b)[1..] == a[1..] + b;
      StreamAppend(a[1..], b);
    }
  }
}
