/** The client's end of a connection: every write and read of a transfer worker, complete or
    failed half-way, keeps the connection's invariant (client.go, connection.go). */
module Clients {
  import opened Basics
  import opened Hashing
  import opened Wire
  import opened Protocol
  import opened Handlers

  lemma FreshKeeps(c: Cfg, f: Facts, arrives: bool)
    ensures ConnInv(c, f, FreshConn())
    ensures ConnInv(c, f, FreshConn().(ph := DoneSent, open := arrives, up := if arrives then [DoneMessage(c)] else []))
  {
  }

  lemma AskKeeps(c: Cfg, f: Facts, k: Conn, b: nat)
    requires ConnInv(c, f, k) && k.ph.Quiet? && InRange(c, b)
    ensures ConnInv(c, f, k.(up := k.up + [Request(c, b)], ph := Asked(b)))
  {
    var k' := k.(up := k.up + [Request(c, b)], ph := Asked(b));
    assert Tasks(k') == Tasks(k) + [Request(c, b)];
    if k.ack.Some? {
      assert Transfer(c, k.ack.value) + [] == Transfer(c, k.ack.value);
    }
  }

  /** Implicit acknowledgement: when a reply is read, the block sent before it on the same
      connection is in place; and when the reply is the block's own hash, so is the block. */
  lemma HearKeeps(c: Cfg, f: Facts, k: Conn)
    requires ConnInv(c, f, k) && k.ph.Asked? && |k.down| >= 16
    ensures |k.down| == 16
    ensures k.ack.Some? ==> k.ack.value in f.synced
    ensures k.ph.idx in f.known
    ensures k.down[..16] == BlockHash(SrcBlock(c, k.ph.idx)) ==> k.ph.idx in f.synced
    ensures ConnInv(c, f, k.(down := k.down[16..], ack := None, ph := Quiet))
    ensures ConnInv(c, f, k.(down := k.down[16..], ack := None, ph := Answered(k.ph.idx)))
  {
    assert k.down[..16] == k.down && k.down[16..] == [];
  }

  lemma SendZeroKeeps(c: Cfg, f: Facts, k: Conn)
    requires ConnInv(c, f, k) && k.ph.Answered? && Packed(c, k.ph.idx).isZero && k.open
    ensures ConnInv(c, f, k.(up := k.up + [ZeroNotice(c, k.ph.idx)], ph := Quiet, ack := Some(k.ph.idx)))
  {
    assert !Finished(k) ==> k.up + [ZeroNotice(c, k.ph.idx)] == Transfer(c, k.ph.idx) + [];
  }

  lemma SendHeadKeeps(c: Cfg, f: Facts, k: Conn)
    requires ConnInv(c, f, k) && k.ph.Answered? && !Packed(c, k.ph.idx).isZero && ToSend(c, k.ph.idx) != []
    ensures ConnInv(c, f, k.(up := k.up + [DataHeader(c, k.ph.idx)], ph := HeadSent(k.ph.idx)))
  {
    assert !Finished(k) ==> k.up + [DataHeader(c, k.ph.idx)] == [DataHeader(c, k.ph.idx)];
  }

  lemma SendBodyKeeps(c: Cfg, f: Facts, k: Conn)
    requires ConnInv(c, f, k) && k.ph.HeadSent? && k.open
    ensures ConnInv(c, f, k.(up := k.up + [Body(ToSend(c, k.ph.idx))], ph := Quiet, ack := Some(k.ph.idx)))
  {
    var b := k.ph.idx;
    var k' := k.(up := k.up + [Body(ToSend(c, b))], ph := Quiet, ack := Some(b));
    if !Finished(k) {
      assert Tasks(k) == [DataHeader(c, b)];
      assert Tasks(k') == Tasks(k) + [Body(ToSend(c, b))] == Transfer(c, b) + [];
    }
  }

  lemma GiveUpKeeps(c: Cfg, f: Facts, k: Conn)
    requires ConnInv(c, f, k) && k.ph.Answered?
    ensures ConnInv(c, f, k.(ph := Quiet))
  {
  }

  lemma CloseKeeps(c: Cfg, f: Facts, k: Conn)
    requires ConnInv(c, f, k)
    ensures ConnInv(c, f, k.(open := false))
  {
  }

  lemma DropKeeps(c: Cfg, f: Facts, k: Conn)
    requires ConnInv(c, f, k)
    ensures ConnInv(c, f, k.(dropped := true))
  {
  }

  lemma AcceptKeeps(c: Cfg, f: Facts, k: Conn)
    requires ConnInv(c, f, k) && k.h.Backlog?
    ensures ConnInv(c, f, k.(h := Loop))
  {
  }

  lemma FinishedKeeps(c: Cfg, f: Facts, k: Conn, h: Handler)
    requires ConnInv(c, f, k) && Finished(k) && (h.Checked? || h.Gone?)
    ensures ConnInv(c, f, k.(h := h))
  {
  }
}
