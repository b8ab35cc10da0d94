/** The main results about uploads: statements about every reachable state of every run. */
module Delivery {
  import opened Basics
  import opened Blocks
  import opened Protocol
  import opened SharedMemory
  import opened Handlers
  import opened System
  import opened Attempts
  import Pipeline

  // ---- from blocks to bytes ----

  /** What an upload is for: the old content below the first block asked for, the source from
      there on. */
  ghost function Target(c: Cfg): Bytes {
    var n := Min(c.skip * c.bs, |c.src|);
    Resized(c.prior, |c.src|)[..n] + c.src[n..]
  }

  ghost predicate AllSynced(c: Cfg, sh: Shared) {
    sh.resized && forall b :: c.skip <= b <= Last(c) ==> Synced(c, sh, b)
  }

  lemma SyncedByte(c: Cfg, sh: Shared, i: nat, off: nat)
    requires SharedInv(c, sh) && AllSynced(c, sh) && i <= Last(c)
    requires off < c.bs && i * c.bs + off < |c.src|
    ensures i < c.skip ==> View(c, sh)[i * c.bs + off] == Resized(c.prior, |c.src|)[i * c.bs + off]
    ensures c.skip <= i ==> View(c, sh)[i * c.bs + off] == c.src[i * c.bs + off]
  {
    if i < c.skip {
      assert BlockInv(c, sh, i);
      SameBlockSameByte(View(c, sh), Resized(c.prior, |c.src|), c.bs, i, off);
    } else {
      assert Synced(c, sh, i);
      SameBlockSameByte(View(c, sh), c.src, c.bs, i, off);
    }
  }

  lemma TargetAt(c: Cfg, from: nat, p: nat)
    requires p < |c.src| && from == c.skip * c.bs
    ensures |Target(c)| == |c.src| && Target(c)[p] == if p < from then Resized(c.prior, |c.src|)[p] else c.src[p]
  {
  }

  lemma SideOfSkip(i: nat, off: nat, skip: nat, bs: nat)
    requires off < bs
    ensures i < skip <==> i * bs + off < skip * bs
  {
    NextOffset(i, bs);
    if i < skip {
      MulMonotone(i + 1, skip, bs);
    } else {
      MulMonotone(skip, i, bs);
    }
  }

  lemma TargetByte(c: Cfg, sh: Shared, p: nat)
    requires SharedInv(c, sh) && AllSynced(c, sh) && p < |c.src|
    ensures |View(c, sh)| == |Target(c)| == |c.src| && View(c, sh)[p] == Target(c)[p]
  {
    var i, off := Position(|c.src|, c.bs, p);
    SyncedByte(c, sh, i, off);
    SideOfSkip(i, off, c.skip, c.bs);
    TargetAt(c, c.skip * c.bs, p);
  }

  lemma SyncedBytes(c: Cfg, sh: Shared)
    requires SharedInv(c, sh) && AllSynced(c, sh)
    ensures View(c, sh) == Target(c)
  {
    forall p | 0 <= p < |c.src|
      ensures View(c, sh)[p] == Target(c)[p]
    {
      TargetByte(c, sh, p);
    }
  }

  // ---- the end of a run ----

  /** The connection on which block `b` was completed was dropped before another reply was read. */
  ghost predicate LeftOpen(s: State, b: nat) {
    OnItsWay(s, b) && s.conns[s.via[b]].dropped
  }

  /** When the workers have stopped and the handlers of all connections that carried a block have
      ended, a block asked for is in place, or was given up, or was left open. */
  lemma Outcome(c: Cfg, s: State, b: nat)
    requires SysInv(c, s) && 0 < c.workers && Pipeline.AllStopped(s.pipe) && InRange(c, b)
    requires forall k :: 0 <= k < |s.conns| && s.conns[k].ack.Some? ==> s.conns[k].h.Gone?
    ensures Synced(c, s.sh, b) || b in s.pipe.failed || LeftOpen(s, b)
  {
    Pipeline.StoppedMeansAllEnded(Pipe(c), s.pipe, b);
    if b !in s.pipe.failed {
      assert Delivered(FactsOf(c, s.sh), s, b);
      if OnItsWay(s, b) {
        assert ConnInv(c, FactsOf(c, s.sh), s.conns[s.via[b]]);
      }
    }
  }

  /** At the exit through the shutdown timer, a block asked for is in place, or was given up, which
      took exactly three failed attempts in whatever run led there, or the attempt that succeeded was
      made on a connection that was dropped before the client read another reply from it. */
  lemma ExitOutcome(c: Cfg, s: State, b: nat)
    requires Hypotheses(c) && 0 < c.workers && Reachable(c, s) && s.main.exit.TimerExit?
    requires InRange(c, b)
    ensures Synced(c, s.sh, b) || b in s.pipe.failed || LeftOpen(s, b)
    ensures forall steps :: Run(c, Init(c), steps) == Some(s) ==>
      if b in s.pipe.failed then FailedAttempts(c, Init(c), steps, b) == 3
      else FailedAttempts(c, Init(c), steps, b) <= 2
  {
    ReachableInv(c, s);
    forall k | 0 <= k < |s.conns| && s.conns[k].ack.Some?
      ensures s.conns[k].h.Gone?
    {
      ExitMeansFinished(c, s, k);
    }
    Outcome(c, s, b);
    forall steps | Run(c, Init(c), steps) == Some(s)
      ensures if b in s.pipe.failed then FailedAttempts(c, Init(c), steps, b) == 3
        else FailedAttempts(c, Init(c), steps, b) <= 2
    {
      GivenUpAfterThree(c, steps, b);
    }
  }

  /** Exit needs a zero count, and every connection that carried a block was counted. */
  lemma ExitMeansFinished(c: Cfg, s: State, k: nat)
    requires SysInv(c, s) && s.main.exit.TimerExit? && k < |s.conns|
    ensures s.conns[k].h.Backlog? || s.conns[k].h.Gone?
    ensures s.conns[k].ack.Some? ==> s.conns[k].h.Gone?
  {
    if IsLive(s.conns[k]) {
      LiveCounts(s.conns, k);
    }
    assert ConnInv(c, FactsOf(c, s.sh), s.conns[k]);
  }

  /** No block of the run was given up, and none was completed on a connection dropped before
      another reply was read. Failed attempts may have been made anywhere. */
  ghost predicate CleanRun(s: State) {
    s.pipe.failed == multiset{} && forall b :: b in s.via ==> !LeftOpen(s, b)
  }

  /** End to end: when the server exits through its shutdown timer after a clean run, the first
      FileSize bytes of the destination are the old ones below `skip` and the source's from
      there on, whatever the interleaving, the retries and the duplicate handlers were. */
  lemma ExitDelivers(c: Cfg, s: State)
    requires Hypotheses(c) && 0 < c.workers && Reachable(c, s) && s.main.exit.TimerExit?
    requires CleanRun(s)
    ensures View(c, s.sh) == Target(c) && |s.sh.dst| >= |c.src|
  {
    ReachableInv(c, s);
    forall b | c.skip <= b <= Last(c)
      ensures Synced(c, s.sh, b)
    {
      ExitOutcome(c, s, b);
    }
    SyncedBytes(c, s.sh);
  }

  /** Confluence: two clean runs of the same upload end with the same first FileSize bytes. */
  lemma CleanRunsAgree(c: Cfg, s: State, t: State)
    requires Hypotheses(c) && 0 < c.workers
    requires Reachable(c, s) && s.main.exit.TimerExit? && CleanRun(s)
    requires Reachable(c, t) && t.main.exit.TimerExit? && CleanRun(t)
    ensures s.sh.dst[..Min(|c.src|, |s.sh.dst|)] == t.sh.dst[..Min(|c.src|, |t.sh.dst|)]
  {
    ExitDelivers(c, s);
    ExitDelivers(c, t);
  }

  // ---- how much can go wrong ----

  ghost function DroppedCount(conns: seq<Conn>): nat {
    if conns == [] then 0 else (if conns[0].dropped then 1 else 0) + DroppedCount(conns[1..])
  }

  ghost function DroppedAcks(conns: seq<Conn>): set<nat> {
    if conns == [] then {}
    else (if conns[0].dropped && conns[0].ack.Some? then {conns[0].ack.value} else {}) + DroppedAcks(conns[1..])
  }

  lemma {:induction false} OneBlockPerDrop(conns: seq<Conn>)
    ensures |DroppedAcks(conns)| <= DroppedCount(conns)
  {
    if conns != [] {
      OneBlockPerDrop(conns[1..]);
      var head := if conns[0].dropped && conns[0].ack.Some? then {conns[0].ack.value} else {};
      assert |head + DroppedAcks(conns[1..])| <= |head| + |DroppedAcks(conns[1..])|;
    }
  }

  lemma {:induction false} DroppedAckListed(conns: seq<Conn>, k: nat)
    requires k < |conns| && conns[k].dropped && conns[k].ack.Some?
    ensures conns[k].ack.value in DroppedAcks(conns)
  {
    if k > 0 {
      DroppedAckListed(conns[1..], k - 1);
    }
  }

  /** Blocks reported as delivered that are not in place. */
  ghost function Lost(c: Cfg, s: State): set<nat> {
    set b: nat | b <= Last(c) && b in s.pipe.ok && !Synced(c, s.sh, b)
  }

  /** At the exit, no more blocks are silently wrong than connections were dropped. */
  lemma LossesBoundedByDrops(c: Cfg, s: State)
    requires Hypotheses(c) && 0 < c.workers && Reachable(c, s) && s.main.exit.TimerExit?
    ensures |Lost(c, s)| <= DroppedCount(s.conns)
  {
    ReachableInv(c, s);
    forall b | b in Lost(c, s)
      ensures b in DroppedAcks(s.conns)
    {
      Pipeline.StoppedMeansAllEnded(Pipe(c), s.pipe, b);
      ExitOutcome(c, s, b);
      DroppedAckListed(s.conns, s.via[b]);
    }
    SubsetSmaller(Lost(c, s), DroppedAcks(s.conns));
    OneBlockPerDrop(s.conns);
  }

  lemma {:induction false} SubsetSmaller(a: set<nat>, b: set<nat>)
    requires a <= b
    ensures |a| <= |b|
  {
    if a != {} {
      var x :| x in a;
      SubsetSmaller(a - {x}, b - {x});
    }
  }
}
