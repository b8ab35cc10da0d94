/** The upload client's goroutines as a state machine: a sequential reader, hash-and-compress
    workers and transfer workers, joined by two bounded channels (reader.go, checksum.go,
    client.go). A block is represented by its index; what a transfer attempt does on the
    network is the business of module Protocol. */
module Pipeline {
  import opened Basics

  const MAX_TRIES := 3

  datatype Params = Params(skip: nat, last: nat, workers: nat) {
    function Capacity(): nat { 2 * workers }
  }

  datatype Hasher = Free | Holding(idx: nat) | Ended
  datatype Mover = Ready | Busy(idx: nat, tries: nat) | Stopped

  datatype State = State(
    next: nat,                // the reader's next block
    blocks: seq<nat>,         // reader -> hashers
    blocksClosed: bool,
    hashers: seq<Hasher>,
    packed: seq<nat>,         // hashers -> movers
    packedClosed: bool,
    movers: seq<Mover>,
    ok: multiset<nat>,        // blocks whose last attempt returned no error
    failed: multiset<nat>)    // blocks given up after the third error

  datatype Step =
    | Read | CloseBlocks
    | Grab(w: nat) | Emit(w: nat) | EndHasher(w: nat) | CloseOut
    | Take(w: nat) | Succeed(w: nat) | Fail(w: nat) | Stop(w: nat)

  function Init(p: Params): State {
    State(p.skip, [], false, seq(p.workers, i => Free), [], false, seq(p.workers, i => Ready), multiset{}, multiset{})
  }

  /** None when the step cannot be taken now. Sending on a closed channel is not ruled out
      here: that it never happens is part of the invariant. */
  function Do(p: Params, s: State, st: Step): Option<State> {
    match st
    case Read =>
      if s.next <= p.last && |s.blocks| < p.Capacity() then
        Some(s.(blocks := s.blocks + [s.next], next := s.next + 1))
      else None
    case CloseBlocks =>
      if s.next > p.last && !s.blocksClosed then Some(s.(blocksClosed := true)) else None
    case Grab(w) =>
      if w < |s.hashers| && s.hashers[w].Free? && s.blocks != [] then
        Some(s.(hashers := s.hashers[w := Holding(s.blocks[0])], blocks := s.blocks[1..]))
      else None
    case Emit(w) =>
      if w < |s.hashers| && s.hashers[w].Holding? && |s.packed| < p.Capacity() then
        Some(s.(packed := s.packed + [s.hashers[w].idx], hashers := s.hashers[w := Free]))
      else None
    case EndHasher(w) =>
      if w < |s.hashers| && s.hashers[w].Free? && s.blocks == [] && s.blocksClosed then
        Some(s.(hashers := s.hashers[w := Ended]))
      else None
    case CloseOut =>
      if (forall w :: 0 <= w < |s.hashers| ==> s.hashers[w].Ended?) && !s.packedClosed then
        Some(s.(packedClosed := true))
      else None
    case Take(w) =>
      if w < |s.movers| && s.movers[w].Ready? && s.packed != [] then
        Some(s.(movers := s.movers[w := Busy(s.packed[0], 0)], packed := s.packed[1..]))
      else None
    case Succeed(w) =>
      if w < |s.movers| && s.movers[w].Busy? then
        Some(s.(movers := s.movers[w := Ready], ok := s.ok + multiset{s.movers[w].idx}))
      else None
    case Fail(w) =>
      if w < |s.movers| && s.movers[w].Busy? then
        var Busy(b, t) := s.movers[w];
        if t + 1 < MAX_TRIES then Some(s.(movers := s.movers[w := Busy(b, t + 1)]))
        else Some(s.(movers := s.movers[w := Ready], failed := s.failed + multiset{b}))
      else None
    case Stop(w) =>
      if w < |s.movers| && s.movers[w].Ready? && s.packed == [] && s.packedClosed then
        Some(s.(movers := s.movers[w := Stopped]))
      else None
  }

  // ---- where every block is ----

  ghost function Holds(h: Hasher, i: nat): nat {
    if h == Holding(i) then 1 else 0
  }

  ghost function Moves(m: Mover, i: nat): nat {
    if m.Busy? && m.idx == i then 1 else 0
  }

  ghost function Held(hs: seq<Hasher>, i: nat): nat {
    if hs == [] then 0 else Holds(hs[0], i) + Held(hs[1..], i)
  }

  ghost function Moving(ms: seq<Mover>, i: nat): nat {
    if ms == [] then 0 else Moves(ms[0], i) + Moving(ms[1..], i)
  }

  ghost function Queued(q: seq<nat>, i: nat): nat {
    if q == [] then 0 else (if q[0] == i then 1 else 0) + Queued(q[1..], i)
  }

  /** At how many stations block `i` is. */
  ghost function Places(p: Params, s: State, i: nat): nat {
    (if s.next <= i <= p.last then 1 else 0) + Queued(s.blocks, i) + Held(s.hashers, i)
    + Queued(s.packed, i) + Moving(s.movers, i) + s.ok[i] + s.failed[i]
  }

  ghost function Once(p: Params, i: nat): nat {
    if p.skip <= i <= p.last then 1 else 0
  }

  ghost predicate AllEnded(s: State) {
    forall w :: 0 <= w < |s.hashers| ==> s.hashers[w].Ended?
  }

  ghost predicate AllStopped(s: State) {
    forall w :: 0 <= w < |s.movers| ==> s.movers[w].Stopped?
  }

  ghost predicate Inv(p: Params, s: State) {
    && |s.hashers| == |s.movers| == p.workers
    && p.skip <= s.next
    && |s.blocks| <= p.Capacity() && |s.packed| <= p.Capacity()
    && (forall i: nat :: Places(p, s, i) == Once(p, i))
    && (s.blocksClosed ==> s.next > p.last)
    && (forall w :: 0 <= w < |s.hashers| && s.hashers[w].Ended? ==> s.blocksClosed && s.blocks == [])
    && (s.packedClosed ==> AllEnded(s))
    && (forall w :: 0 <= w < |s.movers| && s.movers[w].Stopped? ==> s.packedClosed && s.packed == [])
    && (forall w :: 0 <= w < |s.movers| && s.movers[w].Busy? ==> s.movers[w].tries < MAX_TRIES)
  }

  lemma {:induction false} HeldUpdate(hs: seq<Hasher>, w: nat, h: Hasher, i: nat)
    requires w < |hs|
    ensures Held(hs[w := h], i) == Held(hs, i) - Holds(hs[w], i) + Holds(h, i)
  {
    if w == 0 {
      assert hs[w := h][1..] == hs[1..];
    } else {
      HeldUpdate(hs[1..], w - 1, h, i);
      assert hs[w := h][1..] == hs[1..][w - 1 := h];
    }
  }

  lemma {:induction false} MovingUpdate(ms: seq<Mover>, w: nat, m: Mover, i: nat)
    requires w < |ms|
    ensures Moving(ms[w := m], i) == Moving(ms, i) - Moves(ms[w], i) + Moves(m, i)
  {
    if w == 0 {
      assert ms[w := m][1..] == ms[1..];
    } else {
      MovingUpdate(ms[1..], w - 1, m, i);
      assert ms[w := m][1..] == ms[1..][w - 1 := m];
    }
  }

  lemma {:induction false} QueuedAppend(q: seq<nat>, x: nat, i: nat)
    ensures Queued(q + [x], i) == Queued(q, i) + if x == i then 1 else 0
  {
    if q != [] {
      QueuedAppend(q[1..], x, i);
      assert (q + [x])[1..] == q[1..] + [x];
    }
  }

  lemma {:induction false} NothingHeld(hs: seq<Hasher>, i: nat)
    requires forall w :: 0 <= w < |hs| ==> !hs[w].Holding?
    ensures Held(hs, i) == 0
  {
    if hs != [] {
      assert forall w :: 0 <= w < |hs[1..]| ==> hs[1..][w] == hs[w + 1];
      NothingHeld(hs[1..], i);
    }
  }

  lemma {:induction false} NothingMoving(ms: seq<Mover>, i: nat)
    requires forall w :: 0 <= w < |ms| ==> !ms[w].Busy?
    ensures Moving(ms, i) == 0
  {
    if ms != [] {
      assert forall w :: 0 <= w < |ms[1..]| ==> ms[1..][w] == ms[w + 1];
      NothingMoving(ms[1..], i);
    }
  }

  lemma InitInv(p: Params)
    ensures Inv(p, Init(p))
  {
    forall i: nat ensures Places(p, Init(p), i) == Once(p, i) {
      NothingHeld(Init(p).hashers, i);
      NothingMoving(Init(p).movers, i);
    }
  }

  lemma ReaderConserves(p: Params, s: State, st: Step, i: nat)
    requires (st.Read? || st.CloseBlocks? || st.CloseOut?) && Do(p, s, st).Some?
    ensures Places(p, Do(p, s, st).value, i) == Places(p, s, i)
  {
    QueuedAppend(s.blocks, s.next, i);
  }

  lemma HasherConserves(p: Params, s: State, st: Step, i: nat)
    requires (st.Grab? || st.Emit? || st.EndHasher?) && Do(p, s, st).Some?
    ensures Places(p, Do(p, s, st).value, i) == Places(p, s, i)
  {
    HeldUpdate(s.hashers, st.w, Do(p, s, st).value.hashers[st.w], i);
    if st.Emit? {
      QueuedAppend(s.packed, s.hashers[st.w].idx, i);
    }
  }

  lemma MoverConserves(p: Params, s: State, st: Step, i: nat)
    requires (st.Take? || st.Succeed? || st.Fail? || st.Stop?) && Do(p, s, st).Some?
    ensures Places(p, Do(p, s, st).value, i) == Places(p, s, i)
  {
    MovingUpdate(s.movers, st.w, Do(p, s, st).value.movers[st.w], i);
  }

  /** No step loses, duplicates or invents a block. */
  lemma Conserved(p: Params, s: State, st: Step, i: nat)
    requires Do(p, s, st).Some?
    ensures Places(p, Do(p, s, st).value, i) == Places(p, s, i)
  {
    if st.Read? || st.CloseBlocks? || st.CloseOut? {
      ReaderConserves(p, s, st, i);
    } else if st.Grab? || st.Emit? || st.EndHasher? {
      HasherConserves(p, s, st, i);
    } else {
      MoverConserves(p, s, st, i);
    }
  }

  /** Every step keeps the invariant, and no step sends on a channel already closed. */
  lemma StepKeepsInv(p: Params, s: State, st: Step)
    requires Inv(p, s) && Do(p, s, st).Some?
    ensures Inv(p, Do(p, s, st).value)
    ensures st.Read? ==> !s.blocksClosed
    ensures st.Emit? ==> !s.packedClosed
  {
    var t := Do(p, s, st).value;
    forall i: nat ensures Places(p, t, i) == Once(p, i) {
      Conserved(p, s, st, i);
    }
  }

  // ---- progress ----

  ghost function HasherWeight(h: Hasher): nat {
    match h case Free => 1 case Holding(_) => 7 case Ended => 0
  }

  ghost function Weights(hs: seq<Hasher>): nat {
    if hs == [] then 0 else HasherWeight(hs[0]) + Weights(hs[1..])
  }

  ghost function MoverWeight(m: Mover): nat {
    match m case Ready => 1 case Busy(_, t) => (if t < 4 then 5 - t else 1) case Stopped => 0
  }

  ghost function MoverWeights(ms: seq<Mover>): nat {
    if ms == [] then 0 else MoverWeight(ms[0]) + MoverWeights(ms[1..])
  }

  /** Work left: a block weighs less at every station, a closed or ended thing weighs nothing. */
  ghost function WorkLeft(p: Params, s: State): nat {
    8 * (if s.next <= p.last then p.last + 1 - s.next else 0) + 7 * |s.blocks| + Weights(s.hashers)
    + 5 * |s.packed| + MoverWeights(s.movers)
    + (if s.blocksClosed then 0 else 1) + (if s.packedClosed then 0 else 1)
  }

  lemma {:induction false} WeightsUpdate(hs: seq<Hasher>, w: nat, h: Hasher)
    requires w < |hs|
    ensures Weights(hs[w := h]) == Weights(hs) - HasherWeight(hs[w]) + HasherWeight(h)
  {
    if w == 0 {
      assert hs[w := h][1..] == hs[1..];
    } else {
      WeightsUpdate(hs[1..], w - 1, h);
      assert hs[w := h][1..] == hs[1..][w - 1 := h];
    }
  }

  lemma {:induction false} MoverWeightsUpdate(ms: seq<Mover>, w: nat, m: Mover)
    requires w < |ms|
    ensures MoverWeights(ms[w := m]) == MoverWeights(ms) - MoverWeight(ms[w]) + MoverWeight(m)
  {
    if w == 0 {
      assert ms[w := m][1..] == ms[1..];
    } else {
      MoverWeightsUpdate(ms[1..], w - 1, m);
      assert ms[w := m][1..] == ms[1..][w - 1 := m];
    }
  }

  /** Every step, failed attempts included, leaves strictly less work. */
  lemma StepMakesProgress(p: Params, s: State, st: Step)
    requires Inv(p, s) && Do(p, s, st).Some?
    ensures WorkLeft(p, Do(p, s, st).value) < WorkLeft(p, s)
  {
    if st.Grab? || st.Emit? || st.EndHasher? {
      WeightsUpdate(s.hashers, st.w, Do(p, s, st).value.hashers[st.w]);
    } else if st.Take? || st.Succeed? || st.Fail? || st.Stop? {
      MoverMakesProgress(p, s, st);
    }
  }

  lemma MoverMakesProgress(p: Params, s: State, st: Step)
    requires Inv(p, s) && (st.Take? || st.Succeed? || st.Fail? || st.Stop?) && Do(p, s, st).Some?
    ensures WorkLeft(p, Do(p, s, st).value) < WorkLeft(p, s)
  {
    MoverWeightsUpdate(s.movers, st.w, Do(p, s, st).value.movers[st.w]);
  }

  /** As long as some transfer worker has not stopped, something can move. */
  lemma NoDeadlock(p: Params, s: State) returns (st: Step)
    requires 0 < p.workers && Inv(p, s) && !AllStopped(s)
    ensures Do(p, s, st).Some?
  {
    var m :| 0 <= m < |s.movers| && !s.movers[m].Stopped?;
    if s.movers[m].Busy? {
      return Succeed(m);
    } else if s.packed != [] {
      return Take(m);
    } else if s.packedClosed {
      return Stop(m);
    } else if AllEnded(s) {
      return CloseOut;
    }
    var h :| 0 <= h < |s.hashers| && !s.hashers[h].Ended?;
    if s.hashers[h].Holding? {
      return Emit(h);
    } else if s.blocks != [] {
      return Grab(h);
    } else if s.blocksClosed {
      return EndHasher(h);
    } else if s.next <= p.last {
      return Read;
    } else {
      return CloseBlocks;
    }
  }

  // ---- whole runs ----

  function Run(p: Params, s: State, steps: seq<Step>): Option<State>
    decreases steps
  {
    if steps == [] then Some(s)
    else match Do(p, s, steps[0])
      case None => None
      case Some(t) => Run(p, t, steps[1..])
  }

  /** Any run, however its attempts end, has at most as many steps as there was work, and
      keeps the invariant. */
  lemma {:induction false} RunsAreFinite(p: Params, s: State, steps: seq<Step>)
    requires Inv(p, s) && Run(p, s, steps).Some?
    ensures Inv(p, Run(p, s, steps).value)
    ensures |steps| + WorkLeft(p, Run(p, s, steps).value) <= WorkLeft(p, s)
    decreases steps
  {
    if steps != [] {
      StepKeepsInv(p, s, steps[0]);
      StepMakesProgress(p, s, steps[0]);
      RunsAreFinite(p, Do(p, s, steps[0]).value, steps[1..]);
    }
  }

  // ---- attempts ----

  ghost function TriesLeft(m: Mover, i: nat): int {
    if m.Busy? && m.idx == i then MAX_TRIES - m.tries else 0
  }

  ghost function MovingTries(ms: seq<Mover>, i: nat): int {
    if ms == [] then 0 else TriesLeft(ms[0], i) + MovingTries(ms[1..], i)
  }

  /** Attempts block `i` may still get. */
  ghost function Budget(p: Params, s: State, i: nat): int {
    MAX_TRIES * ((if s.next <= i <= p.last then 1 else 0)
                 + Queued(s.blocks, i) + Held(s.hashers, i) + Queued(s.packed, i))
    + MovingTries(s.movers, i)
  }

  /** The step ends an attempt, well or badly, at block `i`. */
  ghost predicate EndsAttempt(s: State, st: Step, i: nat) {
    (st.Succeed? || st.Fail?) && st.w < |s.movers| && s.movers[st.w].Busy? && s.movers[st.w].idx == i
  }

  lemma {:induction false} MovingTriesUpdate(ms: seq<Mover>, w: nat, m: Mover, i: nat)
    requires w < |ms|
    ensures MovingTries(ms[w := m], i) == MovingTries(ms, i) - TriesLeft(ms[w], i) + TriesLeft(m, i)
  {
    if w == 0 {
      assert ms[w := m][1..] == ms[1..];
    } else {
      MovingTriesUpdate(ms[1..], w - 1, m, i);
      assert ms[w := m][1..] == ms[1..][w - 1 := m];
    }
  }

  lemma MoverSpends(p: Params, s: State, st: Step, i: nat)
    requires Inv(p, s) && Do(p, s, st).Some? && (st.Take? || st.Succeed? || st.Fail? || st.Stop?)
    ensures Budget(p, Do(p, s, st).value, i) <= Budget(p, s, i) - if EndsAttempt(s, st, i) then 1 else 0
  {
    MovingTriesUpdate(s.movers, st.w, Do(p, s, st).value.movers[st.w], i);
  }

  lemma OtherSpends(p: Params, s: State, st: Step, i: nat)
    requires Inv(p, s) && Do(p, s, st).Some? && !(st.Take? || st.Succeed? || st.Fail? || st.Stop?)
    ensures Budget(p, Do(p, s, st).value, i) == Budget(p, s, i)
  {
    if st.Read? {
      QueuedAppend(s.blocks, s.next, i);
    } else if st.Grab? || st.Emit? || st.EndHasher? {
      HeldUpdate(s.hashers, st.w, Do(p, s, st).value.hashers[st.w], i);
      if st.Emit? {
        QueuedAppend(s.packed, s.hashers[st.w].idx, i);
      }
    }
  }

  lemma StepSpends(p: Params, s: State, st: Step, i: nat)
    requires Inv(p, s) && Do(p, s, st).Some?
    ensures Budget(p, Do(p, s, st).value, i) <= Budget(p, s, i) - if EndsAttempt(s, st, i) then 1 else 0
  {
    if st.Take? || st.Succeed? || st.Fail? || st.Stop? {
      MoverSpends(p, s, st, i);
    } else {
      OtherSpends(p, s, st, i);
    }
  }

  ghost function Attempts(p: Params, s: State, steps: seq<Step>, i: nat): nat
    decreases steps
  {
    if steps == [] || Do(p, s, steps[0]).None? then 0
    else (if EndsAttempt(s, steps[0], i) then 1 else 0)
         + Attempts(p, Do(p, s, steps[0]).value, steps[1..], i)
  }

  lemma {:induction false} BudgetNotNegative(ms: seq<Mover>, i: nat)
    requires forall w :: 0 <= w < |ms| && ms[w].Busy? ==> ms[w].tries < MAX_TRIES
    ensures MovingTries(ms, i) >= 0
  {
    if ms != [] {
      assert forall w :: 0 <= w < |ms[1..]| ==> ms[1..][w] == ms[w + 1];
      BudgetNotNegative(ms[1..], i);
    }
  }

  lemma {:induction false} AttemptsWithinBudget(p: Params, s: State, steps: seq<Step>, i: nat)
    requires Inv(p, s)
    ensures Attempts(p, s, steps, i) <= Budget(p, s, i)
    decreases steps
  {
    BudgetNotNegative(s.movers, i);
    if steps != [] && Do(p, s, steps[0]).Some? {
      StepKeepsInv(p, s, steps[0]);
      StepSpends(p, s, steps[0], i);
      AttemptsWithinBudget(p, Do(p, s, steps[0]).value, steps[1..], i);
    }
  }

  // ---- order ----

  ghost predicate Ascending(q: seq<nat>, first: int) {
    forall j :: 0 <= j < |q| ==> q[j] == first + j
  }

  /** The blocks read and not yet ended, by how far they have come, when there is one worker of
      each kind. */
  ghost function Line(s: State): seq<nat>
    requires |s.hashers| == |s.movers| == 1
  {
    (if s.movers[0].Busy? then [s.movers[0].idx] else []) + s.packed
    + (if s.hashers[0].Holding? then [s.hashers[0].idx] else []) + s.blocks
  }

  /** The reader's channel holds the blocks last read, in the file's order; with one worker, no
      block overtakes another anywhere. */
  ghost predicate InOrder(p: Params, s: State) {
    && Ascending(s.blocks, s.next - |s.blocks|)
    && (p.workers == 1 ==> |s.hashers| == |s.movers| == 1 && Ascending(Line(s), s.next - |Line(s)|))
  }

  lemma FirstTaken(q: seq<nat>, first: int)
    requires q != [] && Ascending(q, first)
    ensures Ascending(q[1..], first + 1)
  {
    forall j | 0 <= j < |q[1..]|
      ensures q[1..][j] == first + 1 + j
    {
      assert q[1..][j] == q[j + 1];
    }
  }

  lemma HashersKeepLine(p: Params, s: State, st: Step)
    requires |s.hashers| == |s.movers| == 1 && (st.Grab? || st.Emit? || st.EndHasher?) && Do(p, s, st).Some?
    ensures |Do(p, s, st).value.hashers| == 1 && Line(Do(p, s, st).value) == Line(s)
  {
    if st.Grab? {
      assert [s.blocks[0]] + s.blocks[1..] == s.blocks;
    } else if st.Emit? {
      assert s.packed + [s.hashers[0].idx] + [] + s.blocks == s.packed + [s.hashers[0].idx] + s.blocks;
    }
  }

  lemma TakeKeepsLine(p: Params, s: State, w: nat)
    requires |s.hashers| == |s.movers| == 1 && Do(p, s, Take(w)).Some?
    ensures |Do(p, s, Take(w)).value.movers| == 1 && Line(Do(p, s, Take(w)).value) == Line(s)
  {
    assert [s.packed[0]] + s.packed[1..] == s.packed;
  }

  lemma AttemptsKeepLine(p: Params, s: State, st: Step)
    requires |s.hashers| == |s.movers| == 1 && (st.Succeed? || st.Fail? || st.Stop?) && Do(p, s, st).Some?
    ensures var t := Do(p, s, st).value;
      |t.movers| == 1 && (Line(t) == Line(s) || (Line(s) != [] && Line(t) == Line(s)[1..]))
  {
    var t := Do(p, s, st).value;
    if !st.Stop? && t.movers[0].Ready? {
      assert Line(s) == [s.movers[0].idx] + Line(t);
    }
  }

  /** What a step does to the line `a`, when the reader's next block is `n`. */
  ghost predicate Moved(a: seq<nat>, n: nat, a': seq<nat>, n': nat) {
    || (a' == a + [n] && n' == n + 1)
    || (n' == n && (a' == a || (a != [] && a' == a[1..])))
  }

  lemma MovedKeepsOrder(a: seq<nat>, n: nat, a': seq<nat>, n': nat)
    requires Moved(a, n, a', n') && Ascending(a, n - |a|)
    ensures Ascending(a', n' - |a'|)
  {
    if a != [] {
      FirstTaken(a, n - |a|);
    }
  }

  lemma LineAfter(p: Params, s: State, st: Step)
    requires |s.hashers| == |s.movers| == 1 && Do(p, s, st).Some?
    ensures var t := Do(p, s, st).value;
      |t.hashers| == |t.movers| == 1 && Moved(Line(s), s.next, Line(t), t.next)
  {
    if st.Grab? || st.Emit? || st.EndHasher? {
      HashersKeepLine(p, s, st);
    } else if st.Take? {
      TakeKeepsLine(p, s, st.w);
    } else if st.Succeed? || st.Fail? || st.Stop? {
      AttemptsKeepLine(p, s, st);
    }
  }

  lemma LineKeepsOrder(p: Params, s: State, st: Step)
    requires |s.hashers| == |s.movers| == 1 && Ascending(Line(s), s.next - |Line(s)|) && Do(p, s, st).Some?
    ensures var t := Do(p, s, st).value;
      |t.hashers| == |t.movers| == 1 && Ascending(Line(t), t.next - |Line(t)|)
  {
    LineAfter(p, s, st);
    var t := Do(p, s, st).value;
    MovedKeepsOrder(Line(s), s.next, Line(t), t.next);
  }

  lemma StepKeepsOrder(p: Params, s: State, st: Step)
    requires InOrder(p, s) && Do(p, s, st).Some?
    ensures InOrder(p, Do(p, s, st).value)
  {
    if st.Grab? {
      FirstTaken(s.blocks, s.next - |s.blocks|);
    }
    if p.workers == 1 {
      LineKeepsOrder(p, s, st);
    }
  }

  lemma {:induction false} RunKeepsOrder(p: Params, s: State, steps: seq<Step>)
    requires InOrder(p, s) && Run(p, s, steps).Some?
    ensures InOrder(p, Run(p, s, steps).value)
    decreases steps
  {
    if steps != [] {
      StepKeepsOrder(p, s, steps[0]);
      RunKeepsOrder(p, Do(p, s, steps[0]).value, steps[1..]);
    }
  }

  /** In every run the channels keep the file's order: always between the reader and the hashers,
      and from the reader to the transfers when there is one worker. */
  lemma ChannelsKeepOrder(p: Params, steps: seq<Step>)
    requires Run(p, Init(p), steps).Some?
    ensures var s := Run(p, Init(p), steps).value;
      && (forall j :: 0 <= j < |s.blocks| ==> s.blocks[j] == s.next - |s.blocks| + j)
      && (p.workers == 1 ==>
            && |s.hashers| == |s.movers| == 1
            && forall j :: 0 <= j < |Line(s)| ==> Line(s)[j] == s.next - |Line(s)| + j)
  {
    RunKeepsOrder(p, Init(p), steps);
  }

  /** Back pressure: each channel holds at most two blocks for every worker, and as long as the reader
      or a hasher has a block to push it has to wait exactly when that many are there. */
  lemma FullChannelsWait(p: Params, steps: seq<Step>, h: nat)
    requires Run(p, Init(p), steps).Some? && h < p.workers
    ensures var s := Run(p, Init(p), steps).value;
      && |s.blocks| <= 2 * p.workers && |s.packed| <= 2 * p.workers && |s.hashers| == p.workers
      && (s.next <= p.last ==> (Do(p, s, Read).None? <==> |s.blocks| == 2 * p.workers))
      && (s.hashers[h].Holding? ==> (Do(p, s, Emit(h)).None? <==> |s.packed| == 2 * p.workers))
  {
    InitInv(p);
    RunsAreFinite(p, Init(p), steps);
  }

  // ---- failed attempts, counted ----

  ghost function TriesOf(m: Mover, i: nat): nat {
    if m.Busy? && m.idx == i then m.tries else 0
  }

  /** The failed attempts at block `i` that its worker remembers. */
  ghost function Tried(ms: seq<Mover>, i: nat): nat {
    if ms == [] then 0 else TriesOf(ms[0], i) + Tried(ms[1..], i)
  }

  /** The step is a failed attempt at block `i`. */
  ghost predicate FailsAt(s: State, st: Step, i: nat) {
    st.Fail? && st.w < |s.movers| && s.movers[st.w].Busy? && s.movers[st.w].idx == i
  }

  ghost function Failures(p: Params, s: State, steps: seq<Step>, i: nat): nat
    decreases steps
  {
    if steps == [] || Do(p, s, steps[0]).None? then 0
    else (if FailsAt(s, steps[0], i) then 1 else 0) + Failures(p, Do(p, s, steps[0]).value, steps[1..], i)
  }

  /** What `n` failed attempts at block `i` have come to. */
  ghost predicate Accounted(s: State, n: nat, i: nat) {
    if i in s.failed then n == 3 else if i in s.ok then n <= 2 else n == Tried(s.movers, i)
  }

  lemma {:induction false} TriedUpdate(ms: seq<Mover>, w: nat, m: Mover, i: nat)
    requires w < |ms|
    ensures Tried(ms[w := m], i) == Tried(ms, i) - TriesOf(ms[w], i) + TriesOf(m, i)
  {
    if w == 0 {
      assert ms[w := m][1..] == ms[1..];
    } else {
      TriedUpdate(ms[1..], w - 1, m, i);
      assert ms[w := m][1..] == ms[1..][w - 1 := m];
    }
  }

  lemma {:induction false} NotMovingNotTried(ms: seq<Mover>, i: nat)
    requires Moving(ms, i) == 0
    ensures Tried(ms, i) == 0
  {
    if ms != [] {
      NotMovingNotTried(ms[1..], i);
    }
  }

  /** A worker remembers every failed attempt at the block in its hands. */
  lemma TriedByOne(p: Params, s: State, w: nat)
    requires Inv(p, s) && w < |s.movers| && s.movers[w].Busy?
    ensures Tried(s.movers, s.movers[w].idx) == s.movers[w].tries
  {
    var b := s.movers[w].idx;
    BusyIsOpen(p, s, w);
    assert Places(p, s, b) == Once(p, b);
    MovingUpdate(s.movers, w, Ready, b);
    NotMovingNotTried(s.movers[w := Ready], b);
    TriedUpdate(s.movers, w, Ready, b);
  }

  lemma AttemptAccounts(p: Params, s: State, st: Step, n: nat, i: nat)
    requires Inv(p, s) && (st.Succeed? || st.Fail?) && Do(p, s, st).Some? && Accounted(s, n, i)
    ensures Accounted(Do(p, s, st).value, n + if FailsAt(s, st, i) then 1 else 0, i)
  {
    BusyIsOpen(p, s, st.w);
    TriedByOne(p, s, st.w);
    TriedUpdate(s.movers, st.w, Do(p, s, st).value.movers[st.w], i);
  }

  lemma StepAccounts(p: Params, s: State, st: Step, n: nat, i: nat)
    requires Inv(p, s) && Do(p, s, st).Some? && Accounted(s, n, i)
    ensures Accounted(Do(p, s, st).value, n + if FailsAt(s, st, i) then 1 else 0, i)
  {
    if st.Succeed? || st.Fail? {
      AttemptAccounts(p, s, st, n, i);
    } else if st.Take? || st.Stop? {
      TriedUpdate(s.movers, st.w, Do(p, s, st).value.movers[st.w], i);
    }
  }

  lemma {:induction false} RunAccounts(p: Params, s: State, steps: seq<Step>, n: nat, i: nat)
    requires Inv(p, s) && Run(p, s, steps).Some? && Accounted(s, n, i)
    ensures Inv(p, Run(p, s, steps).value)
    ensures Accounted(Run(p, s, steps).value, n + Failures(p, s, steps, i), i)
    decreases steps
  {
    if steps != [] {
      StepKeepsInv(p, s, steps[0]);
      StepAccounts(p, s, steps[0], n, i);
      RunAccounts(p, Do(p, s, steps[0]).value, steps[1..], n + if FailsAt(s, steps[0], i) then 1 else 0, i);
    }
  }

  lemma {:induction false} NothingTried(ms: seq<Mover>, i: nat)
    requires forall w :: 0 <= w < |ms| ==> !ms[w].Busy?
    ensures Tried(ms, i) == 0
  {
    NothingMoving(ms, i);
    NotMovingNotTried(ms, i);
  }

  /** Three failures mean given up, and nothing less does. */
  lemma ThreeIsTheEnd(p: Params, s: State, n: nat, i: nat)
    requires Inv(p, s) && Accounted(s, n, i)
    ensures if i in s.failed then n == 3 else n <= 2
  {
    if i !in s.failed && i !in s.ok && Tried(s.movers, i) > 0 {
      TriedBySome(s.movers, i);
      var w :| 0 <= w < |s.movers| && s.movers[w].Busy? && s.movers[w].idx == i;
      TriedByOne(p, s, w);
    }
  }

  lemma {:induction false} TriedBySome(ms: seq<Mover>, i: nat)
    requires Tried(ms, i) > 0
    ensures exists w :: 0 <= w < |ms| && ms[w].Busy? && ms[w].idx == i
  {
    if TriesOf(ms[0], i) == 0 {
      TriedBySome(ms[1..], i);
      var w :| 0 <= w < |ms[1..]| && ms[1..][w].Busy? && ms[1..][w].idx == i;
      assert ms[w + 1] == ms[1..][w];
    }
  }

  /** In every run a block is given up exactly after its third failed attempt: as long as it has
      failed at most twice it is not. */
  lemma GivenUpAfterThree(p: Params, steps: seq<Step>, i: nat)
    requires Run(p, Init(p), steps).Some?
    ensures if i in Run(p, Init(p), steps).value.failed then Failures(p, Init(p), steps, i) == 3
      else Failures(p, Init(p), steps, i) <= 2
  {
    InitInv(p);
    NothingTried(Init(p).movers, i);
    RunAccounts(p, Init(p), steps, 0, i);
    ThreeIsTheEnd(p, Run(p, Init(p), steps).value, Failures(p, Init(p), steps, i), i);
  }

  /** In no run is a block attempted more than three times, and a block below `skip` or past
      the end of the file never; and a block is given up only after three failed attempts. */
  lemma AtMostThreeAttempts(p: Params, steps: seq<Step>, i: nat)
    ensures Attempts(p, Init(p), steps, i) <= 3 * Once(p, i)
    ensures Run(p, Init(p), steps).Some? ==>
      (i in Run(p, Init(p), steps).value.failed <==> Failures(p, Init(p), steps, i) == 3)
  {
    InitInv(p);
    AttemptsWithinBudget(p, Init(p), steps, i);
    NothingHeld(Init(p).hashers, i);
    assert Places(p, Init(p), i) == Once(p, i);
    NothingMovingTries(Init(p).movers, i);
    if Run(p, Init(p), steps).Some? {
      GivenUpAfterThree(p, steps, i);
    }
  }

  lemma {:induction false} NothingMovingTries(ms: seq<Mover>, i: nat)
    requires forall w :: 0 <= w < |ms| ==> !ms[w].Busy?
    ensures MovingTries(ms, i) == 0
  {
    if ms != [] {
      assert forall w :: 0 <= w < |ms[1..]| ==> ms[1..][w] == ms[w + 1];
      NothingMovingTries(ms[1..], i);
    }
  }

  /** When every transfer worker has stopped, each block from `skip` on has ended exactly
      once, as delivered or as given up, and no other block has. */
  lemma StoppedMeansAllEnded(p: Params, s: State, i: nat)
    requires 0 < p.workers && Inv(p, s) && AllStopped(s)
    ensures s.ok[i] + s.failed[i] == Once(p, i)
  {
    assert s.movers[0].Stopped?;
    assert s.hashers[0].Ended?;
    NothingHeld(s.hashers, i);
    NothingMoving(s.movers, i);
    assert Places(p, s, i) == Once(p, i);
  }

  /** A run that can go no further has ended every block exactly once. */
  lemma MaximalRunsEndEverything(p: Params, steps: seq<Step>, i: nat)
    requires 0 < p.workers && Run(p, Init(p), steps).Some?
    requires forall st :: Do(p, Run(p, Init(p), steps).value, st).None?
    ensures var s := Run(p, Init(p), steps).value;
      AllStopped(s) && s.ok[i] + s.failed[i] == Once(p, i)
  {
    InitInv(p);
    RunsAreFinite(p, Init(p), steps);
    var s := Run(p, Init(p), steps).value;
    if !AllStopped(s) {
      var st := NoDeadlock(p, s);
      assert false;
    }
    StoppedMeansAllEnded(p, s, i);
  }

  lemma FailedInRange(p: Params, s: State, b: nat)
    requires Inv(p, s) && b in s.failed
    ensures p.skip <= b <= p.last
  {
    assert Places(p, s, b) == Once(p, b);
  }

  lemma {:induction false} MovingCounts(ms: seq<Mover>, w: nat, i: nat)
    requires w < |ms| && Moves(ms[w], i) == 1
    ensures Moving(ms, i) >= 1
  {
    MovingUpdate(ms, w, Ready, i);
  }

  /** A block in a transfer worker's hands is one of the run's blocks and has not ended yet;
      no other worker has it. */
  lemma BusyIsUnique(p: Params, s: State, w: nat, v: nat)
    requires Inv(p, s) && w < |s.movers| && s.movers[w].Busy?
    requires v < |s.movers| && v != w
    ensures var b := s.movers[w].idx;
      && p.skip <= b <= p.last && b !in s.ok && b !in s.failed
      && !(s.movers[v].Busy? && s.movers[v].idx == b)
  {
    var b := s.movers[w].idx;
    BusyIsOpen(p, s, w);
    assert Places(p, s, b) == Once(p, b);
    MovingUpdate(s.movers, w, Ready, b);
    if s.movers[v].Busy? && s.movers[v].idx == b {
      MovingCounts(s.movers[w := Ready], v, b);
    }
  }

  lemma BusyIsOpen(p: Params, s: State, w: nat)
    requires Inv(p, s) && w < |s.movers| && s.movers[w].Busy?
    ensures var b := s.movers[w].idx;
      p.skip <= b <= p.last && b !in s.ok && b !in s.failed
  {
    var b := s.movers[w].idx;
    MovingCounts(s.movers, w, b);
    assert Places(p, s, b) == Once(p, b);
  }
}
