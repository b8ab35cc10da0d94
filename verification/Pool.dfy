/** The server's hash pool: one goroutine feeds block numbers into a bounded channel, and workers
    take them, read the block and store its hash (checksum.go). In module Protocol only the jobs
    field is left of it: what can happen there is exactly what the channel and workers allow, and
    perhaps more. */
module Pool {
  import opened Basics
  import Protocol
  import Pipeline

  datatype Params = Params(first: nat, last: nat, workers: nat) {
    function Capacity(): nat { 2 * workers }
  }

  datatype Worker = Idle | Has(idx: nat) | Holds(idx: nat) | Ended

  /** `jobs` says of each block whether its content has been read, and its hash stored. */
  datatype State = State(next: nat, queue: seq<nat>, closed: bool, workers: seq<Worker>, jobs: map<nat, Protocol.Job>)

  datatype Step = Feed | Close | Grab(w: nat) | Read(w: nat, data: Bytes) | Store(w: nat) | End(w: nat)

  predicate InRange(p: Params, i: nat) {
    p.first <= i <= p.last
  }

  function Init(p: Params): State {
    State(p.first, [], false, seq(p.workers, i => Idle), map i: nat | i <= p.last && InRange(p, i) :: Protocol.Todo)
  }

  function Do(p: Params, s: State, st: Step): Option<State> {
    match st
    case Feed =>
      if s.next <= p.last && |s.queue| < p.Capacity() then Some(s.(queue := s.queue + [s.next], next := s.next + 1))
      else None
    case Close =>
      if s.next > p.last && !s.closed then Some(s.(closed := true)) else None
    case Grab(w) =>
      if w < |s.workers| && s.workers[w].Idle? && s.queue != [] then
        Some(s.(workers := s.workers[w := Has(s.queue[0])], queue := s.queue[1..]))
      else None
    case Read(w, data) =>
      if w < |s.workers| && s.workers[w].Has? then
        var i := s.workers[w].idx;
        Some(s.(workers := s.workers[w := Holds(i)], jobs := s.jobs[i := Protocol.Reading(data)]))
      else None
    case Store(w) =>
      if w < |s.workers| && s.workers[w].Holds? then
        Some(s.(workers := s.workers[w := Idle], jobs := s.jobs[s.workers[w].idx := Protocol.Stored]))
      else None
    case End(w) =>
      if w < |s.workers| && s.workers[w].Idle? && s.queue == [] && s.closed then
        Some(s.(workers := s.workers[w := Ended]))
      else None
  }

  // ---- where every block is ----

  ghost function Pending(w: Worker, i: nat): nat {
    if w == Has(i) then 1 else 0
  }

  ghost function InFlight(w: Worker, i: nat): nat {
    if w == Holds(i) then 1 else 0
  }

  ghost function Sum(at: (Worker, nat) -> nat, ws: seq<Worker>, i: nat): nat {
    if ws == [] then 0 else at(ws[0], i) + Sum(at, ws[1..], i)
  }

  /** At how many places block `i` waits to be read: not yet fed, in the channel, or with a worker. */
  ghost function Waiting(p: Params, s: State, i: nat): nat {
    (if s.next <= i <= p.last then 1 else 0) + Pipeline.Queued(s.queue, i) + Sum((w, j) => Pending(w, j), s.workers, i)
  }

  /** How many workers hold its content. */
  ghost function Reads(s: State, i: nat): nat {
    Sum((w, j) => InFlight(w, j), s.workers, i)
  }

  ghost function Done(s: State, i: nat): nat {
    if i in s.jobs && s.jobs[i].Stored? then 1 else 0
  }

  /** Block `i` of the range is at exactly one of these places, and the jobs say at which kind. */
  ghost predicate InOnePlace(p: Params, s: State, i: nat) {
    && (i in s.jobs <==> InRange(p, i))
    && Waiting(p, s, i) == (if i in s.jobs && s.jobs[i].Todo? then 1 else 0)
    && Reads(s, i) == (if i in s.jobs && s.jobs[i].Reading? then 1 else 0)
  }

  ghost predicate AllEnded(s: State) {
    forall w :: 0 <= w < |s.workers| ==> s.workers[w].Ended?
  }

  ghost predicate Inv(p: Params, s: State) {
    && |s.workers| == p.workers && |s.queue| <= p.Capacity() && p.first <= s.next
    && (forall i: nat :: InOnePlace(p, s, i))
    && (s.closed ==> s.next > p.last)
    && (forall w :: 0 <= w < |s.workers| && s.workers[w].Ended? ==> s.closed && s.queue == [])
  }

  lemma {:induction false} SumUpdate(at: (Worker, nat) -> nat, ws: seq<Worker>, w: nat, x: Worker, i: nat)
    requires w < |ws|
    ensures Sum(at, ws[w := x], i) == Sum(at, ws, i) - at(ws[w], i) + at(x, i)
  {
    if w == 0 {
      assert ws[w := x][1..] == ws[1..];
    } else {
      SumUpdate(at, ws[1..], w - 1, x, i);
      assert ws[w := x][1..] == ws[1..][w - 1 := x];
    }
  }

  lemma {:induction false} SumZero(at: (Worker, nat) -> nat, ws: seq<Worker>, i: nat)
    requires forall w :: 0 <= w < |ws| ==> at(ws[w], i) == 0
    ensures Sum(at, ws, i) == 0
  {
    if ws != [] {
      assert forall w :: 0 <= w < |ws[1..]| ==> ws[1..][w] == ws[w + 1];
      SumZero(at, ws[1..], i);
    }
  }

  lemma InitInv(p: Params)
    ensures Inv(p, Init(p))
  {
    forall i: nat
      ensures InOnePlace(p, Init(p), i)
    {
      SumZero((w, j) => Pending(w, j), Init(p).workers, i);
      SumZero((w, j) => InFlight(w, j), Init(p).workers, i);
    }
  }

  lemma WorkerSums(s: State, w: nat, x: Worker, i: nat)
    requires w < |s.workers|
    ensures Sum((w, j) => Pending(w, j), s.workers[w := x], i)
      == Sum((w, j) => Pending(w, j), s.workers, i) - Pending(s.workers[w], i) + Pending(x, i)
    ensures Sum((w, j) => InFlight(w, j), s.workers[w := x], i)
      == Sum((w, j) => InFlight(w, j), s.workers, i) - InFlight(s.workers[w], i) + InFlight(x, i)
  {
    SumUpdate((w, j) => Pending(w, j), s.workers, w, x, i);
    SumUpdate((w, j) => InFlight(w, j), s.workers, w, x, i);
  }

  /** A worker holds only blocks of the range, in the state the jobs say. */
  lemma WorkerHolds(p: Params, s: State, w: nat, i: nat)
    requires w < |s.workers| && InOnePlace(p, s, i)
    ensures s.workers[w] == Has(i) ==> i in s.jobs && s.jobs[i].Todo?
    ensures s.workers[w] == Holds(i) ==> i in s.jobs && s.jobs[i].Reading?
  {
    WorkerSums(s, w, Idle, i);
  }

  lemma StaysInOnePlace(p: Params, s: State, st: Step, i: nat)
    requires Inv(p, s) && Do(p, s, st).Some?
    ensures InOnePlace(p, Do(p, s, st).value, i)
  {
    var t := Do(p, s, st).value;
    assert InOnePlace(p, s, i);
    match st
    case Feed => Pipeline.QueuedAppend(s.queue, s.next, i);
    case Close =>
    case Grab(w) => WorkerSums(s, w, t.workers[w], i);
    case Read(w, data) =>
      WorkerHolds(p, s, w, i);
      WorkerSums(s, w, t.workers[w], i);
    case Store(w) =>
      WorkerHolds(p, s, w, i);
      WorkerSums(s, w, t.workers[w], i);
    case End(w) => WorkerSums(s, w, t.workers[w], i);
  }

  lemma StepKeepsInv(p: Params, s: State, st: Step)
    requires Inv(p, s) && Do(p, s, st).Some?
    ensures Inv(p, Do(p, s, st).value)
  {
    forall i: nat
      ensures InOnePlace(p, Do(p, s, st).value, i)
    {
      StaysInOnePlace(p, s, st, i);
    }
  }

  function Run(p: Params, s: State, steps: seq<Step>): Option<State>
    decreases steps
  {
    if steps == [] then Some(s)
    else match Do(p, s, steps[0])
      case None => None
      case Some(t) => Run(p, t, steps[1..])
  }

  // ---- what the rest of the server sees ----

  /** The pool starts with the jobs of module Protocol. */
  lemma SameJobs(c: Protocol.Cfg)
    requires 0 < |c.prior|
    ensures Init(Params(c.srvSkip, Protocol.MaxId(c), c.srvWorkers)).jobs == Protocol.InitJobs(c)
  {
    var jobs := Init(Params(c.srvSkip, Protocol.MaxId(c), c.srvWorkers)).jobs;
    forall i: nat
      ensures i in jobs <==> i in Protocol.InitJobs(c)
    {
      assert Protocol.InPool(c, i) <==> c.srvSkip <= i <= Protocol.MaxId(c);
    }
  }

  /** One action of a pool worker on shared memory, as module Protocol has it: a block not yet read is
      read, or the hash of one that was read is stored. */
  ghost predicate JobAction(jobs: map<nat, Protocol.Job>, jobs': map<nat, Protocol.Job>) {
    exists i: nat :: i in jobs &&
      ((jobs[i].Todo? && exists data :: jobs' == jobs[i := Protocol.Reading(data)])
       || (jobs[i].Reading? && jobs' == jobs[i := Protocol.Stored]))
  }

  /** Every step of the pool is no action on the jobs or one that module Protocol allows; the latter
      only with a worker to take it. */
  lemma StepIsJobAction(p: Params, s: State, st: Step)
    requires Inv(p, s) && Do(p, s, st).Some?
    ensures var jobs := Do(p, s, st).value.jobs; jobs == s.jobs || (0 < p.workers && JobAction(s.jobs, jobs))
  {
    if st.Read? || st.Store? {
      var i := s.workers[st.w].idx;
      assert InOnePlace(p, s, i);
      WorkerHolds(p, s, st.w, i);
      if st.Read? {
        assert Do(p, s, st).value.jobs == s.jobs[i := Protocol.Reading(st.data)];
      }
      assert JobAction(s.jobs, Do(p, s, st).value.jobs);
    }
  }

  // ---- partition and progress ----

  lemma {:induction false} RunKeepsInv(p: Params, s: State, steps: seq<Step>)
    requires Inv(p, s) && Run(p, s, steps).Some?
    ensures Inv(p, Run(p, s, steps).value)
    ensures |steps| + WorkLeft(p, Run(p, s, steps).value) <= WorkLeft(p, s)
    decreases steps
  {
    if steps != [] {
      StepKeepsInv(p, s, steps[0]);
      StepMakesProgress(p, s, steps[0]);
      RunKeepsInv(p, Do(p, s, steps[0]).value, steps[1..]);
    }
  }

  /** In every state of every run each block of the range is waiting at exactly one place, or being
      hashed by exactly one worker, or done; no other block is anywhere. */
  lemma Partition(p: Params, steps: seq<Step>, i: nat)
    requires Run(p, Init(p), steps).Some?
    ensures var s := Run(p, Init(p), steps).value;
      Waiting(p, s, i) + Reads(s, i) + Done(s, i) == if InRange(p, i) then 1 else 0
  {
    InitInv(p);
    RunKeepsInv(p, Init(p), steps);
    assert InOnePlace(p, Run(p, Init(p), steps).value, i);
  }

  ghost function WorkerWeight(w: Worker): nat {
    match w case Idle => 1 case Has(_) => 3 case Holds(_) => 2 case Ended => 0
  }

  ghost function Weights(ws: seq<Worker>): nat {
    if ws == [] then 0 else WorkerWeight(ws[0]) + Weights(ws[1..])
  }

  ghost function WorkLeft(p: Params, s: State): nat {
    4 * (if s.next <= p.last then p.last + 1 - s.next else 0) + 3 * |s.queue| + Weights(s.workers)
    + if s.closed then 0 else 1
  }

  lemma {:induction false} WeightsUpdate(ws: seq<Worker>, w: nat, x: Worker)
    requires w < |ws|
    ensures Weights(ws[w := x]) == Weights(ws) - WorkerWeight(ws[w]) + WorkerWeight(x)
  {
    if w == 0 {
      assert ws[w := x][1..] == ws[1..];
    } else {
      WeightsUpdate(ws[1..], w - 1, x);
      assert ws[w := x][1..] == ws[1..][w - 1 := x];
    }
  }

  lemma StepMakesProgress(p: Params, s: State, st: Step)
    requires Inv(p, s) && Do(p, s, st).Some?
    ensures WorkLeft(p, Do(p, s, st).value) < WorkLeft(p, s)
  {
    if !st.Feed? && !st.Close? {
      WeightsUpdate(s.workers, st.w, Do(p, s, st).value.workers[st.w]);
    }
  }

  /** With at least one worker a step is possible until all workers have ended. */
  lemma NoDeadlock(p: Params, s: State) returns (st: Step)
    requires Inv(p, s) && !AllEnded(s)
    ensures Do(p, s, st).Some?
  {
    var w :| 0 <= w < |s.workers| && !s.workers[w].Ended?;
    if s.workers[w].Has? {
      return Read(w, []);
    } else if s.workers[w].Holds? {
      return Store(w);
    } else if s.queue != [] {
      return Grab(w);
    } else if s.closed {
      return End(w);
    } else if s.next <= p.last {
      return Feed;
    } else {
      return Close;
    }
  }

  /** A run that can go no further has stored the hash of exactly the blocks of the range, if there is
      a worker; with none it has stored nothing. */
  lemma MaximalRunsStoreAll(p: Params, steps: seq<Step>, i: nat)
    requires Run(p, Init(p), steps).Some? && forall st :: Do(p, Run(p, Init(p), steps).value, st).None?
    ensures var s := Run(p, Init(p), steps).value;
      (i in s.jobs && s.jobs[i].Stored?) <==> (InRange(p, i) && 0 < p.workers)
  {
    InitInv(p);
    RunKeepsInv(p, Init(p), steps);
    var s := Run(p, Init(p), steps).value;
    assert InOnePlace(p, s, i);
    if p.workers == 0 {
      NoWorkerNothingRead(p, Init(p), steps, i);
    } else {
      if !AllEnded(s) {
        var st := NoDeadlock(p, s);
      }
      assert s.workers[0].Ended?;
      SumZero((w, j) => Pending(w, j), s.workers, i);
      SumZero((w, j) => InFlight(w, j), s.workers, i);
    }
  }

  lemma {:induction false} NoWorkerNothingRead(p: Params, s: State, steps: seq<Step>, i: nat)
    requires p.workers == 0 && s.workers == [] && Run(p, s, steps).Some?
    ensures Run(p, s, steps).value.jobs == s.jobs
    decreases steps
  {
    if steps != [] {
      NoWorkerNothingRead(p, Do(p, s, steps[0]).value, steps[1..], i);
    }
  }
}
