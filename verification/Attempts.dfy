/** The transfer workers' attempts in the whole system: every step moves the client's pipeline as
    module Pipeline says, and a block is given up after its third failed attempt (client.go). */
module Attempts {
  import opened Basics
  import opened Protocol
  import Pipeline

  /** The pipeline's part in a step of the system, if it has one. */
  ghost function PipelineStep(c: Cfg, s: State, st: Step): Option<Pipeline.Step>
    requires Do(c, s, st).Some?
  {
    match st
    case Inside(p) => Some(p)
    case Stop(w) => Some(Pipeline.Stop(w))
    case DialFail(w) => Some(Pipeline.Fail(w))
    case HearFail(w) => Some(Pipeline.Fail(w))
    case NoPayload(w) => Some(Pipeline.Fail(w))
    case Ask(w, _, ok) => if ok then None else Some(Pipeline.Fail(w))
    case SendHead(w, _, ok) => if ok then None else Some(Pipeline.Fail(w))
    case SendZero(w, _, ok) => Some(if ok then Pipeline.Succeed(w) else Pipeline.Fail(w))
    case SendBody(w, _, ok) => Some(if ok then Pipeline.Succeed(w) else Pipeline.Fail(w))
    case Hear(w) =>
      if TheConn(s, w).down[..16] == Packed(c, s.pipe.movers[w].idx).hash then Some(Pipeline.Succeed(w)) else None
    case _ => None
  }

  ghost function PipelineAfter(c: Cfg, s: State, st: Step): Option<Pipeline.State>
    requires Do(c, s, st).Some?
  {
    match PipelineStep(c, s, st)
    case None => Some(s.pipe)
    case Some(p) => Pipeline.Do(Pipe(c), s.pipe, p)
  }

  lemma ServerLeavesPipeline(c: Cfg, s: State, st: Step)
    requires !ClientStep(st) && Do(c, s, st).Some?
    ensures Do(c, s, st).value.pipe == s.pipe
  {
  }

  lemma WriteIsPipelineStep(c: Cfg, s: State, st: Step)
    requires (st.SendZero? || st.SendHead? || st.SendBody?) && Do(c, s, st).Some?
    ensures PipelineAfter(c, s, st) == Some(Do(c, s, st).value.pipe)
  {
  }

  lemma ExchangeIsPipelineStep(c: Cfg, s: State, st: Step)
    requires (st.Ask? || st.Hear? || st.HearFail? || st.NoPayload?) && Do(c, s, st).Some?
    ensures PipelineAfter(c, s, st) == Some(Do(c, s, st).value.pipe)
  {
  }

  /** Refinement: each step of the system is a step of the pipeline or leaves it alone. */
  lemma StepIsPipelineStep(c: Cfg, s: State, st: Step)
    requires Do(c, s, st).Some?
    ensures PipelineAfter(c, s, st) == Some(Do(c, s, st).value.pipe)
  {
    if !ClientStep(st) {
      ServerLeavesPipeline(c, s, st);
    } else if st.SendZero? || st.SendHead? || st.SendBody? {
      WriteIsPipelineStep(c, s, st);
    } else if st.Ask? || st.Hear? || st.HearFail? || st.NoPayload? {
      ExchangeIsPipelineStep(c, s, st);
    }
  }

  ghost predicate HasBlock(s: State, w: nat, b: nat) {
    BusyWorker(s, w) && s.pipe.movers[w].idx == b
  }

  /** The step makes an attempt at block `b` fail: the dial, a write or the read of the answer, or
      there is nothing to send. */
  ghost predicate AttemptFails(s: State, st: Step, b: nat) {
    match st
    case DialFail(w) => HasBlock(s, w, b)
    case Ask(w, _, ok) => !ok && HasBlock(s, w, b)
    case HearFail(w) => HasBlock(s, w, b)
    case SendZero(w, _, ok) => !ok && HasBlock(s, w, b)
    case SendHead(w, _, ok) => !ok && HasBlock(s, w, b)
    case SendBody(w, _, ok) => !ok && HasBlock(s, w, b)
    case NoPayload(w) => HasBlock(s, w, b)
    case _ => false
  }

  /** The failed attempts at block `b` in a run. */
  ghost function FailedAttempts(c: Cfg, s: State, steps: seq<Step>, b: nat): nat
    decreases steps
  {
    if steps == [] || Do(c, s, steps[0]).None? then 0
    else (if AttemptFails(s, steps[0], b) then 1 else 0)
         + FailedAttempts(c, Do(c, s, steps[0]).value, steps[1..], b)
  }

  lemma FailuresAgree(c: Cfg, s: State, st: Step, b: nat)
    requires Do(c, s, st).Some?
    ensures AttemptFails(s, st, b) <==>
      PipelineStep(c, s, st).Some? && Pipeline.FailsAt(s.pipe, PipelineStep(c, s, st).value, b)
  {
  }

  lemma StepAccounts(c: Cfg, s: State, st: Step, n: nat, b: nat)
    requires Pipeline.Inv(Pipe(c), s.pipe) && Do(c, s, st).Some? && Pipeline.Accounted(s.pipe, n, b)
    ensures Pipeline.Inv(Pipe(c), Do(c, s, st).value.pipe)
    ensures Pipeline.Accounted(Do(c, s, st).value.pipe, n + if AttemptFails(s, st, b) then 1 else 0, b)
  {
    StepIsPipelineStep(c, s, st);
    FailuresAgree(c, s, st, b);
    var p := PipelineStep(c, s, st);
    if p.Some? {
      Pipeline.StepKeepsInv(Pipe(c), s.pipe, p.value);
      Pipeline.StepAccounts(Pipe(c), s.pipe, p.value, n, b);
    }
  }

  lemma {:induction false} RunAccounts(c: Cfg, s: State, steps: seq<Step>, n: nat, b: nat)
    requires Pipeline.Inv(Pipe(c), s.pipe) && Run(c, s, steps).Some? && Pipeline.Accounted(s.pipe, n, b)
    ensures Pipeline.Inv(Pipe(c), Run(c, s, steps).value.pipe)
    ensures Pipeline.Accounted(Run(c, s, steps).value.pipe, n + FailedAttempts(c, s, steps, b), b)
    decreases steps
  {
    if steps != [] {
      StepAccounts(c, s, steps[0], n, b);
      var n' := n + if AttemptFails(s, steps[0], b) then 1 else 0;
      RunAccounts(c, Do(c, s, steps[0]).value, steps[1..], n', b);
    }
  }

  /** In every run of the system a block is given up exactly after its third failed attempt. */
  lemma GivenUpAfterThree(c: Cfg, steps: seq<Step>, b: nat)
    requires Run(c, Init(c), steps).Some?
    ensures if b in Run(c, Init(c), steps).value.pipe.failed then FailedAttempts(c, Init(c), steps, b) == 3
      else FailedAttempts(c, Init(c), steps, b) <= 2
  {
    var n := FailedAttempts(c, Init(c), steps, b);
    Pipeline.InitInv(Pipe(c));
    Pipeline.NothingTried(Init(c).pipe.movers, b);
    RunAccounts(c, Init(c), steps, 0, b);
    Pipeline.ThreeIsTheEnd(Pipe(c), Run(c, Init(c), steps).value.pipe, n, b);
  }

  lemma OkStays(c: Cfg, s: Pipeline.State, p: Option<Pipeline.Step>, t: Pipeline.State, b: nat)
    requires b in s.ok
    requires match p { case None => t == s case Some(p) => Pipeline.Do(Pipe(c), s, p) == Some(t) }
    ensures b in t.ok
  {
  }

  lemma StaysDelivered(c: Cfg, s: State, st: Step, b: nat)
    requires b in s.pipe.ok && Do(c, s, st).Some?
    ensures b in Do(c, s, st).value.pipe.ok
  {
    StepIsPipelineStep(c, s, st);
    OkStays(c, s.pipe, PipelineStep(c, s, st), Do(c, s, st).value.pipe, b);
  }

  /** A block reported as delivered stays so. */
  lemma {:induction false} DeliveredStays(c: Cfg, s: State, steps: seq<Step>, b: nat)
    requires b in s.pipe.ok && Run(c, s, steps).Some?
    ensures b in Run(c, s, steps).value.pipe.ok
    decreases steps
  {
    if steps != [] {
      StaysDelivered(c, s, steps[0], b);
      DeliveredStays(c, Do(c, s, steps[0]).value, steps[1..], b);
    }
  }
}
