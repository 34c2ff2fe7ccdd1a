/**
 The hydration pipeline: workers fetch segments in any order, each into its own
 one-place slot, while one consumer takes the slots strictly in order.
 */
module Hydration {
  import opened Common

  datatype Slot = Empty | Filled(ok: bool)

  datatype Worker = Idle | Got(slot: nat) | Fetching(slot: nat) | Failing

  /** `next` slots were handed out, the consumer has taken the first `at`. */
  datatype Pipeline = Pipeline(
    slots: seq<Slot>,
    next: nat,
    submitting: bool,
    workers: seq<Worker>,
    at: nat,
    consuming: bool,
    canceled: bool,
    ctxDone: bool)

  predicate Done(p: Pipeline) { p.canceled || p.ctxDone }

  datatype Step =
    | Submit(w: nat) | StopSubmitting
    | Skip(w: nat) | Begin(w: nat) | Deliver(w: nat) | Fail(w: nat) | Cancel(w: nat)
    | Take(writes: bool) | Quit | CallerCancels

  predicate Internal(s: Step) { !s.Take? && !s.Quit? && !s.CallerCancels? }

  function SetWorker(p: Pipeline, w: nat, x: Worker): Pipeline
    requires w < |p.workers|
  {
    p.(workers := p.workers[w := x])
  }

  ghost predicate Holds(x: Worker, i: nat) { (x.Got? || x.Fetching?) && x.slot == i }

  /** One step of the submitter, a worker or the consumer; filling a slot needs it to be empty. */
  ghost predicate Next(p: Pipeline, s: Step, q: Pipeline) {
    match s
    case Submit(w) =>
      && p.submitting && p.next < |p.slots| && w < |p.workers| && p.workers[w].Idle?
      && q == SetWorker(p, w, Got(p.next)).(next := p.next + 1)
    case StopSubmitting => p.submitting && (p.next == |p.slots| || Done(p)) && q == p.(submitting := false)
    case Skip(w) =>
      && w < |p.workers| && p.workers[w].Got? && Done(p) && p.workers[w].slot < |p.slots| && p.slots[p.workers[w].slot].Empty?
      && q == SetWorker(p, w, Idle).(slots := p.slots[p.workers[w].slot := Filled(false)])
    case Begin(w) => w < |p.workers| && p.workers[w].Got? && !Done(p) && q == SetWorker(p, w, Fetching(p.workers[w].slot))
    case Deliver(w) =>
      && w < |p.workers| && p.workers[w].Fetching? && p.workers[w].slot < |p.slots| && p.slots[p.workers[w].slot].Empty?
      && q == SetWorker(p, w, Idle).(slots := p.slots[p.workers[w].slot := Filled(true)])
    case Fail(w) =>
      && w < |p.workers| && p.workers[w].Fetching? && p.workers[w].slot < |p.slots| && p.slots[p.workers[w].slot].Empty?
      && q == SetWorker(p, w, Failing).(slots := p.slots[p.workers[w].slot := Filled(false)])
    case Cancel(w) => w < |p.workers| && p.workers[w].Failing? && q == SetWorker(p, w, Idle).(canceled := true)
    case Take(writes) =>
      && p.consuming && p.at < |p.slots| && p.slots[p.at].Filled?
      && q == if p.slots[p.at].ok && writes then p.(at := p.at + 1) else p.(consuming := false, canceled := true)
    case Quit => p.consuming && (p.ctxDone || p.at == |p.slots|) && q == p.(consuming := false, canceled := true)
    case CallerCancels => q == p.(ctxDone := true)
  }

  ghost predicate Fresh(p: Pipeline) {
    && p.next == p.at == 0 && p.submitting && p.consuming && !p.canceled && !p.ctxDone
    && (forall w :: 0 <= w < |p.workers| ==> p.workers[w].Idle?)
    && (forall i :: 0 <= i < |p.slots| ==> p.slots[i].Empty?)
  }

  ghost predicate InHand(p: Pipeline, i: nat) { exists w :: 0 <= w < |p.workers| && Holds(p.workers[w], i) }

  /** Each slot handed out is filled or in the hands of exactly one worker. */
  ghost predicate HandsOk(p: Pipeline)
    requires p.next <= |p.slots|
  {
    HandsOpen(p) && HandsApart(p) && forall i :: 0 <= i < p.next ==> p.slots[i].Filled? || InHand(p, i)
  }

  predicate Busy(x: Worker) { x.Got? || x.Fetching? }

  ghost predicate HandsOpen(p: Pipeline)
    requires p.next <= |p.slots|
  {
    forall w :: 0 <= w < |p.workers| && Busy(p.workers[w]) ==> p.workers[w].slot < p.next && p.slots[p.workers[w].slot].Empty?
  }

  ghost predicate HandsApart(p: Pipeline) {
    forall v, w :: 0 <= v < |p.workers| && 0 <= w < |p.workers| && v != w && Busy(p.workers[v]) ==> !Holds(p.workers[w], p.workers[v].slot)
  }

  ghost predicate Inv(p: Pipeline) {
    && p.next <= |p.slots| && p.at <= |p.slots| && HandsOk(p)
    && (forall i :: p.next <= i < |p.slots| ==> p.slots[i].Empty?)
    && (forall i :: 0 <= i < p.at ==> p.slots[i] == Filled(true))
    && FailureOk(p)
    && (!p.submitting && p.next < |p.slots| ==> Done(p))
  }

  ghost predicate HasFailure(p: Pipeline)
    requires p.next <= |p.slots|
  {
    exists k :: 0 <= k < p.next && p.slots[k] == Filled(false)
  }

  ghost predicate HasFailing(p: Pipeline) { exists w :: 0 <= w < |p.workers| && p.workers[w].Failing? }

  lemma HandBy(p: Pipeline, q: Pipeline, w: nat, i: nat)
    requires w < |p.workers| == |q.workers| && InHand(p, i)
    requires forall v :: 0 <= v < |p.workers| && v != w ==> q.workers[v] == p.workers[v]
    ensures InHand(q, i) || Holds(p.workers[w], i)
  {
    var v :| 0 <= v < |p.workers| && Holds(p.workers[v], i);
    if v != w { assert q.workers[v] == p.workers[v]; }
  }

  lemma HandsStayApart(p: Pipeline, s: Step, q: Pipeline)
    requires Inv(p) && Next(p, s, q)
    ensures HandsOpen(q) && HandsApart(q)
  {
    hide InHand, HasFailure, HasFailing;
  }

  lemma StepKeepsHands(p: Pipeline, s: Step, q: Pipeline)
    requires Inv(p) && Next(p, s, q)
    ensures HandsOk(q)
  {
    HandsStayApart(p, s, q);
    hide HandsOpen, HandsApart, HasFailure, HasFailing;
    if s.Submit? || s.Skip? || s.Begin? || s.Deliver? || s.Fail? || s.Cancel? {
      forall i | 0 <= i < q.next ensures q.slots[i].Filled? || InHand(q, i) {
        if i < p.next && p.slots[i].Empty? { HandBy(p, q, s.w, i); }
        if Holds(q.workers[s.w], i) { assert InHand(q, i); }
      }
    }
  }

  ghost predicate FailureOk(p: Pipeline)
    requires p.next <= |p.slots|
  {
    p.consuming && (p.canceled || HasFailing(p)) ==> p.ctxDone || HasFailure(p)
  }

  lemma StepKeepsFailure(p: Pipeline, s: Step, q: Pipeline)
    requires Inv(p) && Next(p, s, q)
    ensures FailureOk(q)
  {
    hide HandsApart, InHand;
    if q.consuming && (q.canceled || HasFailing(q)) && !q.ctxDone {
      if s.Fail? {
        assert q.slots[p.workers[s.w].slot] == Filled(false);
      } else {
        assert p.canceled || HasFailing(p);
        var k :| 0 <= k < p.next && p.slots[k] == Filled(false);
        assert q.slots[k] == Filled(false);
      }
    }
  }

  lemma StepKeepsInv(p: Pipeline, s: Step, q: Pipeline)
    requires Inv(p) && Next(p, s, q)
    ensures Inv(q) && |q.workers| == |p.workers|
  {
    StepKeepsHands(p, s, q);
    StepKeepsFailure(p, s, q);
    HandsInside(p);
    hide HandsOk, FailureOk;
  }

  lemma HandsInside(p: Pipeline)
    requires p.next <= |p.slots| && HandsOk(p)
    ensures forall w :: 0 <= w < |p.workers| && Busy(p.workers[w]) ==> p.workers[w].slot < p.next && p.slots[p.workers[w].slot].Empty?
  {
  }

  ghost predicate Run(ps: seq<Pipeline>, ss: seq<Step>) {
    && |ps| == |ss| + 1 && Fresh(ps[0])
    && forall i :: 0 <= i < |ss| ==> Next(ps[i], ss[i], ps[i + 1])
  }

  lemma {:induction false} RunKeepsInv(ps: seq<Pipeline>, ss: seq<Step>, k: nat)
    requires Run(ps, ss) && k < |ps|
    ensures Inv(ps[k]) && |ps[k].workers| == |ps[0].workers|
  {
    if k > 0 {
      hide Inv, Next;
      RunKeepsInv(ps, ss, k - 1);
      StepKeepsInv(ps[k - 1], ss[k - 1], ps[k]);
    }
  }

  /** The consumer waits for a slot, and the caller has not given up. */
  ghost predicate Waiting(p: Pipeline) { p.consuming && p.at < |p.slots| && p.slots[p.at].Empty? && !p.ctxDone }

  /** Whatever the schedule, the slot waited for is with a worker or still to be handed out. */
  lemma NeverStranded(ps: seq<Pipeline>, ss: seq<Step>, k: nat)
    requires Run(ps, ss) && k < |ps| && Waiting(ps[k])
    ensures InHand(ps[k], ps[k].at) || (ps[k].submitting && ps[k].next <= ps[k].at)
  {
    RunKeepsInv(ps, ss, k);
  }

  // ---------------------------------------------------------------- the wait ends

  function Weight(x: Worker): nat { match x case Idle => 0 case Got(_) => 3 case Fetching(_) => 2 case Failing => 1 }

  function Weights(ws: seq<Worker>): nat { if ws == [] then 0 else Weights(ws[..|ws| - 1]) + Weight(ws[|ws| - 1]) }

  /** How many steps the submitter and the workers have left at most. */
  function Left(p: Pipeline): int { 4 * (|p.slots| - p.next) + Weights(p.workers) + if p.submitting then 1 else 0 }

  lemma {:induction false} WeightsUpdate(ws: seq<Worker>, w: nat, x: Worker)
    requires w < |ws|
    ensures Weights(ws[w := x]) == Weights(ws) - Weight(ws[w]) + Weight(x)
    decreases |ws|
  {
    var n := |ws| - 1;
    if w < n {
      WeightsUpdate(ws[..n], w, x);
      assert ws[w := x][..n] == ws[..n][w := x];
    } else {
      assert ws[w := x][..n] == ws[..n];
    }
  }

  lemma InternalStepsRunOut(p: Pipeline, s: Step, q: Pipeline)
    requires Inv(p) && Next(p, s, q) && Internal(s)
    ensures 0 <= Left(q) < Left(p)
  {
    StepKeepsInv(p, s, q);
    if !s.StopSubmitting? { WeightsUpdate(p.workers, s.w, q.workers[s.w]); }
  }

  /**
   While the consumer waits, some worker or the submitter can move; such moves run out.  So
   the wait ends, without help from the caller, after at most `Left` of them.
   */
  lemma WaitEnds(ps: seq<Pipeline>, ss: seq<Step>, k: nat) returns (s: Step, q: Pipeline)
    requires Run(ps, ss) && k < |ps| && Waiting(ps[k]) && |ps[0].workers| > 0
    ensures Next(ps[k], s, q) && Internal(s) && 0 <= Left(q) < Left(ps[k])
  {
    RunKeepsInv(ps, ss, k);
    NeverStranded(ps, ss, k);
    var p := ps[k];
    var w: nat := 0;
    if InHand(p, p.at) { w :| 0 <= w < |p.workers| && Holds(p.workers[w], p.at); }
    match p.workers[w] {
    case Idle => s, q := Submit(w), SetWorker(p, w, Got(p.next)).(next := p.next + 1);
    case Got(i) =>
      if Done(p) { s, q := Skip(w), SetWorker(p, w, Idle).(slots := p.slots[i := Filled(false)]); }
      else { s, q := Begin(w), SetWorker(p, w, Fetching(i)); }
    case Fetching(i) => s, q := Deliver(w), SetWorker(p, w, Idle).(slots := p.slots[i := Filled(true)]);
    case Failing => s, q := Cancel(w), SetWorker(p, w, Idle).(canceled := true);
    }
    InternalStepsRunOut(p, s, q);
  }

  // ---------------------------------------------------------------- nothing is given up needlessly

  /** No fetch fails, no write fails, and the caller does not cancel. */
  predicate Smooth(s: Step) { !s.Fail? && !s.CallerCancels? && s != Take(false) }

  /** While the consumer goes on nothing has failed; when it stops it has taken everything. */
  ghost predicate Untroubled(p: Pipeline) {
    && !p.ctxDone && !HasFailing(p)
    && (p.consuming ==> !p.canceled && forall i :: 0 <= i < |p.slots| ==> p.slots[i] != Filled(false))
    && (!p.consuming ==> p.at == |p.slots|)
  }

  lemma StepStaysUntroubled(p: Pipeline, s: Step, q: Pipeline)
    requires Inv(p) && Next(p, s, q) && Smooth(s) && Untroubled(p)
    ensures Untroubled(q)
  {
    hide HandsOk, FailureOk;
  }

  /** Where nothing fails and nobody cancels, hydration ends with every segment taken, in order. */
  lemma {:induction false} SmoothRunTakesAll(ps: seq<Pipeline>, ss: seq<Step>, k: nat)
    requires Run(ps, ss) && k < |ps| && forall i :: 0 <= i < k ==> Smooth(ss[i])
    ensures Untroubled(ps[k]) && (!ps[k].consuming ==> ps[k].at == |ps[k].slots|)
  {
    hide Inv, Next, Smooth;
    if k > 0 {
      SmoothRunTakesAll(ps, ss, k - 1);
      RunKeepsInv(ps, ss, k - 1);
      StepStaysUntroubled(ps[k - 1], ss[k - 1], ps[k]);
    }
  }
}
