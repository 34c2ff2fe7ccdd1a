/**
 The worker pools: a submitter hands segment numbers to workers over an unbuffered
 channel, a failing worker cancels its peers, and the caller may cancel at any time.
 */
module Pools {
  import opened Common

  datatype SegmentError = ContextCanceled | Real(message: string)

  /** The error to report: a real one first, then the caller's own cancellation, then any. */
  method FirstSegmentError(errs: seq<Option<SegmentError>>, ctxErr: Option<SegmentError>) returns (e: Option<SegmentError>)
    ensures e.None? <==> ctxErr.None? && forall i :: 0 <= i < |errs| ==> errs[i].None?
    ensures e.Some? && e.value.Real? ==> e in errs || e == ctxErr
    ensures (exists i :: 0 <= i < |errs| && errs[i].Some? && errs[i].value.Real?) ==>
              exists i :: 0 <= i < |errs| && e == errs[i] && e.Some? && e.value.Real?
                          && forall k :: 0 <= k < i ==> errs[k].Some? ==> errs[k].value.ContextCanceled?
  {
    for i := 0 to |errs|
      invariant forall k :: 0 <= k < i ==> errs[k].None? || errs[k].value.ContextCanceled?
    {
      if errs[i].Some? && errs[i].value.Real? { return errs[i]; }
    }
    if ctxErr.Some? { return ctxErr; }
    for i := 0 to |errs|
      invariant forall k :: 0 <= k < i ==> errs[k].None?
    {
      if errs[i].Some? { return errs[i]; }
    }
    return None;
  }

  datatype Worker = Idle | Got(job: nat) | Checking(job: nat) | Failing(job: nat)

  /**
   The pool over jobs `0 .. |errs| - 1`: how many were handed out, what each worker does,
   the error recorded per job, which jobs passed, and the state of both contexts.
   */
  datatype Pool = Pool(
    submitted: nat,
    closed: bool,
    workers: seq<Worker>,
    errs: seq<Option<SegmentError>>,
    passed: set<nat>,
    canceled: bool,
    ctxDone: bool)

  predicate WorkersDone(p: Pool) { p.canceled || p.ctxDone }

  datatype Step =
    | Submit(w: nat)
    | StopEarly
    | CloseJobs
    | Skip(w: nat)
    | Begin(w: nat)
    | Pass(w: nat)
    | Fail(w: nat, e: SegmentError)
    | Cancel(w: nat)
    | CallerCancels

  function SetWorker(p: Pool, w: nat, x: Worker): Pool
    requires w < |p.workers|
  {
    p.(workers := p.workers[w := x])
  }

  /** One step of one goroutine.  A check passes only if `good` holds of its job; it may fail at any time. */
  ghost predicate Next(good: nat -> bool, p: Pool, s: Step, q: Pool) {
    match s
    case Submit(w) =>
      && !p.closed && p.submitted < |p.errs| && w < |p.workers| && p.workers[w].Idle?
      && q == SetWorker(p, w, Got(p.submitted)).(submitted := p.submitted + 1)
    case StopEarly => !p.closed && p.submitted < |p.errs| && WorkersDone(p) && q == p.(closed := true)
    case CloseJobs => !p.closed && p.submitted == |p.errs| && q == p.(closed := true)
    case Skip(w) =>
      && w < |p.workers| && p.workers[w].Got? && p.workers[w].job < |p.errs| && WorkersDone(p)
      && q == SetWorker(p, w, Idle).(errs := p.errs[p.workers[w].job := Some(ContextCanceled)])
    case Begin(w) => w < |p.workers| && p.workers[w].Got? && !WorkersDone(p) && q == SetWorker(p, w, Checking(p.workers[w].job))
    case Pass(w) =>
      && w < |p.workers| && p.workers[w].Checking? && good(p.workers[w].job)
      && q == SetWorker(p, w, Idle).(passed := p.passed + {p.workers[w].job})
    case Fail(w, e) =>
      && w < |p.workers| && p.workers[w].Checking? && p.workers[w].job < |p.errs|
      && q == SetWorker(p, w, Failing(p.workers[w].job)).(errs := p.errs[p.workers[w].job := Some(e)])
    case Cancel(w) => w < |p.workers| && p.workers[w].Failing? && q == SetWorker(p, w, Idle).(canceled := true)
    case CallerCancels => q == p.(ctxDone := true)
  }

  ghost predicate Fresh(p: Pool) {
    && p.submitted == 0 && !p.closed && p.passed == {} && !p.canceled && !p.ctxDone
    && (forall w :: 0 <= w < |p.workers| ==> p.workers[w].Idle?)
    && (forall i :: 0 <= i < |p.errs| ==> p.errs[i].None?)
  }

  ghost predicate Held(p: Pool, i: nat) { exists w :: 0 <= w < |p.workers| && !p.workers[w].Idle? && p.workers[w].job == i }

  /** Every job handed out is with a worker, has passed, or has an error; a cancellation left an error behind. */
  ghost predicate Inv(good: nat -> bool, p: Pool) {
    && p.submitted <= |p.errs|
    && (forall w :: 0 <= w < |p.workers| && !p.workers[w].Idle? ==> p.workers[w].job < p.submitted)
    && (forall w :: 0 <= w < |p.workers| && p.workers[w].Failing? ==> p.errs[p.workers[w].job].Some?)
    && (forall i :: 0 <= i < p.submitted ==> Held(p, i) || i in p.passed || p.errs[i].Some?)
    && (forall i :: i in p.passed ==> i < p.submitted && good(i))
    && (p.canceled ==> exists i :: 0 <= i < |p.errs| && p.errs[i].Some?)
    && (p.closed && p.submitted < |p.errs| ==> WorkersDone(p))
  }

  lemma HeldBy(p: Pool, q: Pool, w: nat, i: nat)
    requires w < |p.workers| == |q.workers| && Held(p, i)
    requires forall v :: 0 <= v < |p.workers| && v != w ==> q.workers[v] == p.workers[v]
    ensures Held(q, i) || (!p.workers[w].Idle? && p.workers[w].job == i)
  {
    var v :| 0 <= v < |p.workers| && !p.workers[v].Idle? && p.workers[v].job == i;
    if v != w { assert q.workers[v] == p.workers[v]; }
  }

  lemma StepKeepsInv(good: nat -> bool, p: Pool, s: Step, q: Pool)
    requires Inv(good, p) && Next(good, p, s, q)
    ensures Inv(good, q)
  {
    if !(s.StopEarly? || s.CloseJobs? || s.CallerCancels?) {
      forall i | 0 <= i < q.submitted ensures Held(q, i) || i in q.passed || q.errs[i].Some? {
        if Held(p, i) { HeldBy(p, q, s.w, i); }
        if !q.workers[s.w].Idle? && q.workers[s.w].job == i { assert Held(q, i); }
      }
    } else {
      forall i | 0 <= i < q.submitted && Held(p, i) ensures Held(q, i) {
        var w :| 0 <= w < |p.workers| && !p.workers[w].Idle? && p.workers[w].job == i;
        assert q.workers[w] == p.workers[w];
      }
    }
    if p.canceled {
      var i :| 0 <= i < |p.errs| && p.errs[i].Some?;
      assert q.errs[i].Some?;
    }
    if s.Cancel? { assert q.errs[p.workers[s.w].job].Some?; }
  }

  ghost predicate Run(good: nat -> bool, ps: seq<Pool>, ss: seq<Step>) {
    && |ps| == |ss| + 1 && Fresh(ps[0])
    && forall i :: 0 <= i < |ss| ==> Next(good, ps[i], ss[i], ps[i + 1])
  }

  lemma {:induction false} RunKeepsInv(good: nat -> bool, ps: seq<Pool>, ss: seq<Step>, k: nat)
    requires Run(good, ps, ss) && k < |ps|
    ensures Inv(good, ps[k]) && |ps[k].errs| == |ps[0].errs|
  {
    if k > 0 {
      RunKeepsInv(good, ps, ss, k - 1);
      StepKeepsInv(good, ps[k - 1], ss[k - 1], ps[k]);
    }
  }

  /** The jobs channel is closed and every worker has returned. */
  ghost predicate Finished(p: Pool) { p.closed && forall w :: 0 <= w < |p.workers| ==> p.workers[w].Idle? }

  /** No error to report: what a nil result stands for. */
  ghost predicate NothingToReport(p: Pool) { !p.ctxDone && forall i :: 0 <= i < |p.errs| ==> p.errs[i].None? }

  /**
   Under every schedule and every cancellation, a pool that finishes with no error to report
   has checked every job, and every check passed.
   */
  lemma NoErrorMeansAllPassed(good: nat -> bool, ps: seq<Pool>, ss: seq<Step>, k: nat)
    requires Run(good, ps, ss) && k < |ps| && Finished(ps[k]) && NothingToReport(ps[k])
    ensures forall i :: 0 <= i < |ps[0].errs| ==> i in ps[k].passed && good(i)
  {
    RunKeepsInv(good, ps, ss, k);
    var p := ps[k];
    assert p.submitted == |p.errs|;
    forall i | 0 <= i < |p.errs| ensures i in p.passed && good(i) { assert !Held(p, i); }
  }

  /** The converse: an early stop or a failed check is always reported. */
  lemma TroubleIsReported(good: nat -> bool, ps: seq<Pool>, ss: seq<Step>, k: nat)
    requires Run(good, ps, ss) && k < |ps| && Finished(ps[k])
    requires exists i :: 0 <= i < |ps[0].errs| && (i !in ps[k].passed || !good(i))
    ensures !NothingToReport(ps[k])
  {
    if NothingToReport(ps[k]) { NoErrorMeansAllPassed(good, ps, ss, k); }
  }

  /** Where no check fails and nobody cancels, there is nothing to report, and the pool is never canceled. */
  lemma {:induction false} QuietPoolReportsNothing(good: nat -> bool, ps: seq<Pool>, ss: seq<Step>, k: nat)
    requires Run(good, ps, ss) && k < |ps| && forall i :: 0 <= i < k ==> !ss[i].Fail? && !ss[i].CallerCancels?
    ensures NothingToReport(ps[k]) && !ps[k].canceled && forall w :: 0 <= w < |ps[k].workers| ==> !ps[k].workers[w].Failing?
  {
    if k > 0 { QuietPoolReportsNothing(good, ps, ss, k - 1); }
  }
}
