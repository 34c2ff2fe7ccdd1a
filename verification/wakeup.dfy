/**
 The reactor under every interleaving.  The handlers of block responses run
 concurrently and give up the reactor's lock around `Submit`, so their steps are
 split wherever another handler may get in between.
 */
module Wakeup {
  import opened Common
  import opened Chain
  import P = Planner
  import I = Ingest
  import R = Reactor

  /** Where one block-response handler stands. */
  datatype Phase =
    | Idle
    | Deciding(peer: P.PeerID, block: Block, next: int)  // has the lock, knows the request and the next height
    | Submitting(peer: P.PeerID, block: Block)           // gave the lock up, is about to submit
    | Submitted(block: Block)                            // submitted with success, waits for the lock
    | Refused(peer: P.PeerID, block: Block)              // was refused, waits for the lock
    | Draining(next: int)                                // has the lock, is about to look the next height up

  /** `outbox` holds planned requests that have not been sent yet. */
  datatype Sys = Sys(r: R.State, handlers: seq<Phase>, lock: Option<nat>, outbox: set<P.Request>)

  /** What the other message handlers and timers do in one stretch under the lock. */
  datatype Locked =
    | Add(id: P.PeerID)
    | Remove(id: P.PeerID)
    | Status(id: P.PeerID, advertised: P.PeerRange)
    | NoBlock(id: P.PeerID, height: int)
    | Expire(now: int, timeout: int)
    | Plan(next: int, now: int)          // the next height may have grown since it was read
    | SendFailed(request: P.Request)

  datatype Action =
    | Begin(t: nat, peer: P.PeerID, block: Block)
    | Decide(t: nat)
    | Submit(t: nat)
    | StartDrain(t: nat)
    | FinishDrain(t: nat)
    | CleanUp(t: nat)
    | Other(op: Locked)
    | Sent(request: P.Request)

  function Next(k: R.Config, s: Sys): int { R.Next(k, s.r) }

  ghost predicate OtherStep(k: R.Config, s: Sys, op: Locked, s': Sys) {
    match op
    case Add(id) => s' == s.(r := s.r.(peers := s.r.peers + {id}))
    case Remove(id) => s' == s.(r := R.RemovePeer(s.r, id))
    case Status(id, advertised) =>
      var u := P.UpsertPeer(s.r.planner, id, advertised);
      s' == if u.Err? then s else s.(r := R.Drop(s.r.(planner := u.value), R.OutsideRange(s.r, id, advertised)))
    case NoBlock(id, h) => s' == s.(r := s.r.(planner := P.MarkNoBlock(s.r.planner, id, h)))
    case Expire(now, timeout) => s' == s.(r := s.r.(planner := P.ExpireInflight(s.r.planner, now, timeout)))
    case Plan(next, now) =>
      && next <= Next(k, s)
      && var plan := P.PlanAt(s.r.planner, next, k.limit, now);
         s' == s.(r := s.r.(planner := plan.state), outbox := s.outbox + (set q | q in plan.requests))
    case SendFailed(q) =>
      q in s.outbox && s' == s.(r := s.r.(planner := P.Forget(s.r.planner, q.height)), outbox := s.outbox - {q})
  }

  ghost predicate Step(k: R.Config, s: Sys, a: Action, s': Sys) {
    match a
    case Begin(t, id, b) =>
      && s.lock.None? && t < |s.handlers| && s.handlers[t].Idle?
      && var asked := b.header.height in s.r.planner.inflight && s.r.planner.inflight[b.header.height].peer == id;
         s' == if asked then s.(handlers := s.handlers[t := Deciding(id, b, Next(k, s))], lock := Some(t)) else s
    case Decide(t) =>
      && t < |s.handlers| && s.handlers[t].Deciding?
      && var Deciding(id, b, next) := s.handlers[t];
         var h := b.header.height;
         s' == if h == next then s.(handlers := s.handlers[t := Submitting(id, b)], lock := None)
               else
                 var r := if h < next then s.r.(planner := P.Forget(s.r.planner, h))
                          else s.r.(planner := P.MarkReceived(s.r.planner, h), buffer := s.r.buffer[h := R.Buffered(id, b)]);
                 s.(r := r, handlers := s.handlers[t := Idle], lock := None)
    case Submit(t) =>
      && t < |s.handlers| && s.handlers[t].Submitting?
      && var Submitting(id, b) := s.handlers[t];
         var out := I.Submit(k.c, k.o, s.r.ingest, Some(b));
         s' == if out.Ok? then s.(r := s.r.(ingest := out.value), handlers := s.handlers[t := Submitted(b)])
               else s.(handlers := s.handlers[t := Refused(id, b)])
    case StartDrain(t) =>
      && s.lock.None? && t < |s.handlers| && s.handlers[t].Submitted?
      && var r := R.Drop(s.r, {s.handlers[t].block.header.height});
         s' == s.(r := r, handlers := s.handlers[t := Draining(R.Next(k, r))], lock := Some(t))
    case FinishDrain(t) =>
      && t < |s.handlers| && s.handlers[t].Draining?
      && var next := s.handlers[t].next;
         var phase := if next in s.r.buffer then Submitting(s.r.buffer[next].peer, s.r.buffer[next].block) else Idle;
         s' == s.(handlers := s.handlers[t := phase], lock := None)
    case CleanUp(t) =>
      && s.lock.None? && t < |s.handlers| && s.handlers[t].Refused?
      && var Refused(id, b) := s.handlers[t];
         var dropped := R.Drop(s.r, {b.header.height});
         var r := (if id != "" then R.Expel(dropped, id) else dropped).(peers := s.r.peers - {id});
         s' == s.(r := r, handlers := s.handlers[t := Idle])
    case Other(op) => s.lock.None? && OtherStep(k, s, op, s')
    case Sent(q) => q in s.outbox && s' == s.(outbox := s.outbox - {q})
  }

  // ---------------------------------------------------------------- no lost wake-up

  /** Handler `p` is going to deal with the buffered block at `next`. */
  predicate Wakes(p: Phase, next: int) {
    match p
    case Submitted(_) => true
    case Draining(n) => n == next
    case Submitting(_, b) => b.header.height == next
    case Refused(_, b) => b.header.height == next
    case _ => false
  }

  ghost predicate SomeoneWakes(s: Sys, next: int) {
    exists t :: 0 <= t < |s.handlers| && Wakes(s.handlers[t], next)
  }

  ghost predicate SomeoneSubmitted(s: Sys) {
    exists t :: 0 <= t < |s.handlers| && s.handlers[t].Submitted?
  }

  ghost predicate HoldsLock(p: Phase) { p.Deciding? || p.Draining? }

  ghost predicate Inv(k: R.Config, s: Sys) {
    && R.Filed(s.r.buffer)
    && (forall t :: 0 <= t < |s.handlers| ==> (s.lock == Some(t) <==> HoldsLock(s.handlers[t])))
    && (forall t :: 0 <= t < |s.handlers| && s.handlers[t].Deciding? ==> Fresh(k, s, s.handlers[t].next))
    && (Next(k, s) in s.r.buffer ==> SomeoneWakes(s, Next(k, s)))
  }

  /** A next height read earlier is still right, or whoever moved it has yet to drain. */
  ghost predicate Fresh(k: R.Config, s: Sys, next: int) {
    next <= Next(k, s) && (next < Next(k, s) ==> SomeoneSubmitted(s))
  }

  lemma OtherKeepsInv(k: R.Config, s: Sys, op: Locked, s': Sys)
    requires Inv(k, s) && s.lock.None? && OtherStep(k, s, op, s')
    ensures Inv(k, s')
  {
    assert s'.handlers == s.handlers && s'.lock == s.lock && s'.r.ingest == s.r.ingest;
    assert forall h :: h in s'.r.buffer ==> h in s.r.buffer && s'.r.buffer[h] == s.r.buffer[h];
    assert forall t :: 0 <= t < |s.handlers| ==> !s.handlers[t].Deciding?;
  }

  lemma DecideKeepsInv(k: R.Config, s: Sys, t: nat, s': Sys)
    requires Inv(k, s) && Step(k, s, Decide(t), s')
    ensures Inv(k, s')
  {
    var Deciding(id, b, next) := s.handlers[t];
    var now := Next(k, s);
    assert Fresh(k, s, next);
    assert Next(k, s') == now;
    if now in s'.r.buffer {
      if now in s.r.buffer {
        var u :| 0 <= u < |s.handlers| && Wakes(s.handlers[u], now);
        assert s'.handlers[u] == s.handlers[u];
      } else {
        var u :| 0 <= u < |s.handlers| && s.handlers[u].Submitted?;
        assert s'.handlers[u] == s.handlers[u];
      }
    }
  }

  lemma SubmitKeepsInv(k: R.Config, s: Sys, t: nat, s': Sys)
    requires Inv(k, s) && Step(k, s, Submit(t), s')
    ensures Inv(k, s')
  {
    var Submitting(id, b) := s.handlers[t];
    if I.Submit(k.c, k.o, s.r.ingest, Some(b)).Ok? {
      assert Next(k, s') == Next(k, s) + 1;
      assert s'.handlers[t].Submitted? && Wakes(s'.handlers[t], Next(k, s'));
    } else {
      KeepWitness(k, s, s', t);
    }
  }

  /** Handler `t` moved on, but still wakes whatever it woke, and no one else moved. */
  lemma KeepWitness(k: R.Config, s: Sys, s': Sys, t: nat)
    requires t < |s.handlers| == |s'.handlers| && Next(k, s') == Next(k, s)
    requires s'.handlers == s.handlers[t := s'.handlers[t]]
    requires Wakes(s.handlers[t], Next(k, s)) && Next(k, s) in s'.r.buffer ==> Wakes(s'.handlers[t], Next(k, s))
    requires s.handlers[t].Submitted? ==> forall u :: 0 <= u < |s'.handlers| ==> !s'.handlers[u].Deciding?
    requires Next(k, s) in s.r.buffer ==> SomeoneWakes(s, Next(k, s))
    requires forall h :: h in s'.r.buffer ==> h in s.r.buffer
    ensures Next(k, s') in s'.r.buffer ==> SomeoneWakes(s', Next(k, s'))
    ensures SomeoneSubmitted(s) ==> SomeoneSubmitted(s') || forall u :: 0 <= u < |s'.handlers| ==> !s'.handlers[u].Deciding?
  {
    var next := Next(k, s);
    if next in s'.r.buffer {
      var u :| 0 <= u < |s.handlers| && Wakes(s.handlers[u], next);
      assert Wakes(s'.handlers[u], next);
    }
    if SomeoneSubmitted(s) {
      var u :| 0 <= u < |s.handlers| && s.handlers[u].Submitted?;
      assert u != t ==> s'.handlers[u].Submitted?;
    }
  }

  lemma StepKeepsInv(k: R.Config, s: Sys, a: Action, s': Sys)
    requires Inv(k, s) && Step(k, s, a, s')
    ensures Inv(k, s')
  {
    match a
    case Begin(t, id, b) => if s' != s { KeepWitness(k, s, s', t); }
    case Decide(t) => DecideKeepsInv(k, s, t, s');
    case Submit(t) => SubmitKeepsInv(k, s, t, s');
    case StartDrain(t) => KeepWitness(k, s, s', t);
    case FinishDrain(t) => KeepWitness(k, s, s', t);
    case CleanUp(t) => KeepWitness(k, s, s', t);
    case Other(op) => OtherKeepsInv(k, s, op, s');
    case Sent(q) =>
  }

  ghost predicate Run(k: R.Config, ss: seq<Sys>, acts: seq<Action>) {
    && |ss| == |acts| + 1
    && forall i :: 0 <= i < |acts| ==> Step(k, ss[i], acts[i], ss[i + 1])
  }

  /** Any number of handlers at rest, nothing buffered. */
  ghost predicate AtRest(s: Sys) {
    s.lock.None? && s.r.buffer == map[] && forall t :: 0 <= t < |s.handlers| ==> s.handlers[t].Idle?
  }

  /**
   No lost wake-up: whenever the buffer holds the block at the next height, some handler
   is on its way to it.  So once every handler is idle, no ready block is stranded.
   */
  lemma {:induction false} NoLostWakeup(k: R.Config, ss: seq<Sys>, acts: seq<Action>, j: nat)
    requires Run(k, ss, acts) && AtRest(ss[0]) && j < |ss|
    ensures Inv(k, ss[j])
    ensures Next(k, ss[j]) in ss[j].r.buffer ==> SomeoneWakes(ss[j], Next(k, ss[j]))
    ensures (forall t :: 0 <= t < |ss[j].handlers| ==> ss[j].handlers[t].Idle?) ==> Next(k, ss[j]) !in ss[j].r.buffer
  {
    if j > 0 {
      NoLostWakeup(k, ss, acts, j - 1);
      StepKeepsInv(k, ss[j - 1], acts[j - 1], ss[j]);
    }
  }

  /**
   The handler that wakes a ready block needs no one else: once it can have the lock, at
   most two steps of its own bring it to submitting that block, or the block is gone.
   */
  lemma WakerReachesBlock(k: R.Config, s: Sys, t: nat) returns (ss: seq<Sys>, acts: seq<Action>)
    requires Inv(k, s) && Next(k, s) in s.r.buffer
    requires t < |s.handlers| && Wakes(s.handlers[t], Next(k, s)) && (s.lock.None? || s.lock == Some(t))
    ensures Run(k, ss, acts) && ss[0] == s && |acts| <= 2
    ensures forall a :: a in acts ==> !a.Other? && !a.Sent? && a.t == t
    ensures var e := ss[|acts|];
            || Next(k, e) !in e.r.buffer
            || (t < |e.handlers| && e.handlers[t].Submitting? && e.handlers[t].block.header.height == Next(k, e))
  {
    match s.handlers[t]
    case Submitting(_, _) => ss, acts := [s], [];
    case Draining(n) =>
      var e := Finish(k, s, t);
      ss, acts := [s, e], [FinishDrain(t)];
    case Submitted(b) =>
      var r := R.Drop(s.r, {b.header.height});
      var m := s.(r := r, handlers := s.handlers[t := Draining(R.Next(k, r))], lock := Some(t));
      assert Step(k, s, StartDrain(t), m);
      var e := Finish(k, m, t);
      ss, acts := [s, m, e], [StartDrain(t), FinishDrain(t)];
    case Refused(id, b) =>
      var dropped := R.Drop(s.r, {b.header.height});
      var r := (if id != "" then R.Expel(dropped, id) else dropped).(peers := s.r.peers - {id});
      var e := s.(r := r, handlers := s.handlers[t := Idle]);
      assert Step(k, s, CleanUp(t), e);
      ss, acts := [s, e], [CleanUp(t)];
  }

  lemma Finish(k: R.Config, s: Sys, t: nat) returns (e: Sys)
    requires R.Filed(s.r.buffer) && t < |s.handlers| && s.handlers[t] == Draining(Next(k, s))
    ensures Step(k, s, FinishDrain(t), e)
    ensures || Next(k, e) !in e.r.buffer
            || (t < |e.handlers| && e.handlers[t].Submitting? && e.handlers[t].block.header.height == Next(k, e))
  {
    var next := Next(k, s);
    var phase := if next in s.r.buffer then Submitting(s.r.buffer[next].peer, s.r.buffer[next].block) else Idle;
    e := s.(handlers := s.handlers[t := phase], lock := None);
  }

  // ---------------------------------------------------------------- one handler alone

  lemma RunsOn(k: R.Config, ss: seq<Sys>, acts: seq<Action>, ts: seq<Sys>, bcts: seq<Action>)
    requires Run(k, ss, acts) && Run(k, ts, bcts) && ss[|acts|] == ts[0]
    ensures Run(k, ss + ts[1..], acts + bcts)
  {
    hide Step;
    var all, steps := ss + ts[1..], acts + bcts;
    forall i | 0 <= i < |steps| ensures Step(k, all[i], steps[i], all[i + 1]) {
      if i >= |acts| { assert all[i] == ts[i - |acts|] && all[i + 1] == ts[i - |acts| + 1]; }
    }
  }

  /** Refused: the handler cleans up, and then the switch drops the peer. */
  lemma RefusedAlone(k: R.Config, s: Sys, t: nat) returns (ss: seq<Sys>, acts: seq<Action>)
    requires s.lock.None? && t < |s.handlers| && s.handlers[t].Submitting?
    requires I.Submit(k.c, k.o, s.r.ingest, Some(s.handlers[t].block)).Err?
    ensures Run(k, ss, acts) && ss[0] == s && ss[|acts|].lock.None? && ss[|acts|].handlers == s.handlers[t := Idle]
    ensures ss[|acts|].r == R.Rejected(s.r, s.handlers[t].peer, s.handlers[t].block.header.height)
  {
    hide I.Submit;
    var Submitting(id, b) := s.handlers[t];
    var s1 := s.(handlers := s.handlers[t := Refused(id, b)]);
    assert Step(k, s, Submit(t), s1);
    var dropped := R.Drop(s1.r, {b.header.height});
    var r := (if id != "" then R.Expel(dropped, id) else dropped).(peers := s1.r.peers - {id});
    var s2 := s1.(r := r, handlers := s1.handlers[t := Idle]);
    assert Step(k, s1, CleanUp(t), s2);
    var s3 := s2.(r := R.RemovePeer(r, id));
    assert Step(k, s2, Other(Remove(id)), s3);
    assert s3.r.peers == R.Rejected(s.r, id, b.header.height).peers;
    ss, acts := [s, s1, s2, s3], [Submit(t), CleanUp(t), Other(Remove(id))];
  }

  /** Accepted: the handler submits, takes the block off the books, and looks the next one up. */
  lemma AcceptedAlone(k: R.Config, s: Sys, t: nat) returns (ss: seq<Sys>, acts: seq<Action>)
    requires s.lock.None? && t < |s.handlers| && s.handlers[t].Submitting?
    requires I.Submit(k.c, k.o, s.r.ingest, Some(s.handlers[t].block)).Ok?
    ensures Run(k, ss, acts) && ss[0] == s && ss[|acts|].lock.None?
    ensures var e, b := ss[|acts|], s.handlers[t].block;
            && e.r == R.Accepted(s.r, b.header.height, I.Submit(k.c, k.o, s.r.ingest, Some(b)).value)
            && e.handlers == s.handlers[t := if Next(k, e) in e.r.buffer then Submitting(e.r.buffer[Next(k, e)].peer, e.r.buffer[Next(k, e)].block) else Idle]
  {
    hide I.Submit;
    var Submitting(id, b) := s.handlers[t];
    var s1 := s.(r := s.r.(ingest := I.Submit(k.c, k.o, s.r.ingest, Some(b)).value), handlers := s.handlers[t := Submitted(b)]);
    assert Step(k, s, Submit(t), s1);
    var r := R.Drop(s1.r, {b.header.height});
    var next := R.Next(k, r);
    var s2 := s1.(r := r, handlers := s1.handlers[t := Draining(next)], lock := Some(t));
    assert Step(k, s1, StartDrain(t), s2);
    var phase := if next in r.buffer then Submitting(r.buffer[next].peer, r.buffer[next].block) else Idle;
    var s3 := s2.(handlers := s2.handlers[t := phase], lock := None);
    assert Step(k, s2, FinishDrain(t), s3);
    ss, acts := [s, s1, s2, s3], [Submit(t), StartDrain(t), FinishDrain(t)];
    assert s3.handlers == s.handlers[t := phase];
  }

  /**
   The split steps are those of the handler run whole: a handler that nobody interrupts ends
   in the state that `Reactor` gives for the whole drain.
   */
  lemma {:induction false} AloneIsWhole(k: R.Config, s: Sys, t: nat) returns (ss: seq<Sys>, acts: seq<Action>)
    requires R.Filed(s.r.buffer) && s.lock.None? && t < |s.handlers| && s.handlers[t].Submitting?
    ensures Run(k, ss, acts) && ss[0] == s && ss[|acts|].lock.None? && ss[|acts|].handlers == s.handlers[t := Idle]
    ensures ss[|acts|].r == R.Drain(k, s.r, s.handlers[t].peer, s.handlers[t].block).state
    decreases |s.r.buffer - {s.handlers[t].block.header.height}|
  {
    hide I.Submit, Step, R.Rejected;
    var Submitting(id, b) := s.handlers[t];
    if I.Submit(k.c, k.o, s.r.ingest, Some(b)).Err? {
      ss, acts := RefusedAlone(k, s, t);
    } else {
      ss, acts := AcceptedAlone(k, s, t);
      var e := ss[|acts|];
      var h, next := b.header.height, Next(k, e);
      if next in e.r.buffer {
        assert e.r.buffer - {next} == (s.r.buffer - {h}) - {next};
        assert |e.r.buffer - {next}| == |e.r.buffer| - 1;
        var ts, bcts := AloneIsWhole(k, e, t);
        RunsOn(k, ss, acts, ts, bcts);
        ss, acts := ss + ts[1..], acts + bcts;
      }
    }
  }

  /**
   The same for a whole block response: a handler that nobody interrupts leaves what the
   reactor's handler plans from, or leaves as it is where that does not plan.
   */
  lemma ResponseAlone(k: R.Config, s: Sys, t: nat, id: P.PeerID, b: Block, now: int, sent: P.Request -> bool) returns (ss: seq<Sys>, acts: seq<Action>)
    requires R.Filed(s.r.buffer) && s.lock.None? && t < |s.handlers| && s.handlers[t].Idle?
    ensures Run(k, ss, acts) && ss[0] == s && ss[|acts|].lock.None? && ss[|acts|].handlers == s.handlers
    ensures var (h, e) := (b.header.height, ss[|acts|]);
            var asked := h in s.r.planner.inflight && s.r.planner.inflight[h].peer == id;
            R.HandleResponse(k, s.r, id, Some(b), now, sent) == if asked && h >= Next(k, s) then R.PlanAndSend(k, e.r, now, sent) else e.r
  {
    hide I.Submit, R.PlanAndSend, R.Drain;
    var h, next := b.header.height, Next(k, s);
    var asked := h in s.r.planner.inflight && s.r.planner.inflight[h].peer == id;
    var s1 := if asked then s.(handlers := s.handlers[t := Deciding(id, b, next)], lock := Some(t)) else s;
    assert Step(k, s, Begin(t, id, b), s1);
    ss, acts := [s, s1], [Begin(t, id, b)];
    if asked {
      var r := if h == next then s.r
               else if h < next then s.r.(planner := P.Forget(s.r.planner, h))
               else s.r.(planner := P.MarkReceived(s.r.planner, h), buffer := s.r.buffer[h := R.Buffered(id, b)]);
      var s2 := s1.(r := r, handlers := s1.handlers[t := if h == next then Submitting(id, b) else Idle], lock := None);
      assert Step(k, s1, Decide(t), s2);
      ss, acts := [s, s1, s2], [Begin(t, id, b), Decide(t)];
      if h == next {
        var ts, bcts := AloneIsWhole(k, s2, t);
        hide Step;
        RunsOn(k, ss, acts, ts, bcts);
        ss, acts := ss + ts[1..], acts + bcts;
      }
    }
  }

  /** The other handlers' stretches under the lock are those of the reactor too. */
  lemma LockedIsWhole(k: R.Config, s: Sys, op: Locked, s': Sys, now: int, sent: P.Request -> bool)
    requires R.Filed(s.r.buffer) && OtherStep(k, s, op, s')
    ensures op.Add? ==> R.Handle(k, s.r, R.AddPeer(op.id), now, sent) == s'.r
    ensures op.Remove? ==> R.Handle(k, s.r, R.LosePeer(op.id), now, sent) == s'.r
    ensures op.Status? ==>
              R.Handle(k, s.r, R.Status(op.id, op.advertised), now, sent) ==
                if P.UpsertPeer(s.r.planner, op.id, op.advertised).Ok? then R.PlanAndSend(k, s'.r, now, sent) else s'.r
    ensures op.NoBlock? ==> R.Handle(k, s.r, R.NoBlock(op.id, op.height), now, sent) == R.PlanAndSend(k, s'.r, now, sent)
    ensures op.Expire? && op.now == now ==>
              R.Handle(k, s.r, R.Timer(op.timeout), now, sent) ==
                if op.timeout > 0 && P.Expired(s.r.planner, now, op.timeout) != {} then R.PlanAndSend(k, s'.r, now, sent) else s'.r
    ensures op.Plan? ==> s'.r == s.r.(planner := P.PlanAt(s.r.planner, op.next, k.limit, op.now).state)
  {
    hide R.PlanAndSend, P.PlanAt, P.UpsertPeer, R.Drop, R.RemovePeer;
  }

  // ---------------------------------------------------------------- the planner against the buffer

  /** From the next height on, the planner counts as received exactly what is buffered. */
  ghost predicate Agree(k: R.Config, s: Sys) {
    forall h :: h >= Next(k, s) ==> (h in s.r.buffer <==> h in s.r.planner.received)
  }

  /** What split steps keep whatever happens: nothing counts as received unless it is buffered. */
  ghost predicate SplitInv(k: R.Config, s: Sys) {
    && Inv(k, s) && P.Inv(s.r.planner)
    && (forall h :: h in s.r.planner.received ==> h in s.r.buffer)
    && (forall t :: 0 <= t < |s.handlers| && s.handlers[t].Deciding? ==> s.handlers[t].block.header.height > 0)
  }

  /** A sending fails after the answer has already come in, for a height still to be submitted. */
  ghost predicate LateFailure(k: R.Config, s: Sys, a: Action) {
    a.Other? && a.op.SendFailed? && a.op.request.height in s.r.planner.received && a.op.request.height >= Next(k, s)
  }

  lemma PlannerKeepsInv(k: R.Config, s: Sys, op: Locked, s': Sys)
    requires P.Inv(s.r.planner) && OtherStep(k, s, op, s')
    ensures P.Inv(s'.r.planner)
  {
    var p := s.r.planner;
    match op
    case Add(id) =>
    case Remove(id) => P.OpKeepsInv(p, P.OpRemove(id));
    case Status(id, advertised) => P.OpKeepsInv(p, P.OpUpsert(id, advertised));
    case NoBlock(id, h) => P.OpKeepsInv(p, P.OpNoBlock(id, h));
    case Expire(now, timeout) => P.ExpireKeepsInv(p, now, timeout);
    case Plan(next, now) => P.PlanKeepsInv(p, next, k.limit, now);
    case SendFailed(q) =>
  }

  /** Planning drops received heights below `next` and no others. */
  lemma PlanReceived(p: P.State, next: int, limit: int, now: int)
    ensures var q := P.PlanAt(p, next, limit, now).state;
            && (forall h :: h in q.received ==> h in p.received)
            && (forall h :: h in p.received && h >= next ==> h in q.received)
  {
    P.FillOnlyAdds(P.PruneBelow(p, next), next, P.WindowEnd(p, next, limit), now);
  }

  lemma OtherKeepsSplit(k: R.Config, s: Sys, op: Locked, s': Sys)
    requires SplitInv(k, s) && s.lock.None? && OtherStep(k, s, op, s')
    ensures SplitInv(k, s')
    ensures Agree(k, s) ==> (Agree(k, s') <==> !LateFailure(k, s, Other(op)))
  {
    hide P.Inv;
    OtherKeepsInv(k, s, op, s');
    PlannerKeepsInv(k, s, op, s');
    if op.Plan? { PlanReceived(s.r.planner, op.next, k.limit, op.now); }
    if LateFailure(k, s, Other(op)) {
      assert op.request.height in s'.r.buffer && op.request.height !in s'.r.planner.received;
    }
  }

  lemma DropKeepsPlanner(s: R.State, id: P.PeerID, heights: set<int>)
    requires P.Inv(s.planner)
    ensures P.Inv(R.Drop(s, heights).planner) && P.Inv(R.Expel(R.Drop(s, heights), id).planner)
  {
    P.OpKeepsInv(R.Drop(s, heights).planner, P.OpRemove(id));
  }

  lemma HandlerKeepsSplit(k: R.Config, s: Sys, a: Action, s': Sys)
    requires SplitInv(k, s) && Step(k, s, a, s') && !a.Other?
    ensures SplitInv(k, s')
    ensures Agree(k, s) ==> Agree(k, s')
  {
    StepKeepsInv(k, s, a, s');
    match a
    case Decide(t) => assert Fresh(k, s, s.handlers[t].next);
    case StartDrain(t) => DropKeepsPlanner(s.r, "", {s.handlers[t].block.header.height});
    case CleanUp(t) => DropKeepsPlanner(s.r, s.handlers[t].peer, {s.handlers[t].block.header.height});
    case _ =>
  }

  /**
   One step, exactly: planner and buffer that agree still agree afterwards if and only if the
   step is not a late failure.
   */
  lemma StepKeepsAgreementIff(k: R.Config, s: Sys, a: Action, s': Sys)
    requires SplitInv(k, s) && Step(k, s, a, s')
    ensures SplitInv(k, s')
    ensures Agree(k, s) ==> (Agree(k, s') <==> !LateFailure(k, s, a))
  {
    hide SplitInv, Agree;
    if a.Other? { OtherKeepsSplit(k, s, a.op, s'); } else { HandlerKeepsSplit(k, s, a, s'); }
  }

  /** At rest, with a planner that has received nothing. */
  ghost predicate StartsFresh(s: Sys) { AtRest(s) && P.Inv(s.r.planner) && forall h :: h !in s.r.planner.received }

  lemma {:induction false} RunKeepsSplit(k: R.Config, ss: seq<Sys>, acts: seq<Action>, j: nat)
    requires Run(k, ss, acts) && StartsFresh(ss[0]) && j < |ss|
    ensures SplitInv(k, ss[j])
  {
    if j > 0 {
      RunKeepsSplit(k, ss, acts, j - 1);
      StepKeepsAgreementIff(k, ss[j - 1], acts[j - 1], ss[j]);
    }
  }

  /**
   Whole runs, exactly: whatever the interleaving, planner and buffer agree all the way if and
   only if no sending fails late; and nothing ever counts as received unless it is buffered.
   */
  lemma {:induction false} RunAgreesIff(k: R.Config, ss: seq<Sys>, acts: seq<Action>, j: nat)
    requires Run(k, ss, acts) && StartsFresh(ss[0]) && j < |ss|
    ensures forall h :: h in ss[j].r.planner.received ==> h in ss[j].r.buffer
    ensures (forall i :: 0 <= i <= j ==> Agree(k, ss[i])) <==> (forall i :: 0 <= i < j ==> !LateFailure(k, ss[i], acts[i]))
  {
    RunKeepsSplit(k, ss, acts, j);
    if j == 0 {
      assert Agree(k, ss[0]);
    } else {
      RunAgreesIff(k, ss, acts, j - 1);
      RunKeepsSplit(k, ss, acts, j - 1);
      StepKeepsAgreementIff(k, ss[j - 1], acts[j - 1], ss[j]);
    }
  }

  // ---------------------------------------------------------------- a late failure

  /** A fresh planner that one peer has told of the next two heights asks it for both. */
  lemma AsksForBoth(id: P.PeerID, next: int, limit: int, now: int)
    requires id != "" && next > 0 && 2 <= limit <= P.MAX_REQUEST_LIMIT
    ensures P.UpsertPeer(P.Empty(), id, P.PeerRange(next, next + 1)).Ok?
    ensures var p := P.UpsertPeer(P.Empty(), id, P.PeerRange(next, next + 1)).value;
            var plan := P.PlanAt(p, next, limit, now);
            && P.Request(id, next + 1) in plan.requests && next + 1 in plan.state.inflight && plan.state.inflight[next + 1].peer == id
  {
    var p := P.UpsertPeer(P.Empty(), id, P.PeerRange(next, next + 1)).value;
    var pruned, end := P.PruneBelow(p, next), P.WindowEnd(p, next, limit);
    assert id in p.peers && p.peers[id].height == next + 1;
    assert end == next + 1;
    P.FillIsExact(pruned, next, end, now);
    var f := P.Fill(pruned, next, end, now);
    assert f.stuck.None?;
    assert next + 1 in f.state.inflight && next + 1 !in pruned.inflight;
    var r :| r in f.requests && r.height == next + 1;
    assert P.GoodRequest(pruned, f.state, r, now);
    assert r == P.Request(id, next + 1);
  }

  lemma TellsAndPlans(k: R.Config, s: Sys, id: P.PeerID, now: int) returns (m: Sys, e: Sys)
    requires AtRest(s) && s.r.planner == P.Empty() && Next(k, s) > 0 && 2 <= k.limit <= P.MAX_REQUEST_LIMIT && id != ""
    ensures var h := Next(k, s) + 1;
            && Step(k, s, Other(Status(id, P.PeerRange(Next(k, s), h))), m) && Step(k, m, Other(Plan(Next(k, s), now)), e)
            && e.handlers == s.handlers && e.lock.None? && Next(k, e) == Next(k, s) && Asked(e, id, h)
  {
    var next := Next(k, s);
    var advertised := P.PeerRange(next, next + 1);
    AsksForBoth(id, next, k.limit, now);
    var p := P.UpsertPeer(P.Empty(), id, advertised).value;
    var plan := P.PlanAt(p, next, k.limit, now);
    m := s.(r := R.Drop(s.r.(planner := p), R.OutsideRange(s.r, id, advertised)));
    NoInts(R.OutsideRange(s.r, id, advertised));
    SameIntMap(m.r.planner.inflight, p.inflight);
    SameInts(m.r.planner.received, p.received);
    e := m.(r := m.r.(planner := plan.state), outbox := m.outbox + (set r | r in plan.requests));
  }

  /** `id` has been chosen for `h`, and the request has not been sent. */
  ghost predicate Asked(s: Sys, id: P.PeerID, h: int) {
    P.Request(id, h) in s.outbox && h in s.r.planner.inflight && s.r.planner.inflight[h].peer == id
  }

  lemma FailsLate(k: R.Config, s: Sys, id: P.PeerID, b: Block, t: nat) returns (m: Sys, n: Sys, e: Sys)
    requires s.lock.None? && t < |s.handlers| && s.handlers[t].Idle? && Asked(s, id, b.header.height) && b.header.height > Next(k, s) > 0
    ensures Step(k, s, Begin(t, id, b), m) && Step(k, m, Decide(t), n) && Step(k, n, Other(SendFailed(P.Request(id, b.header.height))), e)
    ensures LateFailure(k, n, Other(SendFailed(P.Request(id, b.header.height)))) && !Agree(k, e) && !R.Window(k, e.r)
  {
    var h := b.header.height;
    m := s.(handlers := s.handlers[t := Deciding(id, b, Next(k, s))], lock := Some(t));
    var r := s.r.(planner := P.MarkReceived(s.r.planner, h), buffer := s.r.buffer[h := R.Buffered(id, b)]);
    n := m.(r := r, handlers := m.handlers[t := Idle], lock := None);
    e := n.(r := r.(planner := P.Forget(r.planner, h)), outbox := n.outbox - {P.Request(id, h)});
    assert h in e.r.buffer && h !in e.r.planner.received;
  }

  /**
   Late failures happen.  From rest: a peer tells of two heights, both are planned, its block
   at the second one is handled before the request is sent, and then the sending fails.  The
   block stays buffered, and the planner no longer knows.
   */
  lemma LateFailureDisagrees(k: R.Config, s: Sys, id: P.PeerID, b: Block, t: nat, now: int) returns (ss: seq<Sys>, acts: seq<Action>)
    requires StartsFresh(s) && s.r.planner == P.Empty() && t < |s.handlers| && Next(k, s) > 0
    requires 2 <= k.limit <= P.MAX_REQUEST_LIMIT && id != "" && b.header.height == Next(k, s) + 1
    ensures Run(k, ss, acts) && ss[0] == s && |acts| == 5
    ensures LateFailure(k, ss[4], acts[4]) && !Agree(k, ss[5]) && !R.Window(k, ss[5].r)
  {
    hide Step, LateFailure, Agree, R.Window;
    var h, next := b.header.height, Next(k, s);
    var s1, s2 := TellsAndPlans(k, s, id, now);
    var s3, s4, s5 := FailsLate(k, s2, id, b, t);
    ss := [s, s1, s2, s3, s4, s5];
    acts := [Other(Status(id, P.PeerRange(next, h))), Other(Plan(next, now)), Begin(t, id, b), Decide(t), Other(SendFailed(P.Request(id, h)))];
  }
}
