/** What draining the buffer comes to: which blocks are submitted, which are refused, and what is left. */
module Draining {
  import opened Common
  import opened Chain
  import P = Planner
  import I = Ingest
  import R = Reactor

  /** The `n` heights after `h` are all buffered. */
  ghost predicate Queued(s: R.State, h: int, n: nat) { forall g :: h < g <= h + n ==> g in s.buffer }

  /** The block `b` and the `n` buffered blocks after it. */
  ghost function Queue(s: R.State, b: Block, n: nat): seq<Block>
    requires Queued(s, b.header.height, n)
  {
    [b] + seq(n, i requires 0 <= i < n => s.buffer[b.header.height + 1 + i].block)
  }

  /** Whoever sent the last block of the queue; `id` sent `b`. */
  function Sender(s: R.State, id: P.PeerID, h: int, n: nat): P.PeerID { if n > 0 && h + n in s.buffer then s.buffer[h + n].peer else id }

  /** The state after `bs` were submitted one after the other, if every one was accepted. */
  function SubmitAll(k: R.Config, st: I.State, bs: seq<Block>): Option<I.State>
    decreases |bs|
  {
    if bs == [] then Some(st)
    else
      var r := I.Submit(k.c, k.o, st, Some(bs[0]));
      if r.Ok? then SubmitAll(k, r.value, bs[1..]) else None
  }

  /** Accepted blocks are appended to what is held, in order. */
  lemma {:induction false} SubmitAllHolds(k: R.Config, st: I.State, bs: seq<Block>)
    requires I.Shaped(k.o, st) && SubmitAll(k, st, bs).Some?
    ensures I.Shaped(k.o, SubmitAll(k, st, bs).value) && I.Held(SubmitAll(k, st, bs).value) == I.Held(st) + bs
    decreases |bs|
  {
    hide I.Submit, I.Shaped;
    if bs != [] {
      I.SubmitAppends(k.c, k.o, st, bs[0]);
      SubmitAllHolds(k, I.Submit(k.c, k.o, st, Some(bs[0])).value, bs[1..]);
      assert bs == [bs[0]] + bs[1..];
    }
  }

  /** Height `g` was dealt with, or is all about the sender that was expelled. */
  ghost predicate Gone(s: R.State, low: int, high: int, out: Option<P.PeerID>, g: int) {
    low <= g <= high || (g in s.buffer && out == Some(s.buffer[g].peer))
  }

  /** Exactly the heights from `low` to `high` are gone, and everything that had to do with the sender `out`. */
  ghost predicate Remains(s: R.State, t: R.State, low: int, high: int, out: Option<P.PeerID>) {
    && (forall g :: g in t.buffer <==> g in s.buffer && !Gone(s, low, high, out, g))
    && (forall g :: g in t.buffer ==> t.buffer[g] == s.buffer[g])
    && (forall g :: g in t.planner.received <==> g in s.planner.received && !Gone(s, low, high, out, g))
    && (forall g :: g in t.planner.inflight <==> (g in s.planner.inflight && !Gone(s, low, high, out, g) && out != Some(s.planner.inflight[g].peer)))
    && (forall g :: g in t.planner.inflight ==> t.planner.inflight[g] == s.planner.inflight[g])
    && t.planner.peers == (if out.Some? then s.planner.peers - {out.value} else s.planner.peers)
    && t.peers == (if out.Some? then s.peers - {out.value} else s.peers)
  }

  /** The drain that starts with `b` from `id` dealt with `b` and the `n` blocks queued after it, and ended as `d`. */
  ghost predicate DrainsTo(k: R.Config, s: R.State, id: P.PeerID, b: Block, n: nat, d: R.Drained) {
    var h := b.header.height;
    && Queued(s, h, n)
    && var bs := Queue(s, b, n);
    if d.ok then SubmitAll(k, s.ingest, bs) == Some(d.state.ingest) && h + n + 1 !in s.buffer && Remains(s, d.state, h, h + n, None)
    else
      && SubmitAll(k, s.ingest, bs[..n]) == Some(d.state.ingest) && I.Submit(k.c, k.o, d.state.ingest, Some(bs[n])).Err?
      && Remains(s, d.state, h, h + n, Some(Sender(s, id, h, n)))
  }

  /**
   Draining, exactly.  The block is submitted and after it the buffered blocks of the heights
   that follow, up to the first gap or the first one refused.  On success all of them were
   accepted and there is a gap; on failure all but the last were.  Their heights and no others
   are gone, and a refused block takes its sender along.
   */
  lemma {:induction false} DrainIsExact(k: R.Config, s: R.State, id: P.PeerID, b: Block) returns (n: nat)
    requires R.Filed(s.buffer)
    ensures DrainsTo(k, s, id, b, n, R.Drain(k, s, id, b))
    decreases |s.buffer - {b.header.height}|
  {
    hide I.Submit, DrainsTo;
    var h := b.header.height;
    var r := I.Submit(k.c, k.o, s.ingest, Some(b));
    n := 0;
    if r.Err? {
      Refuses(k, s, id, b);
    } else {
      var t := R.Accepted(s, h, r.value);
      var next := R.Next(k, t);
      assert next == h + 1 by { NextIsAfter(k, s.ingest, b); }
      if next in t.buffer {
        assert t.buffer - {next} == (s.buffer - {h}) - {next};
        assert |t.buffer - {next}| == |t.buffer| - 1;
        var m := DrainIsExact(k, t, t.buffer[next].peer, t.buffer[next].block);
        n := m + 1;
        Longer(k, s, id, b, t, m, R.Drain(k, t, t.buffer[next].peer, t.buffer[next].block));
      } else {
        RunsOut(k, s, id, b);
      }
    }
  }

  lemma NextIsAfter(k: R.Config, st: I.State, b: Block)
    requires I.Submit(k.c, k.o, st, Some(b)).Ok?
    ensures I.NextHeight(k.o, I.Submit(k.c, k.o, st, Some(b)).value) == b.header.height + 1
  {
  }

  lemma Refuses(k: R.Config, s: R.State, id: P.PeerID, b: Block)
    requires I.Submit(k.c, k.o, s.ingest, Some(b)).Err?
    ensures DrainsTo(k, s, id, b, 0, R.Drained(R.Rejected(s, id, b.header.height), false))
  {
    hide I.Submit;
    var bs := Queue(s, b, 0);
    assert bs[..0] == [] && bs[0] == b;
    RejectedRemains(s, id, b.header.height);
    hide Remains;
  }

  lemma RejectedRemains(s: R.State, id: P.PeerID, h: int)
    ensures Remains(s, R.Rejected(s, id, h), h, h, Some(id))
  {
  }

  lemma RunsOut(k: R.Config, s: R.State, id: P.PeerID, b: Block)
    requires I.Submit(k.c, k.o, s.ingest, Some(b)).Ok? && b.header.height + 1 !in s.buffer
    ensures DrainsTo(k, s, id, b, 0, R.Drained(R.Accepted(s, b.header.height, I.Submit(k.c, k.o, s.ingest, Some(b)).value), true))
  {
    hide I.Submit;
    var r := I.Submit(k.c, k.o, s.ingest, Some(b)).value;
    assert Queue(s, b, 0) == [b] && [b][1..] == [];
    assert SubmitAll(k, s.ingest, [b]) == Some(r);
    assert Remains(s, R.Accepted(s, b.header.height, r), b.header.height, b.header.height, None);
    assert b.header.height + 1 !in s.buffer;
  }

  lemma QueueLonger(s: R.State, b: Block, t: R.State, c: Block, m: nat)
    requires t.buffer == s.buffer - {b.header.height} && c.header.height == b.header.height + 1 && c.header.height in t.buffer && t.buffer[c.header.height].block == c
    requires Queued(t, c.header.height, m)
    ensures Queued(s, b.header.height, m + 1) && Queue(s, b, m + 1) == [b] + Queue(t, c, m)
  {
    var h := b.header.height;
    forall g | h < g <= h + m + 1 ensures g in s.buffer { assert g in t.buffer; }
    var x, y := Queue(s, b, m + 1), Queue(t, c, m);
    forall i | 0 <= i < |y| ensures x[i + 1] == y[i] { if i > 0 { assert h + 1 + i in t.buffer; } }
  }

  lemma RemainsLonger(s: R.State, t: R.State, e: R.State, h: int, high: int, out: Option<P.PeerID>)
    requires t == R.Drop(s, {h}).(ingest := t.ingest) && Remains(t, e, h + 1, high, out) && h <= high
    ensures Remains(s, e, h, high, out)
  {
    assert forall g :: Gone(s, h, high, out, g) <==> g == h || Gone(t, h + 1, high, out, g);
  }

  lemma Longer(k: R.Config, s: R.State, id: P.PeerID, b: Block, t: R.State, m: nat, d: R.Drained)
    requires R.Filed(s.buffer) && I.Submit(k.c, k.o, s.ingest, Some(b)).Ok?
    requires t == R.Accepted(s, b.header.height, I.Submit(k.c, k.o, s.ingest, Some(b)).value) && b.header.height + 1 in t.buffer
    requires DrainsTo(k, t, t.buffer[b.header.height + 1].peer, t.buffer[b.header.height + 1].block, m, d)
    ensures DrainsTo(k, s, id, b, m + 1, d)
  {
    hide I.Submit, Remains;
    var h, c := b.header.height, t.buffer[b.header.height + 1];
    QueueLonger(s, b, t, c.block, m);
    var x, y := Queue(s, b, m + 1), Queue(t, c.block, m);
    assert x[1..] == y && x[..m + 1][1..] == y[..m] && x[..m + 1][0] == b && x[m + 1] == y[m];
    assert Sender(s, id, h, m + 1) == Sender(t, c.peer, h + 1, m);
    RemainsLonger(s, t, d.state, h, h + 1 + m, if d.ok then None else Some(Sender(t, c.peer, h + 1, m)));
    if d.ok { assert h + m + 2 !in t.buffer; }
  }

  /** What was accepted: the whole queue, or all of it but the block that was refused. */
  ghost function Accepted(s: R.State, b: Block, n: nat, ok: bool): seq<Block>
    requires Queued(s, b.header.height, n)
  {
    if ok then Queue(s, b, n) else Queue(s, b, n)[..n]
  }

  /**
   The answer to the request for the next height.  The held blocks grow by that block and the
   longest run of buffered blocks after it that ingestion accepts, those blocks leave the
   buffer, and the buffer does not have the block that is next then.
   */
  lemma NextBlockDrains(k: R.Config, s: R.State, id: P.PeerID, b: Block, now: int, sent: P.Request -> bool) returns (n: nat, ok: bool)
    requires R.Filed(s.buffer) && I.Shaped(k.o, s.ingest) && b.header.height == R.Next(k, s)
    requires b.header.height in s.planner.inflight && s.planner.inflight[b.header.height].peer == id
    ensures Queued(s, b.header.height, n)
    ensures var (t, h, bs) := (R.HandleResponse(k, s, id, Some(b), now, sent), b.header.height, Accepted(s, b, n, ok));
            && I.Held(t.ingest) == I.Held(s.ingest) + bs && R.Next(k, t) == h + |bs| && R.Next(k, t) !in t.buffer
            && (!ok ==> I.Submit(k.c, k.o, t.ingest, Some(Queue(s, b, n)[n])).Err?)
            && forall g :: g in t.buffer <==> g in s.buffer && !Gone(s, h, h + n, if ok then None else Some(Sender(s, id, h, n)), g)
  {
    hide I.Submit, I.Shaped, R.Drain, P.PlanAt, Remains, SubmitAll;
    n := DrainIsExact(k, s, id, b);
    var d := R.Drain(k, s, id, b);
    ok := d.ok;
    var bs := Accepted(s, b, n, ok);
    SubmitAllHolds(k, s.ingest, bs);
    R.DrainLeavesNothingReady(k, s, id, b);
    NextMoves(k, s.ingest, bs);
    var t := R.HandleResponse(k, s, id, Some(b), now, sent);
    assert t.ingest == d.state.ingest && t.buffer == d.state.buffer;
    BufferRemains(s, d.state, b.header.height, b.header.height + n, if ok then None else Some(Sender(s, id, b.header.height, n)));
  }

  lemma BufferRemains(s: R.State, t: R.State, low: int, high: int, out: Option<P.PeerID>)
    requires Remains(s, t, low, high, out)
    ensures forall g :: g in t.buffer <==> g in s.buffer && !Gone(s, low, high, out, g)
  {
  }

  lemma {:induction false} NextMoves(k: R.Config, st: I.State, bs: seq<Block>)
    requires SubmitAll(k, st, bs).Some?
    ensures I.NextHeight(k.o, SubmitAll(k, st, bs).value) == I.NextHeight(k.o, st) + |bs|
    decreases |bs|
  {
    if bs != [] { NextMoves(k, I.Submit(k.c, k.o, st, Some(bs[0])).value, bs[1..]); }
  }
}
