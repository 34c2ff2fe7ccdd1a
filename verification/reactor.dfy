/**
 The blocksync reactor with each message handled as one step: peers' statuses, block
 responses in any order, NoBlock answers and timeouts drive the planner, the buffer of
 early blocks and the ingestor.
 */
module Reactor {
  import opened Common
  import opened Chain
  import P = Planner
  import I = Ingest

  datatype Buffered = Buffered(peer: P.PeerID, block: Block)

  datatype Config = Config(c: Crypto, o: I.Options, limit: int)

  datatype State = State(planner: P.State, buffer: map<int, Buffered>, peers: set<P.PeerID>, ingest: I.State)

  function Next(k: Config, s: State): int { I.NextHeight(k.o, s.ingest) }

  // ---------------------------------------------------------------- parts of the handlers

  /** `MarkFailed` on every height of `heights`. */
  function ForgetAll(p: P.State, heights: set<int>): P.State {
    p.(inflight := p.inflight - heights, received := p.received - heights)
  }

  function FromPeer(s: State, id: P.PeerID): set<int> {
    set h | h in s.buffer && s.buffer[h].peer == id
  }

  function OutsideRange(s: State, id: P.PeerID, advertised: P.PeerRange): set<int> {
    set h | h in s.buffer && s.buffer[h].peer == id && !advertised.Contains(h)
  }

  function Drop(s: State, heights: set<int>): State {
    s.(planner := ForgetAll(s.planner, heights), buffer := s.buffer - heights)
  }

  /** The planner forgets the peer, and the blocks it sent leave the buffer. */
  function Expel(s: State, id: P.PeerID): State {
    Drop(s.(planner := P.RemovePeer(s.planner, id)), FromPeer(s, id))
  }

  function RemovePeer(s: State, id: P.PeerID): State {
    Expel(s, id).(peers := s.peers - {id})
  }

  /** Plans, then forgets the requests that could not be sent; `sent` says which could. */
  ghost function PlanAndSend(k: Config, s: State, now: int, sent: P.Request -> bool): State {
    var plan := P.PlanAt(s.planner, Next(k, s), k.limit, now);
    if plan.error.Some? then s.(planner := plan.state)
    else s.(planner := ForgetAll(plan.state, Unsent(s.peers, plan.requests, sent)))
  }

  function Unsent(peers: set<P.PeerID>, requests: seq<P.Request>, sent: P.Request -> bool): set<int> {
    set i | 0 <= i < |requests| && !(requests[i].peer in peers && sent(requests[i])) :: requests[i].height
  }

  datatype Drained = Drained(state: State, ok: bool)

  predicate Filed(buffer: map<int, Buffered>) {
    forall h :: h in buffer ==> buffer[h].block.header.height == h
  }

  /** The block at `h` was refused: it goes, and so does whoever sent it. */
  function Rejected(s: State, id: P.PeerID, h: int): State {
    var t := Drop(s, {h});
    RemovePeer(if id != "" then Expel(t, id) else t, id)
  }

  function Accepted(s: State, h: int, ingest: I.State): State {
    Drop(s, {h}).(ingest := ingest)
  }

  /** Submits `b`, then every buffered block that has become the next one. */
  function Drain(k: Config, s: State, id: P.PeerID, b: Block): Drained
    requires Filed(s.buffer)
    decreases |s.buffer - {b.header.height}|
  {
    var h := b.header.height;
    var r := I.Submit(k.c, k.o, s.ingest, Some(b));
    if r.Err? then Drained(Rejected(s, id, h), false)
    else
      var t := Accepted(s, h, r.value);
      var next := Next(k, t);
      if next in t.buffer then
        assert t.buffer - {next} == (s.buffer - {h}) - {next};
        assert |t.buffer - {next}| == |t.buffer| - 1;
        Drain(k, t, t.buffer[next].peer, t.buffer[next].block)
      else Drained(t, true)
  }

  // ---------------------------------------------------------------- handlers

  datatype Event =
    | AddPeer(id: P.PeerID)
    | LosePeer(id: P.PeerID)
    | Status(id: P.PeerID, advertised: P.PeerRange)
    | NoBlock(id: P.PeerID, height: int)
    | Response(id: P.PeerID, block: Option<Block>)
    | Timer(timeout: int)

  ghost function HandleResponse(k: Config, s: State, id: P.PeerID, block: Option<Block>, now: int, sent: P.Request -> bool): State
    requires Filed(s.buffer)
  {
    if block.None? then PlanAndSend(k, RemovePeer(Expel(s, id), id), now, sent)
    else
      var b := block.value;
      var h := b.header.height;
      if h !in s.planner.inflight || s.planner.inflight[h].peer != id then s
      else if h < Next(k, s) then s.(planner := P.Forget(s.planner, h))
      else if h > Next(k, s) then
        PlanAndSend(k, s.(planner := P.MarkReceived(s.planner, h), buffer := s.buffer[h := Buffered(id, b)]), now, sent)
      else PlanAndSend(k, Drain(k, s, id, b).state, now, sent)
  }

  ghost function Handle(k: Config, s: State, e: Event, now: int, sent: P.Request -> bool): State
    requires Filed(s.buffer)
  {
    match e
    case AddPeer(id) => s.(peers := s.peers + {id})
    case LosePeer(id) => RemovePeer(s, id)
    case Status(id, advertised) =>
      var r := P.UpsertPeer(s.planner, id, advertised);
      if r.Err? then s
      else PlanAndSend(k, Drop(s.(planner := r.value), OutsideRange(s, id, advertised)), now, sent)
    case NoBlock(id, h) => PlanAndSend(k, s.(planner := P.MarkNoBlock(s.planner, id, h)), now, sent)
    case Response(id, block) => HandleResponse(k, s, id, block, now, sent)
    case Timer(timeout) =>
      var t := s.(planner := P.ExpireInflight(s.planner, now, timeout));
      if timeout > 0 && P.Expired(s.planner, now, timeout) != {} then PlanAndSend(k, t, now, sent) else t
  }

  // ---------------------------------------------------------------- the sliding window

  /**
   The planner's received set is the buffer's key set, every buffered block came from a
   live peer that advertises its height, and everything asked for or buffered lies in the
   window of `limit` heights that starts at the next height.
   */
  ghost predicate Window(k: Config, s: State) {
    && P.Inv(s.planner)
    && Filed(s.buffer)
    && (forall h :: h in s.buffer <==> h in s.planner.received)
    && (forall h :: h in s.buffer ==> SentBy(s.planner, s.buffer[h].peer, h))
    && (forall h :: h in s.planner.inflight || h in s.planner.received ==> Next(k, s) <= h < Next(k, s) + k.limit)
  }

  ghost predicate SentBy(p: P.State, id: P.PeerID, h: int) {
    id in p.peers && p.peers[id].Contains(h)
  }

  /** The block at the next height is not lying in the buffer. */
  ghost predicate NothingReady(k: Config, s: State) { Next(k, s) !in s.buffer }

  /** At most `limit` heights are asked for or buffered at any time. */
  lemma WindowBoundsWork(k: Config, s: State)
    requires Window(k, s) && k.limit >= 0
    ensures |s.planner.inflight| + |s.buffer| <= k.limit
  {
    var a, b := s.planner.inflight.Keys, s.buffer.Keys;
    WindowBoundsSize(a + b, Next(k, s), k.limit);
    NoInts(a * b);
    assert |a + b| == |a| + |b| - |a * b|;
  }

  lemma DropKeepsWindow(k: Config, s: State, heights: set<int>)
    requires Window(k, s)
    ensures Window(k, Drop(s, heights))
  {
  }

  lemma ExpelKeepsWindow(k: Config, s: State, id: P.PeerID)
    requires Window(k, s)
    ensures Window(k, Expel(s, id))
  {
    P.OpKeepsInv(s.planner, P.OpRemove(id));
  }

  /** Replacing the planner keeps the window if it only asks for heights inside it. */
  lemma NewPlannerKeepsWindow(k: Config, s: State, q: P.State, unsent: set<int>)
    requires Window(k, s) && P.Inv(q)
    requires q.peers == s.planner.peers && q.received == s.planner.received
    requires forall h :: h in q.inflight && h !in s.planner.inflight ==> Next(k, s) <= h < Next(k, s) + k.limit
    requires forall h :: h in unsent ==> h !in q.received
    ensures Window(k, s.(planner := ForgetAll(q, unsent)))
  {
    SameInts(ForgetAll(q, unsent).received, q.received);
  }

  lemma UnsentNotReceived(p: P.State, next: int, limit: int, now: int, peers: set<P.PeerID>, sent: P.Request -> bool)
    ensures var plan := P.PlanAt(p, next, limit, now);
            forall h :: h in Unsent(peers, plan.requests, sent) ==> h !in plan.state.received
  {
    var plan := P.PlanAt(p, next, limit, now);
    var pruned, end := P.PruneBelow(p, next), P.WindowEnd(p, next, limit);
    forall i | 0 <= i < |plan.requests| ensures plan.requests[i].height !in plan.state.received {
      P.FillRequestsGood(pruned, next, end, now, plan.requests[i]);
      P.FillOnlyAdds(pruned, next, end, now);
    }
  }

  lemma PlanKeepsWindow(k: Config, s: State, now: int, sent: P.Request -> bool)
    requires Window(k, s)
    ensures Window(k, PlanAndSend(k, s, now, sent))
  {
    var next := Next(k, s);
    var plan := P.PlanAt(s.planner, next, k.limit, now);
    P.PlanKeepsInv(s.planner, next, k.limit, now);
    PlanStaysInWindow(s.planner, next, k.limit, now);
    UnsentNotReceived(s.planner, next, k.limit, now, s.peers, sent);
    if plan.error.Some? {
      NewPlannerKeepsWindow(k, s, plan.state, {});
      assert plan.state.inflight - {} == plan.state.inflight && plan.state.received - {} == plan.state.received;
    } else {
      NewPlannerKeepsWindow(k, s, plan.state, Unsent(s.peers, plan.requests, sent));
    }
  }

  lemma PlanStaysInWindow(p: P.State, next: int, limit: int, now: int)
    requires forall h :: h in p.received ==> h >= next
    ensures var q := P.PlanAt(p, next, limit, now).state;
            && q.peers == p.peers
            && q.received == p.received
            && forall h :: h in q.inflight && h !in p.inflight ==> next <= h < next + limit
  {
    var pruned, end := P.PruneBelow(p, next), P.WindowEnd(p, next, limit);
    SameInts(pruned.received, p.received);
    P.FillIsExact(pruned, next, end, now);
    var f := P.Fill(pruned, next, end, now);
    forall h | h in f.state.inflight && h !in p.inflight ensures next <= h <= end {
      var r :| r in f.requests && r.height == h;
      var i :| 0 <= i < |f.requests| && f.requests[i] == r;
    }
  }

  /** An accepted block moves the window up by one. */
  lemma AcceptKeepsWindow(k: Config, s: State, b: Block)
    requires Window(k, s) && I.Submit(k.c, k.o, s.ingest, Some(b)).Ok?
    ensures var t := Accepted(s, b.header.height, I.Submit(k.c, k.o, s.ingest, Some(b)).value);
            Window(k, t) && Next(k, t) == Next(k, s) + 1
  {
  }

  lemma RejectKeepsWindow(k: Config, s: State, id: P.PeerID, h: int)
    requires Window(k, s)
    ensures Window(k, Rejected(s, id, h))
  {
    DropKeepsWindow(k, s, {h});
    var t := Drop(s, {h});
    if id == "" {
      ExpelKeepsWindow(k, t, id);
    } else {
      ExpelKeepsWindow(k, t, id);
      ExpelKeepsWindow(k, Expel(t, id), id);
    }
  }

  lemma {:induction false} DrainKeepsWindow(k: Config, s: State, id: P.PeerID, b: Block)
    requires Window(k, s)
    ensures Window(k, Drain(k, s, id, b).state)
    decreases |s.buffer - {b.header.height}|
  {
    var h := b.header.height;
    if I.Submit(k.c, k.o, s.ingest, Some(b)).Err? {
      RejectKeepsWindow(k, s, id, h);
    } else {
      AcceptKeepsWindow(k, s, b);
      var t := Accepted(s, h, I.Submit(k.c, k.o, s.ingest, Some(b)).value);
      var next := Next(k, t);
      if next in t.buffer {
        assert t.buffer - {next} == (s.buffer - {h}) - {next};
        assert |t.buffer - {next}| == |t.buffer| - 1;
        DrainKeepsWindow(k, t, t.buffer[next].peer, t.buffer[next].block);
      }
    }
  }

  /** Draining stops only when no buffered block is next, whether it ran out of blocks or met a bad one. */
  lemma {:induction false} DrainLeavesNothingReady(k: Config, s: State, id: P.PeerID, b: Block)
    requires Filed(s.buffer) && b.header.height == Next(k, s)
    ensures NothingReady(k, Drain(k, s, id, b).state)
    decreases |s.buffer - {b.header.height}|
  {
    var h := b.header.height;
    if I.Submit(k.c, k.o, s.ingest, Some(b)).Ok? {
      var t := Accepted(s, h, I.Submit(k.c, k.o, s.ingest, Some(b)).value);
      var next := Next(k, t);
      if next in t.buffer {
        assert t.buffer - {next} == (s.buffer - {h}) - {next};
        assert |t.buffer - {next}| == |t.buffer| - 1;
        DrainLeavesNothingReady(k, t, t.buffer[next].peer, t.buffer[next].block);
      }
    }
  }

  lemma HandleLeavesNothingReady(k: Config, s: State, e: Event, now: int, sent: P.Request -> bool)
    requires Filed(s.buffer) && NothingReady(k, s)
    ensures NothingReady(k, Handle(k, s, e, now, sent))
  {
    hide I.Submit, P.PlanAt, P.UpsertPeer, P.RemovePeer, P.ExpireInflight, P.MarkNoBlock;
    if e.Response? && e.block.Some? && e.block.value.header.height == Next(k, s) {
      DrainLeavesNothingReady(k, s, e.id, e.block.value);
      hide Drain;
    }
  }

  lemma BufferKeepsWindow(k: Config, s: State, id: P.PeerID, b: Block)
    requires Window(k, s) && b.header.height in s.planner.inflight && s.planner.inflight[b.header.height].peer == id
    ensures var h := b.header.height;
            Window(k, s.(planner := P.MarkReceived(s.planner, h), buffer := s.buffer[h := Buffered(id, b)]))
  {
  }

  lemma ResponseKeepsWindow(k: Config, s: State, id: P.PeerID, block: Option<Block>, now: int, sent: P.Request -> bool)
    requires Window(k, s)
    ensures Window(k, HandleResponse(k, s, id, block, now, sent))
  {
    if block.None? {
      ExpelKeepsWindow(k, s, id);
      ExpelKeepsWindow(k, Expel(s, id), id);
      PlanKeepsWindow(k, RemovePeer(Expel(s, id), id), now, sent);
    } else {
      var b, h := block.value, block.value.header.height;
      if h in s.planner.inflight && s.planner.inflight[h].peer == id {
        if h > Next(k, s) {
          BufferKeepsWindow(k, s, id, b);
          PlanKeepsWindow(k, s.(planner := P.MarkReceived(s.planner, h), buffer := s.buffer[h := Buffered(id, b)]), now, sent);
        } else if h == Next(k, s) {
          DrainKeepsWindow(k, s, id, b);
          PlanKeepsWindow(k, Drain(k, s, id, b).state, now, sent);
        }
      }
    }
  }

  lemma StatusKeepsWindow(k: Config, s: State, id: P.PeerID, advertised: P.PeerRange)
    requires Window(k, s) && P.UpsertPeer(s.planner, id, advertised).Ok?
    ensures Window(k, Drop(s.(planner := P.UpsertPeer(s.planner, id, advertised).value), OutsideRange(s, id, advertised)))
  {
    P.UpsertKeepsInv(s.planner, id, advertised);
  }

  lemma NoBlockKeepsWindow(k: Config, s: State, id: P.PeerID, h: int)
    requires Window(k, s)
    ensures Window(k, s.(planner := P.MarkNoBlock(s.planner, id, h)))
  {
    P.OpKeepsInv(s.planner, P.OpNoBlock(id, h));
  }

  lemma TimerKeepsWindow(k: Config, s: State, now: int, timeout: int)
    requires Window(k, s)
    ensures Window(k, s.(planner := P.ExpireInflight(s.planner, now, timeout)))
  {
    P.ExpireKeepsInv(s.planner, now, timeout);
  }

  lemma HandleKeepsWindow(k: Config, s: State, e: Event, now: int, sent: P.Request -> bool)
    requires Window(k, s)
    ensures Window(k, Handle(k, s, e, now, sent))
  {
    match e
    case AddPeer(id) =>
    case LosePeer(id) => ExpelKeepsWindow(k, s, id);
    case Status(id, advertised) =>
      if P.UpsertPeer(s.planner, id, advertised).Ok? {
        StatusKeepsWindow(k, s, id, advertised);
        PlanKeepsWindow(k, Drop(s.(planner := P.UpsertPeer(s.planner, id, advertised).value), OutsideRange(s, id, advertised)), now, sent);
      }
    case NoBlock(id, h) =>
      NoBlockKeepsWindow(k, s, id, h);
      PlanKeepsWindow(k, s.(planner := P.MarkNoBlock(s.planner, id, h)), now, sent);
    case Response(id, block) => ResponseKeepsWindow(k, s, id, block, now, sent);
    case Timer(timeout) =>
      TimerKeepsWindow(k, s, now, timeout);
      PlanKeepsWindow(k, s.(planner := P.ExpireInflight(s.planner, now, timeout)), now, sent);
  }

  // ---------------------------------------------------------------- whole runs

  datatype Input = Input(event: Event, now: int, sent: P.Request -> bool)

  ghost predicate Run(k: Config, ss: seq<State>, ins: seq<Input>) {
    && |ss| == |ins| + 1
    && forall i :: 0 <= i < |ins| ==> Filed(ss[i].buffer) && ss[i + 1] == Handle(k, ss[i], ins[i].event, ins[i].now, ins[i].sent)
  }

  /** From a fresh reactor, the window and its bound hold after every handled event, and no ready block is left lying. */
  lemma {:induction false} RunKeepsWindow(k: Config, ss: seq<State>, ins: seq<Input>, j: nat)
    requires k.limit >= 0 && Run(k, ss, ins) && j < |ss|
    requires ss[0].planner == P.Empty() && ss[0].buffer == map[]
    ensures Window(k, ss[j]) && NothingReady(k, ss[j]) && |ss[j].planner.inflight| + |ss[j].buffer| <= k.limit
  {
    if j > 0 {
      RunKeepsWindow(k, ss, ins, j - 1);
      HandleKeepsWindow(k, ss[j - 1], ins[j - 1].event, ins[j - 1].now, ins[j - 1].sent);
      HandleLeavesNothingReady(k, ss[j - 1], ins[j - 1].event, ins[j - 1].now, ins[j - 1].sent);
    }
    WindowBoundsWork(k, ss[j]);
  }

  // ---------------------------------------------------------------- the object

  class ArchiveReactor {
    const k: Config
    const planner: P.RequestPlanner
    const ingestor: I.HotIngestor
    var peers: set<P.PeerID>
    var buffer: map<int, Buffered>

    ghost function View(): State
      reads this, planner, ingestor
    {
      State(planner.View(), buffer, peers, ingestor.View())
    }

    ghost predicate Valid()
      reads this, planner, ingestor
    {
      ingestor.Valid() && ingestor.c == k.c && ingestor.opts == k.o && Filed(buffer)
    }

    constructor (k: Config, ingestor: I.HotIngestor, planner: P.RequestPlanner)
      requires ingestor.Valid() && ingestor.c == k.c && ingestor.opts == k.o
      ensures Valid() && this.k == k && this.ingestor == ingestor && this.planner == planner
      ensures View() == State(planner.View(), map[], {}, ingestor.View())
    {
      this.k, this.ingestor, this.planner := k, ingestor, planner;
      peers, buffer := {}, map[];
    }

    /** Drops every buffered block whose height is in `heights`, one at a time. */
    method DropBuffered(heights: set<int>)
      requires Valid()
      modifies `buffer, planner
      ensures Valid() && View() == Drop(old(View()), heights)
    {
      var todo := heights;
      while todo != {}
        invariant todo <= heights
        invariant Valid() && View() == Drop(old(View()), heights - todo)
        decreases todo
      {
        SomeInt(todo);
        var h :| h in todo;
        buffer := buffer - {h};
        planner.Done(h);
        assert heights - (todo - {h}) == (heights - todo) + {h};
        todo := todo - {h};
      }
      assert heights - todo == heights;
    }

    method ExpelPeer(id: P.PeerID)
      requires Valid()
      modifies `buffer, planner
      ensures Valid() && View() == Expel(old(View()), id)
    {
      planner.Remove(id);
      DropBuffered(set h | h in buffer && buffer[h].peer == id);
    }

    method LosePeer(id: P.PeerID)
      requires Valid()
      modifies this, planner
      ensures Valid() && View() == RemovePeer(old(View()), id)
    {
      peers := peers - {id};
      ExpelPeer(id);
    }

    method Plan(now: int, sent: P.Request -> bool)
      requires Valid()
      modifies planner
      ensures Valid() && View() == PlanAndSend(k, old(View()), now, sent)
    {
      var next := CurrentNext();
      var requests, error := planner.Plan(next, k.limit, now);
      if error.Some? { return; }
      ghost var planned := planner.View();
      var i := 0;
      UnsentNone(peers, planned, sent);
      assert requests[..0] == [];
      while i < |requests|
        invariant 0 <= i <= |requests|
        invariant Valid() && planner.View() == ForgetAll(planned, Unsent(peers, requests[..i], sent))
      {
        UnsentOneMore(peers, requests, sent, i);
        if requests[i].peer !in peers || !sent(requests[i]) { planner.Done(requests[i].height); }
        i := i + 1;
      }
      assert requests[..i] == requests;
    }

    method CurrentNext() returns (next: int)
      requires Valid()
      ensures next == Next(k, View())
    {
      if ingestor.pending.Some? { return ingestor.pending.value.header.height + 1; }
      if ingestor.store.Height() > 0 { return ingestor.store.Height() + 1; }
      return ingestor.opts.startHeight;
    }

    method SubmitAndDrain(id: P.PeerID, block: Block) returns (ok: bool)
      requires Valid()
      modifies this, planner, ingestor
      ensures Valid() && Drained(View(), ok) == Drain(k, old(View()), id, block)
      ensures block.header.height == Next(k, old(View())) ==> NothingReady(k, View())
    {
      hide I.Submit, Rejected;
      if block.header.height == Next(k, View()) { DrainLeavesNothingReady(k, View(), id, block); }
      var peer, current := id, Some(block);
      while current.Some?
        invariant Valid()
        invariant current.Some? ==> Drain(k, View(), peer, current.value) == Drain(k, old(View()), id, block)
        invariant current.None? ==> Drained(View(), true) == Drain(k, old(View()), id, block)
        decreases if current.Some? then 1 + |buffer - {current.value.header.height}| else 0
      {
        ghost var before := buffer - {current.value.header.height};
        ok := SubmitOne(peer, current.value);
        if !ok { return; }
        var next := CurrentNext();
        if next in buffer {
          peer, current := buffer[next].peer, Some(buffer[next].block);
          assert |before - {next}| == |before| - 1;
        } else {
          current := None;
        }
      }
      return true;
    }

    method SubmitOne(id: P.PeerID, b: Block) returns (ok: bool)
      requires Valid()
      modifies this, planner, ingestor
      ensures Valid()
      ensures var s, h := old(View()), b.header.height;
              var r := I.Submit(k.c, k.o, s.ingest, Some(b));
              ok == r.Ok? && View() == if ok then Accepted(s, h, r.value) else Rejected(s, id, h)
    {
      var h := b.header.height;
      var r := ingestor.SubmitBlock(Some(b));
      planner.Done(h);
      buffer := buffer - {h};
      if r.Ok? { return true; }
      if id != "" { ExpelPeer(id); }
      LosePeer(id);
      return false;
    }

    method HandleBlockResponse(id: P.PeerID, block: Option<Block>, now: int, sent: P.Request -> bool)
      requires Valid()
      modifies this, planner, ingestor
      ensures Valid() && View() == HandleResponse(k, old(View()), id, block, now, sent)
      ensures NothingReady(k, old(View())) ==> NothingReady(k, View())
    {
      if NothingReady(k, View()) { HandleLeavesNothingReady(k, View(), Response(id, block), now, sent); }
      if block.None? {
        ExpelPeer(id);
        LosePeer(id);
        Plan(now, sent);
        return;
      }
      var h := block.value.header.height;
      if h !in planner.inflight || planner.inflight[h].peer != id { return; }
      var next := CurrentNext();
      if h < next {
        planner.Done(h);
        return;
      }
      if h > next {
        buffer := buffer[h := Buffered(id, block.value)];
        planner.Received(h);
        Plan(now, sent);
        return;
      }
      var ok := SubmitAndDrain(id, block.value);
      Plan(now, sent);
    }

    method HandleStatus(id: P.PeerID, advertised: P.PeerRange, now: int, sent: P.Request -> bool)
      requires Valid()
      modifies this, planner
      ensures Valid() && View() == Handle(k, old(View()), Status(id, advertised), now, sent)
    {
      var e := planner.Upsert(id, advertised);
      if e.Some? { return; }
      DropBuffered(set h | h in buffer && buffer[h].peer == id && !advertised.Contains(h));
      Plan(now, sent);
    }

    method HandleNoBlock(id: P.PeerID, h: int, now: int, sent: P.Request -> bool)
      requires Valid()
      modifies this, planner
      ensures Valid() && View() == Handle(k, old(View()), NoBlock(id, h), now, sent)
    {
      planner.NoBlock(id, h);
      Plan(now, sent);
    }

    method HandleTimer(timeout: int, now: int, sent: P.Request -> bool)
      requires Valid()
      modifies this, planner
      ensures Valid() && View() == Handle(k, old(View()), Timer(timeout), now, sent)
    {
      var expired := planner.Expire(now, timeout);
      if expired > 0 { Plan(now, sent); }
    }
  }

  lemma UnsentNone(peers: set<P.PeerID>, p: P.State, sent: P.Request -> bool)
    ensures ForgetAll(p, Unsent(peers, [], sent)) == p
  {
    NoInts(Unsent(peers, [], sent));
    assert p.inflight - {} == p.inflight && p.received - {} == p.received;
  }

  lemma UnsentOneMore(peers: set<P.PeerID>, rs: seq<P.Request>, sent: P.Request -> bool, i: nat)
    requires i < |rs|
    ensures Unsent(peers, rs[..i + 1], sent) ==
              Unsent(peers, rs[..i], sent) + if rs[i].peer in peers && sent(rs[i]) then {} else {rs[i].height}
  {
    var a, b := rs[..i], rs[..i + 1];
    assert forall j :: 0 <= j < i ==> a[j] == b[j];
    SameInts(Unsent(peers, b, sent), Unsent(peers, a, sent) + if rs[i].peer in peers && sent(rs[i]) then {} else {rs[i].height});
  }
}
