/** What the reactor's handlers get done: no height that could be asked for is left idle, and no buffered block is lost. */
module Progress {
  import opened Common
  import opened Chain
  import P = Planner
  import I = Ingest
  import R = Reactor

  /** Every height of the window that planning comes to, and that somebody can serve, is asked for or buffered. */
  ghost predicate Busy(k: R.Config, s: R.State) {
    forall h :: R.Next(k, s) <= h < R.Next(k, s) + k.limit && P.Reachable(s.planner, R.Next(k, s), h) && P.Eligible(s.planner, h) != {} ==>
      h in s.planner.inflight || h in s.planner.received
  }

  /** Every request can be sent: the peers the planner knows are connected, and sending works. */
  ghost predicate Connected(s: R.State, sent: P.Request -> bool) {
    (forall id :: id in s.planner.peers ==> id in s.peers) && forall q :: sent(q)
  }

  /** What is reachable after planning was reachable before. */
  lemma ReachedBefore(s: P.State, t: P.State, next: int, end: int, now: int, h: int)
    requires P.OnlyAdds(s, t) && (forall r :: r in P.Fill(s, next, end, now).requests ==> P.GoodRequest(s, t, r, now))
    requires forall g :: g in t.inflight && g !in s.inflight ==> exists r :: r in P.Fill(s, next, end, now).requests && r.height == g
    requires P.Reachable(t, next, h)
    ensures P.Reachable(s, next, h)
  {
    forall g | next <= g < h ensures g in s.inflight || g in s.received || P.Eligible(s, g) != {} {
      assert P.Eligible(t, g) == P.Eligible(s, g);
      if g in t.inflight && g !in s.inflight {
        var r :| r in P.Fill(s, next, end, now).requests && r.height == g;
        assert P.GoodRequest(s, t, r, now);
      }
    }
  }

  /** A planning pass covers every height it comes to that somebody can serve. */
  lemma FillCoversReachable(s: P.State, next: int, limit: int, now: int, h: int)
    requires next <= h < next + limit
    requires var f := P.Fill(s, next, P.WindowEnd(s, next, limit), now); P.Reachable(f.state, next, h) && P.Eligible(f.state, h) != {}
    ensures var f := P.Fill(s, next, P.WindowEnd(s, next, limit), now); h in f.state.inflight || h in f.state.received
  {
    var end := P.WindowEnd(s, next, limit);
    P.FillIsExact(s, next, end, now);
    var f := P.Fill(s, next, end, now);
    assert P.Eligible(f.state, h) == P.Eligible(s, h);
    var id :| id in P.Eligible(s, h);
    assert s.peers[id].height <= P.BestHeight(s.peers);
    ReachedBefore(s, f.state, next, end, now, h);
    P.NotStuckBefore(s, next, end, now, h);
  }

  lemma PlanMakesBusy(k: R.Config, s: R.State, now: int, sent: P.Request -> bool)
    requires Connected(s, sent) && R.Next(k, s) > 0 && k.limit <= P.MAX_REQUEST_LIMIT
    ensures Busy(k, R.PlanAndSend(k, s, now, sent))
  {
    var next := R.Next(k, s);
    var t := R.PlanAndSend(k, s, now, sent);
    var pruned := P.PruneBelow(s.planner, next);
    forall h | next <= h < next + k.limit && P.Reachable(t.planner, next, h) && P.Eligible(t.planner, h) != {}
      ensures h in t.planner.inflight || h in t.planner.received
    {
      PlannedState(k, s, now, sent, h);
      FillCoversReachable(pruned, next, k.limit, now, h);
    }
  }

  /** With everything sent, the planner ends up as the planning pass leaves it. */
  lemma PlannedState(k: R.Config, s: R.State, now: int, sent: P.Request -> bool, h: int)
    requires Connected(s, sent) && R.Next(k, s) > 0 && 0 < k.limit <= P.MAX_REQUEST_LIMIT
    requires P.Eligible(R.PlanAndSend(k, s, now, sent).planner, h) != {}
    ensures var pruned := P.PruneBelow(s.planner, R.Next(k, s));
            R.PlanAndSend(k, s, now, sent).planner == P.Fill(pruned, R.Next(k, s), P.WindowEnd(pruned, R.Next(k, s), k.limit), now).state
  {
    var next := R.Next(k, s);
    var pruned := P.PruneBelow(s.planner, next);
    var end := P.WindowEnd(s.planner, next, k.limit);
    var plan := P.PlanAt(s.planner, next, k.limit, now);
    var f := P.Fill(pruned, next, end, now);
    P.FillIsExact(pruned, next, end, now);
    var unsent := R.Unsent(s.peers, plan.requests, sent);
    forall i | 0 <= i < |plan.requests| ensures plan.requests[i].peer in s.peers {
      assert plan.requests[i] in f.requests;
      assert P.GoodRequest(pruned, f.state, plan.requests[i], now);
    }
    NoInts(unsent);
    assert plan.state.inflight - {} == plan.state.inflight && plan.state.received - {} == plan.state.received;
    SomebodyIsThere(R.PlanAndSend(k, s, now, sent).planner, h);
  }

  lemma SomebodyIsThere(p: P.State, h: int)
    requires P.Eligible(p, h) != {}
    ensures |p.peers| != 0
  {
    var id :| id in P.Eligible(p, h);
    assert id in p.peers;
  }

  /** The handler of `e` ends with planning. */
  ghost predicate Plans(k: R.Config, s: R.State, e: R.Event, now: int) {
    match e
    case Status(id, advertised) => P.UpsertPeer(s.planner, id, advertised).Ok?
    case NoBlock(_, _) => true
    case Response(id, b) =>
      b.Some? ==> b.value.header.height in s.planner.inflight && s.planner.inflight[b.value.header.height].peer == id && b.value.header.height >= R.Next(k, s)
    case Timer(timeout) => timeout > 0 && P.Expired(s.planner, now, timeout) != {}
    case _ => false
  }

  lemma {:induction false} DrainStaysConnected(k: R.Config, s: R.State, id: P.PeerID, b: Block, sent: P.Request -> bool)
    requires R.Filed(s.buffer) && Connected(s, sent)
    ensures Connected(R.Drain(k, s, id, b).state, sent) && R.Next(k, R.Drain(k, s, id, b).state) >= R.Next(k, s)
    decreases |s.buffer - {b.header.height}|
  {
    var h := b.header.height;
    var r := I.Submit(k.c, k.o, s.ingest, Some(b));
    if r.Ok? {
      var t := R.Accepted(s, h, r.value);
      var next := R.Next(k, t);
      if next in t.buffer {
        assert t.buffer - {next} == (s.buffer - {h}) - {next};
        assert |t.buffer - {next}| == |t.buffer| - 1;
        DrainStaysConnected(k, t, t.buffer[next].peer, t.buffer[next].block, sent);
      }
    }
  }

  /**
   No idling.  After every status, every NoBlock answer, every block that was asked for, every
   empty answer and every expiry, and with all peers within reach, each height of the window
   that somebody can serve, up to the first that nobody can, is asked for or buffered.
   */
  lemma HandleLeavesBusy(k: R.Config, s: R.State, e: R.Event, now: int, sent: P.Request -> bool)
    requires R.Filed(s.buffer) && Connected(s, sent) && (e.Status? ==> e.id in s.peers)
    requires R.Next(k, s) > 0 && k.limit <= P.MAX_REQUEST_LIMIT && Plans(k, s, e, now)
    ensures Busy(k, R.Handle(k, s, e, now, sent))
  {
    hide I.Submit, R.Drain, P.PlanAt, Busy, R.PlanAndSend;
    match e
    case Status(id, advertised) =>
      var u := P.UpsertPeer(s.planner, id, advertised).value;
      PlanMakesBusy(k, R.Drop(s.(planner := u), R.OutsideRange(s, id, advertised)), now, sent);
    case NoBlock(id, h) => PlanMakesBusy(k, s.(planner := P.MarkNoBlock(s.planner, id, h)), now, sent);
    case Timer(timeout) => PlanMakesBusy(k, s.(planner := P.ExpireInflight(s.planner, now, timeout)), now, sent);
    case Response(id, block) =>
      if block.None? {
        PlanMakesBusy(k, R.RemovePeer(R.Expel(s, id), id), now, sent);
      } else {
        var b, h := block.value, block.value.header.height;
        if h > R.Next(k, s) {
          PlanMakesBusy(k, s.(planner := P.MarkReceived(s.planner, h), buffer := s.buffer[h := R.Buffered(id, b)]), now, sent);
        } else {
          DrainStaysConnected(k, s, id, b, sent);
          PlanMakesBusy(k, R.Drain(k, s, id, b).state, now, sent);
        }
      }
  }

  /** `e` is why the buffered block at `g` has to go, draining apart. */
  ghost predicate Discards(s: R.State, e: R.Event, g: int)
    requires g in s.buffer
  {
    match e
    case LosePeer(id) => s.buffer[g].peer == id
    case Status(id, advertised) => id != "" && advertised.Valid() && s.buffer[g].peer == id && !advertised.Contains(g)
    case Response(id, b) => b.None? && s.buffer[g].peer == id
    case _ => false
  }

  /** A buffered block stays until it is drained or its sender leaves, misbehaves or withdraws it; nothing else is buffered but early blocks that were asked for. */
  lemma BufferedStaysIff(k: R.Config, s: R.State, e: R.Event, now: int, sent: P.Request -> bool, g: int)
    requires R.Filed(s.buffer) && !(e.Response? && e.block.Some? && e.block.value.header.height == R.Next(k, s))
    ensures var (t, h) := (R.Handle(k, s, e, now, sent), if e.Response? && e.block.Some? then e.block.value.header.height else 0);
            var early := e.Response? && e.block.Some? && h > R.Next(k, s) && h in s.planner.inflight && s.planner.inflight[h].peer == e.id;
            && (g in t.buffer <==> (g in s.buffer && !Discards(s, e, g)) || (early && g == h))
            && (g in t.buffer ==> t.buffer[g] == if early && g == h then R.Buffered(e.id, e.block.value) else s.buffer[g])
            && t.ingest == s.ingest
  {
    hide I.Submit, P.PlanAt, P.ExpireInflight, P.MarkNoBlock, P.RemovePeer;
  }

  /** Planning and failed sends leave alone who is known, and what is remembered from the next height on. */
  lemma PlanningKeeps(k: R.Config, s: R.State, now: int, sent: P.Request -> bool, id: P.PeerID, h: int)
    requires P.Inv(s.planner) && h >= R.Next(k, s)
    ensures var t := R.PlanAndSend(k, s, now, sent);
            && t.planner.peers == s.planner.peers && t.peers == s.peers
            && (P.Marked(t.planner.noBlocks, id, h) <==> P.Marked(s.planner.noBlocks, id, h))
            && (P.Marked(t.planner.timeouts, id, h) <==> P.Marked(s.planner.timeouts, id, h))
  {
    var next := R.Next(k, s);
    P.PlanMarks(s.planner, next, k.limit, now, id, h);
    P.FillOnlyAdds(P.PruneBelow(s.planner, next), next, P.WindowEnd(s.planner, next, k.limit), now);
  }

  /** What each event tells the reactor, it remembers. */
  ghost predicate Remembered(k: R.Config, s: R.State, e: R.Event, now: int, t: R.State, h: int) {
    match e
    case AddPeer(id) => id in t.peers
    case LosePeer(id) => id !in t.peers && id !in t.planner.peers
    case Status(id, advertised) => id != "" && advertised.Valid() ==> id in t.planner.peers && t.planner.peers[id] == advertised
    case NoBlock(id, g) => g == h && h in s.planner.inflight && s.planner.inflight[h].peer == id ==> P.Marked(t.planner.noBlocks, id, h)
    case Timer(timeout) =>
      timeout > 0 && h in s.planner.inflight && now - s.planner.inflight[h].requestedAt >= timeout ==>
        P.Marked(t.planner.timeouts, s.planner.inflight[h].peer, h)
    case Response(id, b) =>
      if b.None? then id !in t.peers && id !in t.planner.peers
      else
        var g := b.value.header.height;
        var asked := g in s.planner.inflight && s.planner.inflight[g].peer == id;
        (!asked ==> t == s) && (asked && g < R.Next(k, s) ==> g !in t.planner.inflight && t.buffer == s.buffer)
  }

  /**
   What an event says is taken to heart: a peer's range, its refusal of a height or its
   lateness with one is known afterwards, and so is that it left; an answer nobody asked for
   changes nothing.
   */
  lemma EventsAreRemembered(k: R.Config, s: R.State, e: R.Event, now: int, sent: P.Request -> bool, h: int)
    requires R.Window(k, s) && h >= R.Next(k, s)
    ensures Remembered(k, s, e, now, R.Handle(k, s, e, now, sent), h)
  {
    hide I.Submit, R.Drain, P.PlanAt, R.PlanAndSend;
    match e
    case Status(id, advertised) =>
      if P.UpsertPeer(s.planner, id, advertised).Ok? {
        R.StatusKeepsWindow(k, s, id, advertised);
        PlanningKeeps(k, R.Drop(s.(planner := P.UpsertPeer(s.planner, id, advertised).value), R.OutsideRange(s, id, advertised)), now, sent, id, h);
      }
    case NoBlock(id, g) =>
      R.NoBlockKeepsWindow(k, s, id, g);
      PlanningKeeps(k, s.(planner := P.MarkNoBlock(s.planner, id, g)), now, sent, id, h);
    case Timer(timeout) =>
      if timeout > 0 && h in s.planner.inflight {
        R.TimerKeepsWindow(k, s, now, timeout);
        P.ExpiryMarks(s.planner, now, timeout, s.planner.inflight[h].peer, h);
        PlanningKeeps(k, s.(planner := P.ExpireInflight(s.planner, now, timeout)), now, sent, s.planner.inflight[h].peer, h);
      }
    case Response(id, b) =>
      if b.None? {
        R.ExpelKeepsWindow(k, s, id);
        R.ExpelKeepsWindow(k, R.Expel(s, id), id);
        PlanningKeeps(k, R.RemovePeer(R.Expel(s, id), id), now, sent, id, h);
      }
    case _ =>
  }
}
