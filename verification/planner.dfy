/**
 The block request planner: which peer is asked for which height.
 `State` is the planner's five maps as one value, and the functions below give
 each operation's effect on it.  `RequestPlanner` is the object that updates the
 maps in place; every method is proved to have exactly the effect of its function.
 */
module Planner {
  import opened Common

  const MAX_REQUEST_LIMIT: int := 1024

  type PeerID = string

  datatype PeerRange = PeerRange(base: int, height: int) {
    predicate Valid() { base > 0 && height > 0 && base <= height }

    predicate Contains(h: int) { base <= h <= height }
  }

  datatype Request = Request(peer: PeerID, height: int)

  datatype Inflight = Inflight(peer: PeerID, requestedAt: int)

  type Marks = map<PeerID, set<int>>

  datatype PlanError = MissingPeerID | InvalidRange | BadHeight | LimitTooLarge | NoPeers | NoPeerForHeight(height: int)

  datatype State = State(
    peers: map<PeerID, PeerRange>,
    inflight: map<int, Inflight>,
    received: set<int>,
    noBlocks: Marks,
    timeouts: Marks)

  function Empty(): State { State(map[], map[], {}, map[], map[]) }

  predicate Marked(m: Marks, id: PeerID, h: int) { id in m && h in m[id] }

  /** What every operation keeps. */
  ghost predicate Inv(s: State) {
    && (forall id :: id in s.peers ==> id != "" && s.peers[id].Valid())
    && (forall h :: h in s.inflight ==>
          && h !in s.received
          && s.inflight[h].peer in s.peers
          && s.peers[s.inflight[h].peer].Contains(h)
          && !Marked(s.noBlocks, s.inflight[h].peer, h))
    && MarksInRange(s.noBlocks, s.peers)
    && MarksInRange(s.timeouts, s.peers)
  }

  ghost predicate MarksInRange(m: Marks, peers: map<PeerID, PeerRange>) {
    forall id, h :: Marked(m, id, h) ==> id in peers && peers[id].Contains(h)
  }

  // ---------------------------------------------------------------- operations

  function UpsertPeer(s: State, id: PeerID, advertised: PeerRange): (r: Result<State, PlanError>)
  {
    if id == "" then Err(MissingPeerID)
    else if !advertised.Valid() then Err(InvalidRange)
    else
      var changed := id in s.peers && s.peers[id] != advertised;
      Ok(State(
           s.peers[id := advertised],
           map h | h in s.inflight && (s.inflight[h].peer != id || advertised.Contains(h)) :: s.inflight[h],
           s.received,
           if changed then s.noBlocks - {id} else s.noBlocks,
           if changed then s.timeouts - {id} else s.timeouts))
  }

  function RemovePeer(s: State, id: PeerID): State {
    State(
      s.peers - {id},
      map h | h in s.inflight && s.inflight[h].peer != id :: s.inflight[h],
      s.received,
      s.noBlocks - {id},
      s.timeouts - {id})
  }

  /** `MarkDone` and `MarkFailed` have the same effect. */
  function Forget(s: State, h: int): State {
    s.(inflight := s.inflight - {h}, received := s.received - {h})
  }

  function MarkReceived(s: State, h: int): State {
    s.(inflight := s.inflight - {h}, received := if h > 0 then s.received + {h} else s.received)
  }

  function AddMark(m: Marks, id: PeerID, h: int): Marks {
    m[id := (if id in m then m[id] else {}) + {h}]
  }

  function MarkNoBlock(s: State, id: PeerID, h: int): State {
    if id == "" || h <= 0 || h !in s.inflight || s.inflight[h].peer != id then s
    else s.(inflight := s.inflight - {h}, noBlocks := AddMark(s.noBlocks, id, h))
  }

  function Expired(s: State, now: int, timeout: int): set<int> {
    set h | h in s.inflight && now - s.inflight[h].requestedAt >= timeout
  }

  function MarkAll(m: Marks, inflight: map<int, Inflight>, heights: set<int>): Marks
    requires heights <= inflight.Keys
  {
    map id | id in m.Keys + (set h | h in heights :: inflight[h].peer) ::
      (if id in m then m[id] else {}) + (set h | h in heights && inflight[h].peer == id)
  }

  function ExpireInflight(s: State, now: int, timeout: int): State {
    if timeout <= 0 then s
    else
      var gone := Expired(s, now, timeout);
      s.(inflight := s.inflight - gone, timeouts := MarkAll(s.timeouts, s.inflight, gone))
  }

  ghost function BestHeight(peers: map<PeerID, PeerRange>): (best: int)
    ensures best >= 0
    ensures forall id :: id in peers ==> peers[id].height <= best
    ensures best == 0 || exists id :: id in peers && peers[id].height == best
  {
    BestHeightExists(peers);
    var best :| best >= 0 && IsBest(peers, best);
    best
  }

  ghost predicate IsBest(peers: map<PeerID, PeerRange>, best: int) {
    && (forall id :: id in peers ==> peers[id].height <= best)
    && (best == 0 || exists id :: id in peers && peers[id].height == best)
  }

  function KeepFrom(m: Marks, h: int): Marks {
    map id | id in m && (exists k :: k in m[id] && k >= h) :: (set k | k in m[id] && k >= h)
  }

  function PruneBelow(s: State, h: int): State {
    s.(received := (set k | k in s.received && k >= h),
       noBlocks := KeepFrom(s.noBlocks, h),
       timeouts := KeepFrom(s.timeouts, h))
  }

  lemma {:induction false} BestHeightExists(peers: map<PeerID, PeerRange>)
    ensures exists best :: best >= 0 && IsBest(peers, best)
    decreases |peers|
  {
    if peers == map[] {
      assert IsBest(peers, 0);
    } else {
      var id :| id in peers;
      var rest := peers - {id};
      assert |rest| == |peers| - 1;
      BestHeightExists(rest);
      var b :| b >= 0 && IsBest(rest, b);
      assert forall k :: k in peers ==> k == id || (k in rest && rest[k] == peers[k]);
      if peers[id].height > b {
        assert IsBest(peers, peers[id].height);
      } else {
        if b != 0 {
          var k :| k in rest && rest[k].height == b;
          assert k in peers && peers[k].height == b;
        }
        assert IsBest(peers, b);
      }
    }
  }

  // ---------------------------------------------------------------- choosing a peer

  /** Byte-wise order of peer IDs, the order `slices.Sort` puts them in. */
  predicate Before(a: PeerID, b: PeerID) {
    if b == "" then false
    else if a == "" then true
    else a[0] < b[0] || (a[0] == b[0] && Before(a[1..], b[1..]))
  }

  lemma {:induction false} BeforeTotal(a: PeerID, b: PeerID)
    ensures a == b || Before(a, b) || Before(b, a)
    ensures !(Before(a, b) && Before(b, a))
    ensures a == b ==> !Before(a, b)
  {
    if a != "" && b != "" {
      BeforeTotal(a[1..], b[1..]);
      assert a == [a[0]] + a[1..] && b == [b[0]] + b[1..];
    }
  }

  lemma {:induction false} BeforeTransitive(a: PeerID, b: PeerID, c: PeerID)
    requires Before(a, b) && Before(b, c)
    ensures Before(a, c)
  {
    if a != "" && a[0] == b[0] == c[0] {
      BeforeTransitive(a[1..], b[1..], c[1..]);
    }
  }

  ghost predicate IsLeast(x: PeerID, s: set<PeerID>) {
    x in s && forall y :: y in s && y != x ==> Before(x, y)
  }

  lemma {:induction false} LeastExists(s: set<PeerID>)
    requires s != {}
    ensures exists x :: IsLeast(x, s)
  {
    var x :| x in s;
    var rest := s - {x};
    if rest == {} {
      assert forall y :: y in s ==> y == x || y in rest;
      assert IsLeast(x, s);
    } else {
      LeastExists(rest);
      var y :| IsLeast(y, rest);
      BeforeTotal(x, y);
      if Before(y, x) {
        assert IsLeast(y, s);
      } else {
        forall z | z in s && z != x ensures Before(x, z) {
          if z != y { BeforeTransitive(x, y, z); }
        }
        assert IsLeast(x, s);
      }
    }
  }

  lemma {:induction false} LeastUnique(x: PeerID, y: PeerID, s: set<PeerID>)
    requires IsLeast(x, s) && IsLeast(y, s)
    ensures x == y
  {
    BeforeTotal(x, y);
  }

  ghost function Least(s: set<PeerID>): (x: PeerID)
    requires s != {}
    ensures IsLeast(x, s)
  {
    LeastExists(s);
    var x :| IsLeast(x, s);
    x
  }

  /** Peers that advertise `h` and have not answered NoBlock for it. */
  function Eligible(s: State, h: int): set<PeerID> {
    set id | id in s.peers && s.peers[id].Contains(h) && !Marked(s.noBlocks, id, h)
  }

  /** Eligible peers that have not timed out on `h`. */
  function Prompt(s: State, h: int): set<PeerID> {
    set id | id in Eligible(s, h) && !Marked(s.timeouts, id, h)
  }

  ghost function PeerForHeight(s: State, h: int): Option<PeerID> {
    if Prompt(s, h) != {} then Some(Least(Prompt(s, h)))
    else if Eligible(s, h) != {} then Some(Least(Eligible(s, h)))
    else None
  }

  // ---------------------------------------------------------------- planning

  datatype Filled = Filled(state: State, requests: seq<Request>, stuck: Option<int>)

  /** The planning loop from `h` to `end`; `stuck` is the first height nobody can serve. */
  ghost function Fill(s: State, h: int, end: int, now: int): Filled
    decreases end - h + 1
  {
    if h > end then Filled(s, [], None)
    else if h in s.inflight || h in s.received then Fill(s, h + 1, end, now)
    else
      match PeerForHeight(s, h)
      case None => Filled(s, [], Some(h))
      case Some(id) =>
        var rest := Fill(s.(inflight := s.inflight[h := Inflight(id, now)]), h + 1, end, now);
        Filled(rest.state, [Request(id, h)] + rest.requests, rest.stuck)
  }

  datatype Planned = Planned(state: State, requests: seq<Request>, error: Option<PlanError>)

  ghost function PlanAt(s: State, next: int, limit: int, now: int): Planned {
    if next <= 0 then Planned(s, [], Some(BadHeight))
    else
      var pruned := PruneBelow(s, next);
      if limit <= 0 then Planned(pruned, [], None)
      else if limit > MAX_REQUEST_LIMIT then Planned(pruned, [], Some(LimitTooLarge))
      else if |s.peers| == 0 then Planned(pruned, [], Some(NoPeers))
      else
        var f := Fill(pruned, next, WindowEnd(s, next, limit), now);
        if f.stuck.Some? && f.requests == [] then Planned(f.state, [], Some(NoPeerForHeight(f.stuck.value)))
        else Planned(f.state, f.requests, None)
  }

  /** The last height of the window that some peer may hold. */
  ghost function WindowEnd(s: State, next: int, limit: int): int {
    Min(BestHeight(s.peers), next + limit - 1)
  }

  /** 64-bit addition, which wraps around. */
  function Int64(x: int): int { (x + MAX_INT64 + 1) % (2 * MAX_INT64 + 2) - MAX_INT64 - 1 }

  /** The end of the window in 64-bit heights: where it overflows, the best height takes its place. */
  function WindowEnd64(best: int, next: int, limit: int): int {
    var end := Int64(next + limit - 1);
    if end < next then best else end
  }

  /** With that replacement an overflow changes nothing, and without it the window would be empty. */
  lemma OverflowIsHarmless(s: State, next: int, limit: int)
    requires 0 < next <= BestHeight(s.peers) <= MAX_INT64 && 0 < limit <= MAX_REQUEST_LIMIT
    ensures Min(BestHeight(s.peers), WindowEnd64(BestHeight(s.peers), next, limit)) == WindowEnd(s, next, limit) >= next
    ensures next + limit - 1 > MAX_INT64 ==> Int64(next + limit - 1) < next
  {
    var x := next + limit - 1;
    var m := 2 * MAX_INT64 + 2;
    if x <= MAX_INT64 {
      assert (x + MAX_INT64 + 1) % m == x + MAX_INT64 + 1;
    } else {
      assert (x + MAX_INT64 + 1) % m == x + MAX_INT64 + 1 - m;
    }
  }

  /** `id` is the peer the planner must choose for `h`. */
  ghost predicate RightChoice(s: State, id: PeerID, h: int) {
    && id in Eligible(s, h)
    && (Marked(s.timeouts, id, h) ==> forall p :: p in Eligible(s, h) ==> Marked(s.timeouts, p, h))
    && (forall p :: p in Eligible(s, h) && p != id && (Marked(s.timeouts, p, h) == Marked(s.timeouts, id, h)) ==> Before(id, p))
  }

  ghost function Stop(h: int, end: int, f: Filled): int {
    if f.stuck.Some? then f.stuck.value else Max(h, end + 1)
  }

  /** Only `inflight` changed, and only by additions. */
  ghost predicate OnlyAdds(s: State, t: State) {
    && t == s.(inflight := t.inflight)
    && (forall k :: k in s.inflight ==> k in t.inflight && t.inflight[k] == s.inflight[k])
  }

  /** The request `r` was not pending before, is inflight now, and went to the right peer. */
  ghost predicate GoodRequest(s: State, t: State, r: Request, now: int) {
    && r.height !in s.inflight
    && r.height !in s.received
    && r.height in t.inflight
    && t.inflight[r.height] == Inflight(r.peer, now)
    && RightChoice(s, r.peer, r.height)
  }

  ghost predicate Ascending(rs: seq<Request>, low: int, stop: int) {
    && (forall i :: 0 <= i < |rs| ==> low <= rs[i].height < stop)
    && (forall i, j :: 0 <= i < j < |rs| ==> rs[i].height < rs[j].height)
  }

  /** Everything a planning pass from `h` to `end` promises about its outcome. */
  ghost predicate ExactFill(s: State, h: int, end: int, now: int, f: Filled) {
    && OnlyAdds(s, f.state)
    && (forall k :: k in f.state.inflight && k !in s.inflight ==> exists r :: r in f.requests && r.height == k)
    && (forall r :: r in f.requests ==> GoodRequest(s, f.state, r, now))
    && Ascending(f.requests, h, Stop(h, end, f))
    && (forall k :: h <= k < Stop(h, end, f) ==> k in f.state.inflight || k in s.received)
    && (f.stuck.Some? ==> h <= f.stuck.value <= end && Unservable(s, f.state, f.stuck.value))
  }

  /** Nobody is being asked for `h`, and every peer advertising it answered NoBlock. */
  ghost predicate Unservable(s: State, t: State, h: int) {
    && h !in t.inflight && h !in s.received
    && forall id :: id in s.peers && s.peers[id].Contains(h) ==> Marked(s.noBlocks, id, h)
  }

  lemma PeerForHeightRight(s: State, h: int)
    ensures PeerForHeight(s, h).Some? ==> RightChoice(s, PeerForHeight(s, h).value, h)
    ensures PeerForHeight(s, h).None? ==>
              forall id :: id in s.peers && s.peers[id].Contains(h) ==> Marked(s.noBlocks, id, h)
  {
    assert forall p :: p in Eligible(s, h) ==> p in Prompt(s, h) || Marked(s.timeouts, p, h);
    assert forall id :: id in s.peers && s.peers[id].Contains(h) ==> id in Eligible(s, h) || Marked(s.noBlocks, id, h);
    if Prompt(s, h) != {} {
      assert !Marked(s.timeouts, Least(Prompt(s, h)), h);
    }
  }

  lemma {:induction false} FillOnlyAdds(s: State, h: int, end: int, now: int)
    ensures OnlyAdds(s, Fill(s, h, end, now).state)
    ensures forall k :: k in Fill(s, h, end, now).state.inflight && k !in s.inflight ==>
              exists r :: r in Fill(s, h, end, now).requests && r.height == k
    decreases end - h + 1
  {
    if h <= end {
      if h in s.inflight || h in s.received {
        FillOnlyAdds(s, h + 1, end, now);
      } else if PeerForHeight(s, h).Some? {
        var first := Request(PeerForHeight(s, h).value, h);
        var s1 := s.(inflight := s.inflight[h := Inflight(first.peer, now)]);
        FillOnlyAdds(s1, h + 1, end, now);
        var f, rest := Fill(s, h, end, now), Fill(s1, h + 1, end, now);
        assert f.requests == [first] + rest.requests;
        assert first in f.requests;
        assert forall r :: r in rest.requests ==> r in f.requests;
      }
    }
  }

  lemma {:induction false} FillAscends(s: State, h: int, end: int, now: int)
    ensures Ascending(Fill(s, h, end, now).requests, h, Stop(h, end, Fill(s, h, end, now)))
    ensures Fill(s, h, end, now).stuck.Some? ==> h <= Fill(s, h, end, now).stuck.value <= end
    decreases end - h + 1
  {
    if h <= end {
      if h in s.inflight || h in s.received {
        FillAscends(s, h + 1, end, now);
      } else if PeerForHeight(s, h).Some? {
        var id := PeerForHeight(s, h).value;
        FillAscends(s.(inflight := s.inflight[h := Inflight(id, now)]), h + 1, end, now);
      }
    }
  }

  lemma {:induction false} FillRequestsGood(s: State, h: int, end: int, now: int, r: Request)
    requires r in Fill(s, h, end, now).requests
    ensures GoodRequest(s, Fill(s, h, end, now).state, r, now)
    decreases end - h + 1
  {
    if h <= end {
      if h in s.inflight || h in s.received {
        FillRequestsGood(s, h + 1, end, now, r);
      } else if PeerForHeight(s, h).Some? {
        var first := Request(PeerForHeight(s, h).value, h);
        var s1 := s.(inflight := s.inflight[h := Inflight(first.peer, now)]);
        PeerForHeightRight(s, h);
        FillOnlyAdds(s1, h + 1, end, now);
        if r != first {
          assert r in Fill(s1, h + 1, end, now).requests;
          FillRequestsGood(s1, h + 1, end, now, r);
          assert Eligible(s1, r.height) == Eligible(s, r.height);
        }
      }
    }
  }

  lemma {:induction false} FillCovers(s: State, h: int, end: int, now: int)
    ensures var f := Fill(s, h, end, now);
            forall k :: h <= k < Stop(h, end, f) ==> k in f.state.inflight || k in s.received
    ensures Fill(s, h, end, now).stuck.Some? ==>
              Unservable(s, Fill(s, h, end, now).state, Fill(s, h, end, now).stuck.value)
    decreases end - h + 1
  {
    FillOnlyAdds(s, h, end, now);
    if h <= end {
      if h in s.inflight || h in s.received {
        FillCovers(s, h + 1, end, now);
      } else {
        PeerForHeightRight(s, h);
        if PeerForHeight(s, h).Some? {
          var id := PeerForHeight(s, h).value;
          var s1 := s.(inflight := s.inflight[h := Inflight(id, now)]);
          FillCovers(s1, h + 1, end, now);
          FillOnlyAdds(s1, h + 1, end, now);
          assert h in Fill(s, h, end, now).state.inflight;
        }
      }
    }
  }

  lemma FillIsExact(s: State, h: int, end: int, now: int)
    ensures ExactFill(s, h, end, now, Fill(s, h, end, now))
  {
    FillOnlyAdds(s, h, end, now);
    FillAscends(s, h, end, now);
    FillCovers(s, h, end, now);
    forall r | r in Fill(s, h, end, now).requests
      ensures GoodRequest(s, Fill(s, h, end, now).state, r, now)
    {
      FillRequestsGood(s, h, end, now, r);
    }
  }

  lemma FillNothing(s: State, h: int, end: int, now: int)
    requires Fill(s, h, end, now).requests == []
    ensures Fill(s, h, end, now).state == s
  {
    FillOnlyAdds(s, h, end, now);
    var t := Fill(s, h, end, now).state;
    SameIntMap(t.inflight, s.inflight);
  }

  /**
   Planning is exact and complete.  On an error nothing was asked for; otherwise the
   requests are the newly inflight heights, in ascending order, each sent to the right
   peer, and every height of the window below the first unservable one is covered.
   */
  lemma PlanAtIsExact(s: State, next: int, limit: int, now: int)
    ensures var p := PlanAt(s, next, limit, now);
            p.error.Some? ==> p.requests == [] && p.state.inflight == s.inflight
    ensures var p, pruned, end := PlanAt(s, next, limit, now), PruneBelow(s, next), WindowEnd(s, next, limit);
            p.error.None? && 0 < limit ==>
              ExactFill(pruned, next, end, now, Filled(p.state, p.requests, Fill(pruned, next, end, now).stuck))
  {
    var pruned, end := PruneBelow(s, next), WindowEnd(s, next, limit);
    FillIsExact(pruned, next, end, now);
    if Fill(pruned, next, end, now).requests == [] {
      FillNothing(pruned, next, end, now);
    }
  }

  /** The first height of the window that is still to be asked for, and nobody can serve it. */
  ghost predicate Hopeless(s: State, next: int, end: int, h: int) {
    && next <= h <= end && h !in s.inflight && h !in s.received
    && (forall g :: next <= g < h ==> g in s.inflight || g in s.received)
    && (forall id :: id in s.peers && s.peers[id].Contains(h) ==> Marked(s.noBlocks, id, h))
  }

  lemma HeadIsMember(rs: seq<Request>)
    ensures rs != [] ==> rs[0] in rs
  {
  }

  lemma FillStuckIff(s: State, next: int, end: int, now: int, h: int)
    ensures var f := Fill(s, next, end, now); f.requests == [] && f.stuck == Some(h) <==> Hopeless(s, next, end, h)
  {
    FillIsExact(s, next, end, now);
    var f := Fill(s, next, end, now);
    if f.requests == [] { FillNothing(s, next, end, now); }
    if Hopeless(s, next, end, h) {
      assert f.stuck == Some(h);
      HeadIsMember(f.requests);
    }
  }

  /** When planning fails, and why. */
  lemma PlanFailsIff(s: State, next: int, limit: int, now: int, h: int)
    ensures var e := PlanAt(s, next, limit, now).error;
            && (e == Some(BadHeight) <==> next <= 0)
            && (e == Some(LimitTooLarge) <==> next > 0 && limit > MAX_REQUEST_LIMIT)
            && (e == Some(NoPeers) <==> next > 0 && 0 < limit <= MAX_REQUEST_LIMIT && |s.peers| == 0)
            && (e == Some(NoPeerForHeight(h)) <==>
                  next > 0 && 0 < limit <= MAX_REQUEST_LIMIT && |s.peers| != 0 && Hopeless(PruneBelow(s, next), next, WindowEnd(s, next, limit), h))
  {
    hide Hopeless, PruneBelow;
    FillStuckIff(PruneBelow(s, next), next, WindowEnd(s, next, limit), now, h);
  }

  // ---------------------------------------------------------------- whole runs

  datatype Op =
    | OpUpsert(id: PeerID, advertised: PeerRange)
    | OpRemove(id: PeerID)
    | OpForget(height: int)
    | OpReceived(height: int)
    | OpNoBlock(id: PeerID, height: int)
    | OpExpire(now: int, timeout: int)
    | OpPlan(next: int, limit: int, now: int)

  ghost function Apply(s: State, op: Op): State {
    match op
    case OpUpsert(id, advertised) => var r := UpsertPeer(s, id, advertised); if r.Ok? then r.value else s
    case OpRemove(id) => RemovePeer(s, id)
    case OpForget(h) => Forget(s, h)
    case OpReceived(h) => MarkReceived(s, h)
    case OpNoBlock(id, h) => MarkNoBlock(s, id, h)
    case OpExpire(now, timeout) => ExpireInflight(s, now, timeout)
    case OpPlan(next, limit, now) => PlanAt(s, next, limit, now).state
  }

  ghost function Run(ops: seq<Op>): State {
    if ops == [] then Empty() else Apply(Run(ops[..|ops| - 1]), ops[|ops| - 1])
  }

  lemma PruneKeepsInv(s: State, h: int)
    requires Inv(s)
    ensures Inv(PruneBelow(s, h))
  {
    var p := PruneBelow(s, h);
    assert forall id, k :: Marked(p.noBlocks, id, k) ==> Marked(s.noBlocks, id, k);
    assert forall id, k :: Marked(p.timeouts, id, k) ==> Marked(s.timeouts, id, k);
  }

  lemma PlanKeepsInv(s: State, next: int, limit: int, now: int)
    requires Inv(s)
    ensures Inv(PlanAt(s, next, limit, now).state)
  {
    PruneKeepsInv(s, next);
    var pruned := PruneBelow(s, next);
    if 0 < next && 0 < limit <= MAX_REQUEST_LIMIT && |s.peers| != 0 {
      var end := WindowEnd(s, next, limit);
      FillIsExact(pruned, next, end, now);
      var f := Fill(pruned, next, end, now);
      forall h | h in f.state.inflight && h !in pruned.inflight
        ensures h !in f.state.received
        ensures f.state.inflight[h].peer in Eligible(f.state, h)
      {
        var r :| r in f.requests && r.height == h;
        assert GoodRequest(pruned, f.state, r, now);
      }
    }
  }

  lemma ExpireKeepsInv(s: State, now: int, timeout: int)
    requires Inv(s)
    ensures Inv(ExpireInflight(s, now, timeout))
  {
    if timeout > 0 {
      var gone := Expired(s, now, timeout);
      var m := MarkAll(s.timeouts, s.inflight, gone);
      forall id, h | Marked(m, id, h)
        ensures id in s.peers && s.peers[id].Contains(h)
      {
        if h in gone && s.inflight[h].peer == id {
        } else {
          assert Marked(s.timeouts, id, h);
        }
      }
    }
  }

  lemma UpsertKeepsInv(s: State, id: PeerID, advertised: PeerRange)
    requires Inv(s) && UpsertPeer(s, id, advertised).Ok?
    ensures Inv(UpsertPeer(s, id, advertised).value)
  {
    var t := UpsertPeer(s, id, advertised).value;
    forall p, h | Marked(t.noBlocks, p, h) ensures p in t.peers && t.peers[p].Contains(h) {
      assert Marked(s.noBlocks, p, h);
    }
    forall p, h | Marked(t.timeouts, p, h) ensures p in t.peers && t.peers[p].Contains(h) {
      assert Marked(s.timeouts, p, h);
    }
  }

  lemma OpKeepsInv(s: State, op: Op)
    requires Inv(s)
    ensures Inv(Apply(s, op))
  {
    match op
    case OpUpsert(id, advertised) =>
      if UpsertPeer(s, id, advertised).Ok? { UpsertKeepsInv(s, id, advertised); }
    case OpRemove(id) =>
      var t := RemovePeer(s, id);
      assert forall p, h :: Marked(t.noBlocks, p, h) ==> Marked(s.noBlocks, p, h);
      assert forall p, h :: Marked(t.timeouts, p, h) ==> Marked(s.timeouts, p, h);
    case OpForget(h) =>
    case OpReceived(h) =>
    case OpNoBlock(id, h) =>
      var t := MarkNoBlock(s, id, h);
      assert forall p, k :: Marked(t.noBlocks, p, k) ==> Marked(s.noBlocks, p, k) || (t != s && p == id && k == h);
    case OpExpire(now, timeout) => ExpireKeepsInv(s, now, timeout);
    case OpPlan(next, limit, now) => PlanKeepsInv(s, next, limit, now);
  }

  /** Every state a planner can reach satisfies the invariant. */
  lemma {:induction false} RunKeepsInv(ops: seq<Op>)
    ensures Inv(Run(ops))
  {
    if ops != [] {
      RunKeepsInv(ops[..|ops| - 1]);
      OpKeepsInv(Run(ops[..|ops| - 1]), ops[|ops| - 1]);
    }
  }

  // ---------------------------------------------------------------- what each operation does, and nothing else

  /** `op` takes the pending request for `h` off the books. */
  ghost predicate Ends(s: State, op: Op, h: int)
    requires h in s.inflight
  {
    var r := s.inflight[h];
    match op
    case OpUpsert(id, advertised) => id == r.peer && id != "" && advertised.Valid() && !advertised.Contains(h)
    case OpRemove(id) => id == r.peer
    case OpForget(g) => g == h
    case OpReceived(g) => g == h
    case OpNoBlock(id, g) => g == h && id == r.peer && id != "" && h > 0
    case OpExpire(now, timeout) => timeout > 0 && now - r.requestedAt >= timeout
    case OpPlan(_, _, _) => false
  }

  /** A request stays as it is until an operation that ends it; only planning makes new ones. */
  lemma RequestEndsIff(s: State, op: Op, h: int)
    ensures h in s.inflight ==> (h in Apply(s, op).inflight <==> !Ends(s, op, h))
    ensures h in s.inflight && h in Apply(s, op).inflight ==> Apply(s, op).inflight[h] == s.inflight[h]
    ensures h !in s.inflight && h in Apply(s, op).inflight ==> op.OpPlan?
  {
    if op.OpPlan? { FillOnlyAdds(PruneBelow(s, op.next), op.next, WindowEnd(s, op.next, op.limit), op.now); }
  }

  /** A height counts as received from the moment it is marked until it is forgotten or passed. */
  lemma ReceivedIff(s: State, op: Op, h: int)
    ensures h in Apply(s, op).received <==>
              || (h in s.received && op != OpForget(h) && !(op.OpPlan? && 0 < op.next && h < op.next))
              || (op == OpReceived(h) && h > 0)
  {
    if op.OpPlan? { FillOnlyAdds(PruneBelow(s, op.next), op.next, WindowEnd(s, op.next, op.limit), op.now); }
  }

  /** `op` leaves alone what is remembered about peer `id` at height `h`. */
  ghost predicate Remembers(s: State, op: Op, id: PeerID, h: int) {
    && !(op.OpRemove? && op.id == id)
    && !(op.OpUpsert? && op.id == id && id in s.peers && s.peers[id] != op.advertised && op.advertised.Valid())
    && !(op.OpPlan? && op.next > h)
  }

  /**
   A NoBlock mark is made by the answer of the peer that was asked, a timeout mark when the
   request to that peer is overdue; both last until the peer leaves or changes its range, or
   the height is passed.
   */
  lemma MarksIff(s: State, op: Op, id: PeerID, h: int)
    requires Inv(s)
    ensures Marked(Apply(s, op).noBlocks, id, h) <==>
              || (Marked(s.noBlocks, id, h) && Remembers(s, op, id, h))
              || (op == OpNoBlock(id, h) && h in s.inflight && s.inflight[h].peer == id && id != "" && h > 0)
    ensures Marked(Apply(s, op).timeouts, id, h) <==>
              || (Marked(s.timeouts, id, h) && Remembers(s, op, id, h))
              || (op.OpExpire? && op.timeout > 0 && h in s.inflight && s.inflight[h].peer == id && op.now - s.inflight[h].requestedAt >= op.timeout)
  {
    hide Inv;
    match op
    case OpPlan(next, limit, now) => PlanMarks(s, next, limit, now, id, h);
    case OpExpire(now, timeout) => if timeout > 0 { ExpiryMarks(s, now, timeout, id, h); }
    case OpUpsert(_, _) => UpsertMarks(s, op, id, h);
    case _ =>
  }

  lemma PlanMarks(s: State, next: int, limit: int, now: int, id: PeerID, h: int)
    requires Inv(s)
    ensures var t := PlanAt(s, next, limit, now).state;
            && (Marked(t.noBlocks, id, h) <==> Marked(s.noBlocks, id, h) && h >= next)
            && (Marked(t.timeouts, id, h) <==> Marked(s.timeouts, id, h) && h >= next)
  {
    FillOnlyAdds(PruneBelow(s, next), next, WindowEnd(s, next, limit), now);
    KeptMarks(s.noBlocks, next, id, h);
    KeptMarks(s.timeouts, next, id, h);
    hide Fill, KeepFrom, WindowEnd;
  }

  lemma ExpiryMarks(s: State, now: int, timeout: int, id: PeerID, h: int)
    requires timeout > 0
    ensures var t := ExpireInflight(s, now, timeout);
            && t.noBlocks == s.noBlocks
            && (Marked(t.timeouts, id, h) <==>
                  Marked(s.timeouts, id, h) || (h in s.inflight && s.inflight[h].peer == id && now - s.inflight[h].requestedAt >= timeout))
  {
    var gone := Expired(s, now, timeout);
    assert h in gone <==> h in s.inflight && now - s.inflight[h].requestedAt >= timeout;
  }

  lemma UpsertMarks(s: State, op: Op, id: PeerID, h: int)
    requires Inv(s) && op.OpUpsert?
    ensures var t := Apply(s, op);
            && (Marked(t.noBlocks, id, h) <==> Marked(s.noBlocks, id, h) && Remembers(s, op, id, h))
            && (Marked(t.timeouts, id, h) <==> Marked(s.timeouts, id, h) && Remembers(s, op, id, h))
  {
  }

  lemma KeptMarks(m: Marks, low: int, id: PeerID, h: int)
    ensures Marked(KeepFrom(m, low), id, h) <==> Marked(m, id, h) && h >= low
  {
  }

  /**
   Once a peer has answered NoBlock for a height it was asked for, it is not asked for
   that height again until it leaves, changes its range, or the height is passed.
   */
  lemma {:induction false} NoBlockIsRemembered(ops: seq<Op>, i: nat, j: nat, id: PeerID, h: int)
    requires i < j <= |ops| && ops[i] == OpNoBlock(id, h)
    requires h in Run(ops[..i]).inflight && Run(ops[..i]).inflight[h].peer == id
    requires forall k :: i < k < j ==> Remembers(Run(ops[..k]), ops[k], id, h)
    ensures Marked(Run(ops[..j]).noBlocks, id, h)
    ensures h in Run(ops[..j]).inflight ==> Run(ops[..j]).inflight[h].peer != id
    decreases j
  {
    hide Apply;
    RunKeepsInv(ops[..i]);
    RunKeepsInv(ops[..j - 1]);
    RunKeepsInv(ops[..j]);
    assert ops[..j][..j - 1] == ops[..j - 1];
    if j > i + 1 { NoBlockIsRemembered(ops, i, j - 1, id, h); }
    MarksIff(Run(ops[..j - 1]), ops[j - 1], id, h);
  }

  lemma ExpiryMarksTheLatePeer(s: State, now: int, timeout: int, h: int, id: PeerID)
    requires timeout > 0 && h in Expired(s, now, timeout)
    ensures var e := ExpireInflight(s, now, timeout);
            && h !in e.inflight
            && (Marked(e.timeouts, id, h) <==> Marked(s.timeouts, id, h) || id == s.inflight[h].peer)
  {
  }

  /** Nothing stops planning before it comes to `h`. */
  ghost predicate Reachable(s: State, next: int, h: int) {
    forall g :: next <= g < h ==> g in s.inflight || g in s.received || Eligible(s, g) != {}
  }

  lemma PruneKeepsMarks(s: State, next: int, h: int)
    requires h >= next
    ensures var p := PruneBelow(s, next);
            && (forall id :: Marked(p.timeouts, id, h) <==> Marked(s.timeouts, id, h))
            && (forall id :: Marked(p.noBlocks, id, h) <==> Marked(s.noBlocks, id, h))
            && Eligible(p, h) == Eligible(s, h) && Prompt(p, h) == Prompt(s, h) && (h in p.received <==> h in s.received)
  {
  }

  lemma NotStuckBefore(s: State, next: int, end: int, now: int, h: int)
    requires Reachable(s, next, h) && Eligible(s, h) != {} && next <= h <= end
    ensures h < Stop(next, end, Fill(s, next, end, now))
  {
    FillOnlyAdds(s, next, end, now);
    FillCovers(s, next, end, now);
    FillAscends(s, next, end, now);
  }

  /** A window height that planning comes to, and that some prompt peer has, goes to a prompt peer. */
  lemma GoesToPromptPeer(s: State, next: int, h: int, limit: int, now: int, other: PeerID)
    requires 0 < next <= h < next + limit && h !in s.inflight && h !in s.received && 0 < limit <= MAX_REQUEST_LIMIT
    requires other in Prompt(s, h) && Reachable(s, next, h)
    ensures var t := PlanAt(s, next, limit, now).state;
            h in t.inflight && !Marked(s.timeouts, t.inflight[h].peer, h) && t.inflight[h].requestedAt == now
  {
    var pruned, end := PruneBelow(s, next), WindowEnd(s, next, limit);
    forall g | next <= g <= h ensures Eligible(pruned, g) == Eligible(s, g) && (g in pruned.received <==> g in s.received) { PruneKeepsMarks(s, next, g); }
    PruneKeepsMarks(s, next, h);
    assert Reachable(pruned, next, h);
    assert other in Eligible(pruned, h);
    NotStuckBefore(pruned, next, end, now, h);
    FillOnlyAdds(pruned, next, end, now);
    FillCovers(pruned, next, end, now);
    var f := Fill(pruned, next, end, now);
    var r :| r in f.requests && r.height == h;
    FillRequestsGood(pruned, next, end, now, r);
    assert |s.peers| != 0;
  }

  /**
   A request that timed out is retried elsewhere, at whatever height of the window, whenever
   some other prompt peer has the height and planning comes to it.
   */
  lemma TimeoutIsRetriedElsewhere(s: State, now: int, timeout: int, next: int, h: int, limit: int, other: PeerID)
    requires Inv(s) && timeout > 0 && h in Expired(s, now, timeout) && 0 < limit <= MAX_REQUEST_LIMIT && 0 < next <= h < next + limit
    requires other in Prompt(s, h) && other != s.inflight[h].peer && Reachable(s, next, h)
    ensures var t := PlanAt(ExpireInflight(s, now, timeout), next, limit, now).state;
            h in t.inflight && t.inflight[h].peer != s.inflight[h].peer && t.inflight[h].requestedAt == now
  {
    var e := ExpireInflight(s, now, timeout);
    ExpiryMarksTheLatePeer(s, now, timeout, h, other);
    ExpiryMarksTheLatePeer(s, now, timeout, h, s.inflight[h].peer);
    forall g | next <= g < h ensures g in e.inflight || g in e.received || Eligible(e, g) != {} {
      assert Eligible(e, g) == Eligible(s, g);
      if g in s.inflight && g !in e.inflight { assert s.inflight[g].peer in Eligible(s, g); }
    }
    GoesToPromptPeer(e, next, h, limit, now, other);
  }

  // ---------------------------------------------------------------- the object

  class RequestPlanner {
    var peers: map<PeerID, PeerRange>
    var inflight: map<int, Inflight>
    var received: set<int>
    var noBlocks: Marks
    var timeouts: Marks

    ghost function View(): State
      reads this
    {
      State(peers, inflight, received, noBlocks, timeouts)
    }

    constructor ()
      ensures View() == Empty()
    {
      peers, inflight, received, noBlocks, timeouts := map[], map[], {}, map[], map[];
    }

    method Upsert(id: PeerID, advertised: PeerRange) returns (error: Option<PlanError>)
      modifies this
      ensures error.None? ==> UpsertPeer(old(View()), id, advertised) == Ok(View())
      ensures error.Some? ==> UpsertPeer(old(View()), id, advertised) == Err(error.value) && View() == old(View())
    {
      if id == "" { return Some(MissingPeerID); }
      if !advertised.Valid() { return Some(InvalidRange); }
      if id in peers && peers[id] != advertised {
        noBlocks, timeouts := noBlocks - {id}, timeouts - {id};
      }
      peers := peers[id := advertised];
      var before, todo := inflight, inflight.Keys;
      while todo != {}
        invariant todo <= before.Keys
        invariant inflight == map h | h in before && (h in todo || before[h].peer != id || advertised.Contains(h)) :: before[h]
        invariant peers == old(peers)[id := advertised] && received == old(received)
        invariant var changed := id in old(peers) && old(peers)[id] != advertised;
                  && noBlocks == (if changed then old(noBlocks) - {id} else old(noBlocks))
                  && timeouts == (if changed then old(timeouts) - {id} else old(timeouts))
        decreases todo
      {
        SomeInt(todo);
        var h :| h in todo;
        if inflight[h].peer == id && !advertised.Contains(h) { inflight := inflight - {h}; }
        todo := todo - {h};
      }
      assert inflight == UpsertPeer(old(View()), id, advertised).value.inflight;
      return None;
    }

    method Remove(id: PeerID)
      modifies this
      ensures View() == RemovePeer(old(View()), id)
    {
      peers, noBlocks, timeouts := peers - {id}, noBlocks - {id}, timeouts - {id};
      var before, todo := inflight, inflight.Keys;
      while todo != {}
        invariant todo <= before.Keys
        invariant inflight == map h | h in before && (h in todo || before[h].peer != id) :: before[h]
        invariant peers == old(peers) - {id} && received == old(received)
        invariant noBlocks == old(noBlocks) - {id} && timeouts == old(timeouts) - {id}
        decreases todo
      {
        SomeInt(todo);
        var h :| h in todo;
        if inflight[h].peer == id { inflight := inflight - {h}; }
        todo := todo - {h};
      }
    }

    method Done(h: int)
      modifies `inflight, `received
      ensures View() == Forget(old(View()), h)
    {
      inflight, received := inflight - {h}, received - {h};
    }

    method Received(h: int)
      modifies `inflight, `received
      ensures View() == MarkReceived(old(View()), h)
    {
      inflight := inflight - {h};
      if h > 0 { received := received + {h}; }
    }

    method NoBlock(id: PeerID, h: int)
      modifies `inflight, `noBlocks
      ensures View() == MarkNoBlock(old(View()), id, h)
    {
      if id == "" || h <= 0 || h !in inflight || inflight[h].peer != id { return; }
      inflight := inflight - {h};
      if id !in noBlocks { noBlocks := noBlocks[id := {}]; }
      noBlocks := noBlocks[id := noBlocks[id] + {h}];
    }

    method Expire(now: int, timeout: int) returns (expired: nat)
      modifies `inflight, `timeouts
      ensures View() == ExpireInflight(old(View()), now, timeout)
      ensures expired == if timeout <= 0 then 0 else |Expired(old(View()), now, timeout)|
    {
      expired := 0;
      if timeout <= 0 { return; }
      ghost var gone;
      inflight, timeouts, expired, gone := ExpireAll(inflight, timeouts, now, timeout);
      SameInts(gone, Expired(old(View()), now, timeout));
    }

    method Best() returns (best: int)
      ensures best == BestHeight(peers)
    {
      best := 0;
      var todo := peers.Keys;
      while todo != {}
        invariant todo <= peers.Keys
        invariant best >= 0
        invariant forall id :: id in peers && id !in todo ==> peers[id].height <= best
        invariant best == 0 || exists id :: id in peers && peers[id].height == best
        decreases todo
      {
        var id :| id in todo;
        if peers[id].height > best { best := peers[id].height; }
        todo := todo - {id};
      }
    }

    /** The two scans over the sorted IDs find what `PeerForHeight` describes. */
    method ChoosePeer(h: int, ids: seq<PeerID>) returns (r: Option<PeerID>)
      requires forall id :: id in ids <==> id in peers
      requires forall i, j :: 0 <= i < j < |ids| ==> Before(ids[i], ids[j])
      ensures r == PeerForHeight(View(), h)
    {
      ghost var s := View();
      var i := 0;
      while i < |ids|
        invariant 0 <= i <= |ids|
        invariant forall k :: 0 <= k < i ==> ids[k] !in Prompt(s, h)
      {
        if peers[ids[i]].Contains(h) && !Marked(noBlocks, ids[i], h) && !Marked(timeouts, ids[i], h) {
          FirstIsLeast(ids, i, Prompt(s, h));
          LeastUnique(ids[i], Least(Prompt(s, h)), Prompt(s, h));
          return Some(ids[i]);
        }
        i := i + 1;
      }
      assert forall id :: id in Prompt(s, h) ==> id in ids;
      assert Prompt(s, h) == {};
      i := 0;
      while i < |ids|
        invariant 0 <= i <= |ids|
        invariant forall k :: 0 <= k < i ==> ids[k] !in Eligible(s, h)
      {
        if peers[ids[i]].Contains(h) && !Marked(noBlocks, ids[i], h) {
          FirstIsLeast(ids, i, Eligible(s, h));
          LeastUnique(ids[i], Least(Eligible(s, h)), Eligible(s, h));
          return Some(ids[i]);
        }
        i := i + 1;
      }
      assert forall id :: id in Eligible(s, h) ==> id in ids;
      assert Eligible(s, h) == {};
      return None;
    }

    method PruneMarkersBelow(h: int)
      modifies `received, `noBlocks, `timeouts
      ensures View() == PruneBelow(old(View()), h)
    {
      received := set k | k in received && k >= h;
      noBlocks := PruneMarks(noBlocks, h);
      timeouts := PruneMarks(timeouts, h);
    }

    method Plan(next: int, limit: int, now: int) returns (requests: seq<Request>, error: Option<PlanError>)
      modifies `inflight, `received, `noBlocks, `timeouts
      ensures Planned(View(), requests, error) == PlanAt(old(View()), next, limit, now)
    {
      hide PruneBelow, PeerForHeight;
      requests, error := [], None;
      if next <= 0 { return [], Some(BadHeight); }
      PruneMarkersBelow(next);
      if limit <= 0 { return; }
      if limit > MAX_REQUEST_LIMIT { return [], Some(LimitTooLarge); }
      if |peers| == 0 { return [], Some(NoPeers); }
      var best := Best();
      ghost var start := View();
      ghost var end := WindowEnd(start, next, limit);
      if best < next {
        assert Fill(start, next, end, now) == Filled(start, [], None);
        return;
      }
      var ids := SortIDs(peers.Keys);
      var windowEnd := next + limit - 1;
      var h := next;
      while h <= best && h <= windowEnd && |requests| < limit
        invariant next <= h <= end + 1
        invariant |requests| <= h - next
        invariant peers == start.peers && received == start.received
        invariant noBlocks == start.noBlocks && timeouts == start.timeouts
        invariant var rest := Fill(View(), h, end, now);
                  Fill(start, next, end, now) == Filled(rest.state, requests + rest.requests, rest.stuck)
      {
        if h in inflight || h in received {
        } else {
          var chosen := ChoosePeer(h, ids);
          if chosen.None? {
            if |requests| == 0 { return [], Some(NoPeerForHeight(h)); }
            return;
          }
          FillOne(View(), h, end, now, requests);
          inflight := inflight[h := Inflight(chosen.value, now)];
          requests := requests + [Request(chosen.value, h)];
        }
        h := h + 1;
      }
      assert h == end + 1;
      assert requests + [] == requests;
    }
  }

  lemma FillOne(s: State, h: int, end: int, now: int, requests: seq<Request>)
    requires h <= end && h !in s.inflight && h !in s.received && PeerForHeight(s, h).Some?
    ensures var id := PeerForHeight(s, h).value;
            var f, rest := Fill(s, h, end, now), Fill(s.(inflight := s.inflight[h := Inflight(id, now)]), h + 1, end, now);
            && f.state == rest.state && f.stuck == rest.stuck
            && requests + f.requests == (requests + [Request(id, h)]) + rest.requests
  {
  }

  lemma FirstIsLeast(ids: seq<PeerID>, i: nat, s: set<PeerID>)
    requires forall i, j :: 0 <= i < j < |ids| ==> Before(ids[i], ids[j])
    requires i < |ids| && ids[i] in s
    requires forall id :: id in s ==> id in ids
    requires forall k :: 0 <= k < i ==> ids[k] !in s
    ensures IsLeast(ids[i], s)
  {
    forall y | y in s && y != ids[i] ensures Before(ids[i], y) {
      var k :| 0 <= k < |ids| && ids[k] == y;
    }
  }

  /** The loop of `ExpireInflight`: every overdue request leaves and marks its peer. */
  method ExpireAll(before: map<int, Inflight>, m: Marks, now: int, timeout: int)
    returns (left: map<int, Inflight>, marks: Marks, expired: nat, ghost gone: set<int>)
    ensures gone <= before.Keys && forall h :: h in gone <==> h in before && now - before[h].requestedAt >= timeout
    ensures left == before - gone && marks == MarkAll(m, before, gone) && expired == |gone|
  {
    left, marks, expired, gone := before, m, 0, {};
    var todo := before.Keys;
    while todo != {}
      invariant todo <= before.Keys && gone <= before.Keys
      invariant forall h :: h in gone <==> h in before && h !in todo && now - before[h].requestedAt >= timeout
      invariant left == before - gone
      invariant MarksAll(marks, m, before, gone)
      invariant expired == |gone|
      decreases todo
    {
      SomeInt(todo);
      var h :| h in todo;
      if now - left[h].requestedAt >= timeout {
        MarkOneMore(marks, m, before, gone, h);
        marks := AddMark(marks, left[h].peer, h);
        left := left - {h};
        gone := gone + {h};
        expired := expired + 1;
      }
      todo := todo - {h};
    }
    MarksAllIsMarkAll(marks, m, before, gone);
  }

  /** `MarkAll`, said pointwise. */
  ghost predicate MarksAll(marks: Marks, m: Marks, inflight: map<int, Inflight>, heights: set<int>)
    requires heights <= inflight.Keys
  {
    && (forall id :: id in marks <==> id in m || exists h :: h in heights && inflight[h].peer == id)
    && (forall id, h :: id in marks ==> (h in marks[id] <==> Marked(m, id, h) || (h in heights && inflight[h].peer == id)))
  }

  lemma MarkOneMore(marks: Marks, m: Marks, inflight: map<int, Inflight>, heights: set<int>, h: int)
    requires heights <= inflight.Keys && h in inflight && MarksAll(marks, m, inflight, heights)
    ensures MarksAll(AddMark(marks, inflight[h].peer, h), m, inflight, heights + {h})
  {
    var more := heights + {h};
    assert forall k :: k in more <==> k in heights || k == h;
    assert h in more;
    forall id | id in m || exists k :: k in heights && inflight[k].peer == id
      ensures id in m || exists k :: k in more && inflight[k].peer == id
    {
      if id !in m {
        var k :| k in heights && inflight[k].peer == id;
        assert k in more;
      }
    }
  }

  lemma MarksAllIsMarkAll(marks: Marks, m: Marks, inflight: map<int, Inflight>, heights: set<int>)
    requires heights <= inflight.Keys && MarksAll(marks, m, inflight, heights)
    ensures marks == MarkAll(m, inflight, heights)
  {
    var all := MarkAll(m, inflight, heights);
    assert marks.Keys == all.Keys;
    forall id | id in marks ensures marks[id] == all[id] {
      SameInts(marks[id], all[id]);
    }
  }

  method PruneMarks(m: Marks, h: int) returns (r: Marks)
    ensures r == KeepFrom(m, h)
  {
    r := m;
    var todo := m.Keys;
    while todo != {}
      invariant todo <= m.Keys
      invariant r.Keys <= m.Keys
      invariant forall id :: id in todo ==> id in r && r[id] == m[id]
      invariant forall id :: id in m && id !in todo ==>
                  && (id in r <==> exists k :: k in m[id] && k >= h)
                  && (id in r ==> r[id] == set k | k in m[id] && k >= h)
      decreases todo
    {
      var id :| id in todo;
      var kept := set k | k in r[id] && k >= h;
      if kept == {} {
        assert forall k :: k in m[id] ==> k in kept || k < h;
        r := r - {id};
      } else {
        SomeInt(kept);
        r := r[id := kept];
      }
      todo := todo - {id};
    }
  }

  /** Stands for `slices.Sort` on the peer IDs. */
  method SortIDs(s: set<PeerID>) returns (ids: seq<PeerID>)
    ensures forall id :: id in ids <==> id in s
    ensures forall i, j :: 0 <= i < j < |ids| ==> Before(ids[i], ids[j])
  {
    ids := [];
    var todo := s;
    while todo != {}
      invariant todo <= s
      invariant forall id :: id in s <==> id in todo || id in ids
      invariant forall i, j :: 0 <= i < j < |ids| ==> Before(ids[i], ids[j])
      invariant forall i, id :: 0 <= i < |ids| && id in todo ==> Before(ids[i], id)
      decreases todo
    {
      LeastExists(todo);
      var x :| x in todo && forall y :: y in todo && y != x ==> Before(x, y);
      ids := ids + [x];
      todo := todo - {x};
    }
  }
}
