/**
 What checkpoint mode promises over whole runs: blocks at or below the verified height
 are pinned by a trusted hash, and a restart recovers exactly what it may trust.
 */
module Checkpoints {
  import opened Common
  import opened Chain
  import opened Ingest

  datatype Event = Arrive(block: Option<Block>) | Pruned(to: int) | Restart

  /** A rejected block changes nothing; a restart drops the pending block and recovers. */
  ghost predicate Step(c: Crypto, o: Options, s: State, e: Event, t: State) {
    match e
    case Arrive(b) => t == (var r := Submit(c, o, s, b); if r.Ok? then r.value else s)
    case Pruned(to) => s.store.blocks != [] && s.store.base <= to <= s.store.Height() && t == s.(store := s.store.Prune(to))
    case Restart => Recovers(c, o, s.store, Some(t.verified)) && t == State(s.store, None, t.verified)
  }

  ghost predicate Run(c: Crypto, o: Options, ss: seq<State>, es: seq<Event>) {
    && |ss| == |es| + 1
    && forall i :: 0 <= i < |es| ==> Step(c, o, ss[i], es[i], ss[i + 1])
  }

  lemma PruneKeepsSound(c: Crypto, o: Options, s: State, to: int)
    requires Sound(c, o, s) && s.store.blocks != [] && s.store.base <= to <= s.store.Height()
    ensures Sound(c, o, s.(store := s.store.Prune(to)))
  {
    var t := s.(store := s.store.Prune(to));
    var k := to - s.store.base;
    assert Held(t) == Held(s)[k..];
    LinkedSlice(c, Held(s), k, |Held(s)|);
    assert forall i :: 0 <= i < |Held(t)| ==> Held(t)[i] == Held(s)[k + i];
  }

  /** What the stored part of a sound state says to recovery. */
  lemma StoreOfSound(c: Crypto, o: Options, s: State, top: int)
    requires Sound(c, o, s) && o.mode.Checkpoint? && (top == 0 || Retained(o, s.store, top))
    ensures RecoversAt(c, o, s.store, top, Some(top))
    ensures top <= s.verified
  {
    var held, bs := Held(s), s.store.blocks;
    assert forall i :: 0 <= i < |bs| ==> held[i] == bs[i];
    if top != 0 {
      var n := top - s.store.base;
      assert held[n].header.height == top;
      assert forall i, j :: 0 <= i < j <= n && j == i + 1 ==> Linked(c, held[i], held[j]);
    }
  }

  lemma TopExists(o: Options, st: Store) returns (top: int)
    requires GoodOptions(o) && st.Valid()
    ensures IsTopCheckpoint(o, st, top)
  {
    top := TopOf(o, st, o.checkpoints.Keys);
  }

  lemma {:induction false} TopOf(o: Options, st: Store, among: set<int>) returns (top: int)
    requires GoodOptions(o) && st.Valid() && among <= o.checkpoints.Keys
    ensures top == 0 || Retained(o, st, top)
    ensures top >= 0 && forall h :: h in among && Retained(o, st, h) ==> h <= top
    decreases among
  {
    if among == {} {
      top := 0;
    } else {
      var h := Member(among);
      top := TopOf(o, st, among - {h});
      if Retained(o, st, h) && h > top { top := h; }
    }
  }

  /**
   Restarting from a sound state never fails.  It resumes at the height of the lost
   pending block, never trusts more than before, and trusts exactly as much as before
   if and only if the checkpoint it relied on is still in the store.
   */
  lemma RestartIsExact(c: Crypto, o: Options, s: State)
    requires Sound(c, o, s) && GoodOptions(o)
    ensures !Recovers(c, o, s.store, None)
    ensures exists v :: Recovers(c, o, s.store, Some(v))
    ensures forall v :: Recovers(c, o, s.store, Some(v)) ==>
              && 0 <= v <= s.verified
              && (v == s.verified <==> s.verified == 0 || (s.store.blocks != [] && s.store.Has(s.verified)))
              && NextHeight(o, State(s.store, None, v)) ==
                   (if s.pending.Some? then s.pending.value.header.height else NextHeight(o, s))
              && Sound(c, o, State(s.store, None, v))
  {
    if o.mode.Checkpoint? {
      var top := TopExists(o, s.store);
      StoreOfSound(c, o, s, top);
      assert Recovers(c, o, s.store, Some(top));
      forall other | IsTopCheckpoint(o, s.store, other) ensures other == top && !RecoversAt(c, o, s.store, other, None) {
        StoreOfSound(c, o, s, other);
      }
    } else {
      assert Recovers(c, o, s.store, Some(0));
    }
    forall v | Recovers(c, o, s.store, Some(v)) ensures RestartAt(c, o, s, v) {
      RestartOutcome(c, o, s, v);
    }
  }

  ghost predicate RestartAt(c: Crypto, o: Options, s: State, v: int) {
    && 0 <= v <= s.verified
    && (v == s.verified <==> s.verified == 0 || (s.store.blocks != [] && s.store.Has(s.verified)))
    && NextHeight(o, State(s.store, None, v)) ==
         (if s.pending.Some? then s.pending.value.header.height else NextHeight(o, s))
    && Sound(c, o, State(s.store, None, v))
  }

  lemma RestartKeepsChain(c: Crypto, o: Options, s: State, v: int)
    requires Sound(c, o, s)
    ensures var t := State(s.store, None, v);
            && Held(t) == s.store.blocks
            && Shaped(o, t) && LinkedChain(c, Held(t)) && AllHashed(c, Held(t))
            && OnChain(o, Held(t)) && MatchesCheckpoints(c, o, Held(t))
  {
    var t, held := State(s.store, None, v), Held(s);
    assert Held(t) == s.store.blocks == held[..|s.store.blocks|];
    LinkedSlice(c, held, 0, |s.store.blocks|);
  }

  /** Recovery finds the top retained checkpoint. */
  lemma RestartVerified(c: Crypto, o: Options, s: State, v: int)
    requires Sound(c, o, s) && GoodOptions(o) && Recovers(c, o, s.store, Some(v))
    ensures 0 <= v <= s.verified
    ensures o.mode.Checkpoint? ==> IsTopCheckpoint(o, s.store, v)
    ensures !o.mode.Checkpoint? ==> v == 0
  {
    if o.mode.Checkpoint? {
      var top :| IsTopCheckpoint(o, s.store, top) && RecoversAt(c, o, s.store, top, Some(v));
      StoreOfSound(c, o, s, top);
    }
  }

  lemma TopOfStore(o: Options, st: Store, v: int)
    requires st.Valid() && o.mode.Checkpoint? && v >= 0 && IsTopCheckpoint(o, st, v)
    ensures VerifiedIsTop(o, State(st, None, v))
  {
    assert Held(State(st, None, v)) == st.blocks;
    assert forall i :: 0 <= i < |st.blocks| && st.blocks[i].header.height in o.checkpoints ==> Retained(o, st, st.blocks[i].header.height);
  }

  lemma RestartOutcome(c: Crypto, o: Options, s: State, v: int)
    requires Sound(c, o, s) && GoodOptions(o) && Recovers(c, o, s.store, Some(v))
    ensures RestartAt(c, o, s, v)
  {
    RestartKeepsChain(c, o, s, v);
    RestartVerified(c, o, s, v);
    if o.mode.Checkpoint? { TopOfStore(o, s.store, v); }
    if o.mode.Checkpoint? && s.verified > 0 && s.store.blocks != [] && s.store.Has(s.verified) {
      assert Retained(o, s.store, s.verified);
    }
    if s.pending.Some? && s.store.blocks != [] {
      assert Held(s)[|Held(s)| - 1] == s.pending.value;
    }
  }

  lemma StepKeepsSound(c: Crypto, o: Options, s: State, e: Event, t: State)
    requires GoodOptions(o) && Sound(c, o, s) && Step(c, o, s, e, t)
    ensures Sound(c, o, t)
  {
    match e
    case Arrive(b) =>
      if Submit(c, o, s, b).Ok? { SubmitKeepsSound(c, o, s, b.value); }
    case Pruned(to) => PruneKeepsSound(c, o, s, to);
    case Restart => RestartOutcome(c, o, s, t.verified);
  }

  lemma {:induction false} RunKeepsSound(c: Crypto, o: Options, ss: seq<State>, es: seq<Event>, k: nat)
    requires GoodOptions(o) && Run(c, o, ss, es) && Sound(c, o, ss[0]) && k < |ss|
    ensures Sound(c, o, ss[k])
  {
    if k > 0 {
      RunKeepsSound(c, o, ss, es, k - 1);
      assert Step(c, o, ss[k - 1], es[k - 1], ss[k]);
      StepKeepsSound(c, o, ss[k - 1], es[k - 1], ss[k]);
    }
  }

  // ---------------------------------------------------------------- authenticity

  /** A chain of linked blocks from `b` up to a block whose hash is the checkpoint at `top`. */
  ghost predicate AnchorPath(c: Crypto, o: Options, path: seq<Block>, b: Block, top: int) {
    && path != [] && path[0] == b
    && LinkedChain(c, path) && AllHashed(c, path)
    && path[|path| - 1].header.height == top
    && top in o.checkpoints && Hash(c, path[|path| - 1]) == o.checkpoints[top]
  }

  /** Every block at a checkpoint height has the trusted hash. */
  ghost predicate MatchesAll(c: Crypto, o: Options, path: seq<Block>) {
    forall b :: b in path && b.header.height in o.checkpoints ==> Hash(c, b) == o.checkpoints[b.header.height]
  }

  ghost predicate Anchored(c: Crypto, o: Options, b: Block) {
    exists path, top :: AnchorPath(c, o, path, b, top) && MatchesAll(c, o, path)
  }

  /** The part of the held chain from index `i` up to height `top`. */
  ghost function PathTo(s: State, i: nat, top: int): seq<Block>
    requires i < |Held(s)| && Held(s)[i].header.height <= top < Held(s)[0].header.height + |Held(s)|
    requires Consecutive(Held(s))
  {
    Held(s)[i..top - Held(s)[0].header.height + 1]
  }

  /** Every held block at or below a verified checkpoint is hash-linked to it. */
  lemma HeldIsAnchored(c: Crypto, o: Options, s: State, i: nat, top: int)
    requires Sound(c, o, s) && o.mode.Checkpoint? && i < |Held(s)|
    requires top in o.checkpoints && Held(s)[i].header.height <= top <= s.verified
    ensures AnchorPath(c, o, PathTo(s, i, top), Held(s)[i], top) && MatchesAll(c, o, PathTo(s, i, top))
    ensures Anchored(c, o, Held(s)[i])
  {
    hide LinkedChain, AllHashed, MatchesAll, Linked;
    var held := Held(s);
    var n := top - held[0].header.height;
    MatchesPath(c, o, held, i, n);
    LinksPath(c, o, held, i, n);
    assert AnchorPath(c, o, PathTo(s, i, top), held[i], top) by { PathIsAnchor(c, o, held, i, n); }
  }

  lemma MatchesPath(c: Crypto, o: Options, held: seq<Block>, i: nat, n: nat)
    requires o.mode.Checkpoint? && MatchesCheckpoints(c, o, held) && i <= n < |held|
    ensures MatchesAll(c, o, held[i..n + 1])
  {
    var path := held[i..n + 1];
    forall b | b in path && b.header.height in o.checkpoints ensures Hash(c, b) == o.checkpoints[b.header.height] {
      var k :| 0 <= k < |path| && path[k] == b;
      assert held[i + k] == b;
    }
  }

  lemma LinksPath(c: Crypto, o: Options, held: seq<Block>, i: nat, n: nat)
    requires LinkedChain(c, held) && i <= n < |held|
    ensures Consecutive(held) && forall a, b :: i <= a < b <= n && b == a + 1 ==> Linked(c, held[a], held[b])
  {
  }

  /** Blocks of one height with anchors to the same checkpoint have the same header. */
  lemma AnchorsAgree(c: Crypto, o: Options, p: seq<Block>, q: seq<Block>, a: Block, b: Block, top: int, all: seq<Block>)
    requires AnchorPath(c, o, p, a, top) && AnchorPath(c, o, q, b, top) && a.header.height == b.header.height
    requires forall x :: x in p || x in q ==> x in all
    requires AllHashed(c, all) && NoCollision(c, all)
    ensures a.header == b.header
  {
    assert |p| == |q|;
    ChainsAgreeDownward(c, p, q, 0, all);
  }

  /** An anchor passes through every checkpoint below it. */
  lemma AnchorStops(c: Crypto, o: Options, path: seq<Block>, b: Block, top: int, stop: int)
    requires AnchorPath(c, o, path, b, top) && MatchesAll(c, o, path) && b.header.height <= stop <= top && stop in o.checkpoints
    ensures AnchorPath(c, o, path[..stop - b.header.height + 1], b, stop)
  {
    var n := stop - b.header.height + 1;
    LinkedSlice(c, path, 0, n);
    assert path[..n] == path[0..n];
    assert forall x :: x in path[..n] ==> x in path;
    hide LinkedChain;
    assert path[..n][n - 1] == path[n - 1];
  }

  /**
   Anchored blocks of one height, whichever checkpoints they are anchored to, have one common
   checkpoint above them, and one header unless the header hash collides on the way there.
   */
  lemma AnchoredAgree(c: Crypto, o: Options, a: Block, b: Block) returns (x: seq<Block>, y: seq<Block>, top: int)
    requires Anchored(c, o, a) && Anchored(c, o, b) && a.header.height == b.header.height
    ensures AnchorPath(c, o, x, a, top) && AnchorPath(c, o, y, b, top)
    ensures NoCollision(c, x + y) ==> a.header == b.header
  {
    var p, s :| AnchorPath(c, o, p, a, s) && MatchesAll(c, o, p);
    var q, t :| AnchorPath(c, o, q, b, t) && MatchesAll(c, o, q);
    top := Min(s, t);
    AnchorReaches(c, o, p, a, s);
    AnchorReaches(c, o, q, b, t);
    AnchorStops(c, o, p, a, s, top);
    AnchorStops(c, o, q, b, t, top);
    x, y := p[..top - a.header.height + 1], q[..top - b.header.height + 1];
    BothHashed(c, x, y);
    if NoCollision(c, x + y) { AnchorsAgree(c, o, x, y, a, b, top, x + y); }
  }

  lemma AnchorReaches(c: Crypto, o: Options, path: seq<Block>, b: Block, top: int)
    requires AnchorPath(c, o, path, b, top)
    ensures b.header.height <= top && |path| == top - b.header.height + 1
  {
  }

  lemma AnchorOf(c: Crypto, o: Options, s: State, i: nat, top: int) returns (path: seq<Block>)
    requires Sound(c, o, s) && o.mode.Checkpoint? && i < |Held(s)|
    requires Held(s)[i].header.height <= top <= s.verified && (top == s.verified || top in o.checkpoints)
    ensures AnchorPath(c, o, path, Held(s)[i], top)
    ensures forall b :: b in path ==> b in Held(s)
  {
    assert Held(s)[i].header.height > 0;
    HeldIsAnchored(c, o, s, i, top);
    path := PathTo(s, i, top);
  }

  lemma BothHashed(c: Crypto, p: seq<Block>, q: seq<Block>)
    requires AllHashed(c, p) && AllHashed(c, q)
    ensures AllHashed(c, p + q)
    ensures forall x :: x in p || x in q ==> x in p + q
  {
  }

  /** Both trust the same checkpoints; start heights and windows may differ. */
  ghost predicate SameTrust(o: Options, p: Options) { o.mode.Checkpoint? && p.mode.Checkpoint? && p.checkpoints == o.checkpoints }

  /**
   Two nodes that trust the same checkpoints hold the same header at every height both
   have verified, unless the header hash collides on one of the blocks they hold.
   */
  lemma CheckpointsFixHeaders(c: Crypto, o: Options, s: State, p: Options, t: State, i: nat, j: nat)
    requires Sound(c, o, s) && Sound(c, p, t) && SameTrust(o, p)
    requires i < |Held(s)| && j < |Held(t)| && Held(s)[i].header.height == Held(t)[j].header.height
    requires Held(s)[i].header.height <= Min(s.verified, t.verified)
    requires NoCollision(c, Held(s) + Held(t))
    ensures Held(s)[i].header == Held(t)[j].header
  {
    var top := Min(s.verified, t.verified);
    assert top in o.checkpoints by { assert Held(s)[i].header.height > 0; }
    var x := AnchorOf(c, o, s, i, top);
    var y := AnchorOf(c, p, t, j, top);
    assert AnchorPath(c, o, y, Held(t)[j], top);
    BothHashed(c, Held(s), Held(t));
    AnchorsAgree(c, o, x, y, Held(s)[i], Held(t)[j], top, Held(s) + Held(t));
  }

  /** The same, said of two whole runs that started from sound states. */
  lemma RunsAgree(c: Crypto, o: Options, ss: seq<State>, es: seq<Event>, p: Options, ts: seq<State>, fs: seq<Event>, k: nat, m: nat, i: nat, j: nat)
    requires GoodOptions(o) && GoodOptions(p) && SameTrust(o, p)
    requires Run(c, o, ss, es) && Sound(c, o, ss[0]) && k < |ss|
    requires Run(c, p, ts, fs) && Sound(c, p, ts[0]) && m < |ts|
    requires i < |Held(ss[k])| && j < |Held(ts[m])|
    requires Held(ss[k])[i].header.height == Held(ts[m])[j].header.height <= Min(ss[k].verified, ts[m].verified)
    requires NoCollision(c, Held(ss[k]) + Held(ts[m]))
    ensures Held(ss[k])[i].header == Held(ts[m])[j].header
  {
    RunKeepsSound(c, o, ss, es, k);
    RunKeepsSound(c, p, ts, fs, m);
    CheckpointsFixHeaders(c, o, ss[k], p, ts[m], i, j);
  }

  // ---------------------------------------------------------------- stores the ingestor did not build

  /** The stored blocks above the recovered checkpoint: startup does not look at their links. */
  ghost function Tail(st: Store, v: int): seq<Block> {
    if v == 0 || !st.Has(v) then st.blocks else st.blocks[v + 1 - st.base..]
  }

  /** Held block `i` is linked, within what is held, to a block that matches a checkpoint. */
  ghost predicate AnchoredIn(c: Crypto, o: Options, s: State, i: nat)
    requires i < |Held(s)|
  {
    exists k :: i <= k < |Held(s)| && AnchorPath(c, o, Held(s)[i..k + 1], Held(s)[i], Held(s)[k].header.height)
  }

  ghost predicate VerifiedAreAnchored(c: Crypto, o: Options, s: State) {
    forall i :: 0 <= i < |Held(s)| && Held(s)[i].header.height <= s.verified ==> AnchoredIn(c, o, s, i)
  }

  /** `s` was reached from the store `st` by arrivals alone. */
  ghost predicate Grown(c: Crypto, o: Options, st: Store, v: int, s: State) {
    && Shaped(o, s)
    && Prolongs(c, st.blocks, Held(s))
    && (s.verified == v || exists k :: |st.blocks| <= k < |Held(s)| && IsMark(c, o, Held(s), k, s.verified))
  }

  /** `held` starts with `bs`, and everything after is linked to what precedes it. */
  ghost predicate Prolongs(c: Crypto, bs: seq<Block>, held: seq<Block>) {
    && bs <= held && AllHashed(c, held)
    && (forall i, j :: 0 <= i < j < |held| && j == i + 1 && j >= |bs| ==> Linked(c, held[i], held[j]))
  }

  lemma ProlongOne(c: Crypto, bs: seq<Block>, held: seq<Block>, b: Block)
    requires Prolongs(c, bs, held) && Hash(c, b) != "" && (held != [] ==> Linked(c, held[|held| - 1], b))
    ensures Prolongs(c, bs, held + [b])
  {
  }

  ghost predicate IsMark(c: Crypto, o: Options, held: seq<Block>, k: nat, verified: int)
    requires k < |held|
  {
    held[k].header.height == verified && verified in o.checkpoints && Hash(c, held[k]) == o.checkpoints[verified]
  }

  lemma MarkGrows(c: Crypto, o: Options, held: seq<Block>, b: Block, n: nat, v: int, before: int)
    requires o.mode.Checkpoint? && n <= |held| && (b.header.height in o.checkpoints ==> Hash(c, b) == o.checkpoints[b.header.height])
    requires before == v || exists k :: n <= k < |held| && IsMark(c, o, held, k, before)
    ensures var after, held' := Mark(o, before, b), held + [b];
            after == v || exists k :: n <= k < |held'| && IsMark(c, o, held', k, after)
  {
    var after, held' := Mark(o, before, b), held + [b];
    if b.header.height in o.checkpoints {
      assert IsMark(c, o, held', |held|, after);
    } else if before != v {
      var k :| n <= k < |held| && IsMark(c, o, held, k, before);
      assert IsMark(c, o, held', k, after);
    }
  }

  lemma GrowsBy(c: Crypto, o: Options, st: Store, v: int, s: State, t: State, b: Block)
    requires Grown(c, o, st, v, s) && o.mode.Checkpoint?
    requires Shaped(o, t) && Held(t) == Held(s) + [b] && t.verified == Mark(o, s.verified, b) && Hash(c, b) != ""
    requires Held(s) != [] ==> Linked(c, Held(s)[|Held(s)| - 1], b)
    requires b.header.height in o.checkpoints ==> Hash(c, b) == o.checkpoints[b.header.height]
    ensures Grown(c, o, st, v, t)
  {
    MarkGrows(c, o, Held(s), b, |st.blocks|, v, s.verified);
    ProlongOne(c, st.blocks, Held(s), b);
  }

  lemma ArrivalGrows(c: Crypto, o: Options, st: Store, v: int, s: State, b: Block)
    requires Grown(c, o, st, v, s) && o.mode.Checkpoint? && Submit(c, o, s, Some(b)).Ok?
    ensures Grown(c, o, st, v, Submit(c, o, s, Some(b)).value)
  {
    SubmitAppends(c, o, s, b);
    GrowsBy(c, o, st, v, s, Submit(c, o, s, Some(b)).value, b);
  }

  lemma {:induction false} ArrivalsGrow(c: Crypto, o: Options, st: Store, v: int, ss: seq<State>, es: seq<Event>, k: nat)
    requires o.mode.Checkpoint? && Run(c, o, ss, es) && k < |ss|
    requires forall i :: 0 <= i < |es| ==> es[i].Arrive?
    requires ss[0] == State(st, None, v) && st.Valid() && AllHashed(c, st.blocks)
    ensures Grown(c, o, st, v, ss[k])
  {
    if k == 0 {
      assert Held(ss[0]) == st.blocks;
    } else {
      ArrivalsGrow(c, o, st, v, ss, es, k - 1);
      assert Step(c, o, ss[k - 1], es[k - 1], ss[k]);
      var b := es[k - 1].block;
      if Submit(c, o, ss[k - 1], b).Ok? { ArrivalGrows(c, o, st, v, ss[k - 1], b.value); }
    }
  }

  /** How many stored blocks lie at or below the recovered checkpoint. */
  ghost function Checked(st: Store, v: int): nat {
    |st.blocks| - |Tail(st, v)|
  }

  lemma TailShape(o: Options, st: Store, v: int, held: seq<Block>)
    requires GoodOptions(o) && st.Valid() && IsTopCheckpoint(o, st, v)
    requires st.blocks <= held
    ensures Tail(st, v) == st.blocks[Checked(st, v)..]
    ensures forall a :: 0 <= a < |st.blocks| ==> st.blocks[a] == held[a] && held[a].header.height == st.base + a
    ensures st.blocks != [] ==> st.base + Checked(st, v) > v
    ensures Checked(st, v) > 0 ==> st.base + Checked(st, v) - 1 == v && Retained(o, st, v)
  {
  }

  lemma AnchorCrosses(c: Crypto, o: Options, st: Store, v: int, held: seq<Block>, k: nat, m: nat)
    requires IsTopCheckpoint(o, st, v) && |st.blocks| <= |held| && k + 1 < |st.blocks|
    requires forall a :: 0 <= a < |st.blocks| ==> held[a].header.height == st.base + a
    requires st.base + k > v && k <= m < |held|
    requires AnchorPath(c, o, held[k..m + 1], held[k], held[m].header.height)
    ensures Linked(c, held[k], held[k + 1])
  {
    if m < |st.blocks| {
      assert Retained(o, st, st.base + m);
      assert false;
    }
    var path := held[k..m + 1];
    assert path[0] == held[k] && path[1] == held[k + 1];
  }

  lemma AnchoredPair(c: Crypto, o: Options, st: Store, v: int, t: State, k: nat)
    requires GoodOptions(o) && st.Valid() && Grown(c, o, st, v, t)
    requires IsTopCheckpoint(o, st, v) && t.verified > st.Height()
    requires Checked(st, v) <= k && k + 1 < |st.blocks|
    requires VerifiedAreAnchored(c, o, t)
    ensures Linked(c, st.blocks[k], st.blocks[k + 1])
  {
    var held := Held(t);
    TailShape(o, st, v, held);
    assert held[k].header.height == st.base + k;
    assert AnchoredIn(c, o, t, k);
    var m :| k <= m < |held| && AnchorPath(c, o, held[k..m + 1], held[k], held[m].header.height);
    AnchorCrosses(c, o, st, v, held, k, m);
  }

  lemma AnchoredOnlyIfTailLinked(c: Crypto, o: Options, st: Store, v: int, t: State)
    requires GoodOptions(o) && st.Valid() && Grown(c, o, st, v, t)
    requires IsTopCheckpoint(o, st, v) && t.verified > st.Height()
    requires VerifiedAreAnchored(c, o, t)
    ensures LinkedChain(c, Tail(st, v))
  {
    hide Grown, VerifiedAreAnchored, Linked, IsTopCheckpoint;
    var off := Checked(st, v);
    TailShape(o, st, v, st.blocks);
    forall k, m | off <= k < m < |st.blocks| && m == k + 1 ensures Linked(c, st.blocks[k], st.blocks[m]) {
      AnchoredPair(c, o, st, v, t, k);
    }
    PairsLinkSuffix(c, st.blocks, off);
  }

  lemma PairsLinkSuffix(c: Crypto, bs: seq<Block>, off: nat)
    requires Consecutive(bs) && off <= |bs|
    requires forall k, m :: off <= k < m < |bs| && m == k + 1 ==> Linked(c, bs[k], bs[m])
    ensures LinkedChain(c, bs[off..])
  {
    var tail := bs[off..];
    assert forall a :: 0 <= a < |tail| ==> tail[a] == bs[off + a];
  }

  lemma AnchorBelow(c: Crypto, o: Options, st: Store, v: int, held: seq<Block>, i: nat)
    requires GoodOptions(o) && st.Valid() && st.blocks <= held
    requires Consecutive(held) && AllHashed(c, held)
    requires IsTopCheckpoint(o, st, v) && RecoversAt(c, o, st, v, Some(v)) && i < Checked(st, v)
    ensures var k := Checked(st, v) - 1; AnchorPath(c, o, held[i..k + 1], held[i], held[k].header.height)
  {
    TailShape(o, st, v, held);
    var k := Checked(st, v) - 1;
    forall a, b | i <= a < b <= k && b == a + 1 ensures Linked(c, held[a], held[b]) {
      assert Linked(c, st.blocks[a], st.blocks[b]);
    }
    PathIsAnchor(c, o, held, i, k);
  }

  lemma AnchorAbove(c: Crypto, o: Options, st: Store, v: int, t: State, i: nat, k: nat)
    requires GoodOptions(o) && st.Valid() && Grown(c, o, st, v, t) && IsTopCheckpoint(o, st, v)
    requires LinkedChain(c, Tail(st, v)) && Checked(st, v) <= i <= k < |Held(t)|
    requires IsMark(c, o, Held(t), k, t.verified)
    ensures AnchorPath(c, o, Held(t)[i..k + 1], Held(t)[i], Held(t)[k].header.height)
  {
    var held := Held(t);
    TailShape(o, st, v, held);
    forall a, b | i <= a < b <= k && b == a + 1 ensures Linked(c, held[a], held[b]) {
      if b < |st.blocks| { SuffixLinksPair(c, st.blocks, Checked(st, v), a); }
    }
    PathIsAnchor(c, o, held, i, k);
  }

  lemma SuffixLinksPair(c: Crypto, bs: seq<Block>, off: nat, a: nat)
    requires off <= a && a + 1 < |bs| && LinkedChain(c, bs[off..])
    ensures Linked(c, bs[a], bs[a + 1])
  {
    var tail := bs[off..];
    assert tail[a - off] == bs[a] && tail[a + 1 - off] == bs[a + 1];
  }

  lemma TailLinkedAnchors(c: Crypto, o: Options, st: Store, v: int, t: State, i: nat)
    requires GoodOptions(o) && st.Valid() && Grown(c, o, st, v, t)
    requires IsTopCheckpoint(o, st, v) && RecoversAt(c, o, st, v, Some(v)) && t.verified > st.Height()
    requires LinkedChain(c, Tail(st, v))
    requires i < |Held(t)| && Held(t)[i].header.height <= t.verified
    ensures AnchoredIn(c, o, t, i)
  {
    var held := Held(t);
    if i < Checked(st, v) {
      AnchorBelow(c, o, st, v, held, i);
    } else {
      TailShape(o, st, v, held);
      var k :| |st.blocks| <= k < |held| && IsMark(c, o, held, k, t.verified);
      AnchorAbove(c, o, st, v, t, i, k);
    }
  }

  lemma PathIsAnchor(c: Crypto, o: Options, held: seq<Block>, i: nat, k: nat)
    requires i <= k < |held| && Consecutive(held) && AllHashed(c, held)
    requires forall a, b :: i <= a < b <= k && b == a + 1 ==> Linked(c, held[a], held[b])
    requires held[k].header.height in o.checkpoints && Hash(c, held[k]) == o.checkpoints[held[k].header.height]
    ensures AnchorPath(c, o, held[i..k + 1], held[i], held[k].header.height)
  {
    var path := held[i..k + 1];
    assert forall a :: 0 <= a < |path| ==> path[a] == held[i + a];
    assert forall b :: b in path ==> b in held;
  }

  lemma TopIsRecovered(c: Crypto, o: Options, st: Store, top: int, v: int)
    requires (top == 0 || Retained(o, st, top)) && RecoversAt(c, o, st, top, Some(v))
    ensures top == v
  {
  }

  /**
   A store the ingestor did not build may hold blocks above the recovered checkpoint whose
   links startup never checks.  Once a later checkpoint arrives, everything at or below it
   is really anchored if and only if that tail was linked to begin with.
   */
  lemma ForeignStoreIsAuthenticIff(c: Crypto, o: Options, st: Store, v: int, ss: seq<State>, es: seq<Event>, k: nat)
    requires GoodOptions(o) && o.mode.Checkpoint? && st.Valid() && AllHashed(c, st.blocks)
    requires Recovers(c, o, st, Some(v))
    requires Run(c, o, ss, es) && k < |ss| && ss[0] == State(st, None, v)
    requires forall i :: 0 <= i < |es| ==> es[i].Arrive?
    requires ss[k].verified > st.Height()
    ensures VerifiedAreAnchored(c, o, ss[k]) <==> LinkedChain(c, Tail(st, v))
  {
    hide Grown, LinkedChain, Tail, AnchoredIn, Run, RecoversAt, AllHashed;
    ArrivalsGrow(c, o, st, v, ss, es, k);
    var top :| IsTopCheckpoint(o, st, top) && RecoversAt(c, o, st, top, Some(v));
    TopIsRecovered(c, o, st, top, v);
    if LinkedChain(c, Tail(st, v)) {
      forall i | 0 <= i < |Held(ss[k])| && Held(ss[k])[i].header.height <= ss[k].verified
        ensures AnchoredIn(c, o, ss[k], i)
      {
        TailLinkedAnchors(c, o, st, v, ss[k], i);
      }
    } else if VerifiedAreAnchored(c, o, ss[k]) {
      AnchoredOnlyIfTailLinked(c, o, st, v, ss[k]);
    }
  }

  // A concrete instance: the hash of a block is the name written in its header, 64 hex digits.

  function Hex(c: char): Digest { seq(64, i => c) }

  function DemoCrypto(): Crypto {
    Crypto((h: Header) => h.rest, (m: Commit) => m.signatures, (b: Block) => Some(PartSetHeader(0, "")),
           (v: Validators) => "", (v: Validators) => true, (v, id, b, h, m) => true)
  }

  function DemoBlock(height: int, name: char, parent: char): Block {
    var id := BlockID(Hex(parent), PartSetHeader(0, ""));
    Block(Header("demo", height, id, "sig", "vals", Hex(name)), Some(Commit(height - 1, id, "sig")), "")
  }

  function DemoOptions(): Options {
    Options("demo", 1, 0, Checkpoint, map[1 := Hex('a'), 5 := Hex('e')], map[], None)
  }

  /** Blocks 1 to 3, where block 3 does not link to block 2. */
  function DemoStore(second: char): Store {
    Store(1, [DemoBlock(1, 'a', '0'), DemoBlock(2, second, 'a'), DemoBlock(3, 'c', '1')])
  }

  lemma Named(height: int, name: char, parent: char)
    ensures Hash(DemoCrypto(), DemoBlock(height, name, parent)) == Hex(name) && |Hex(name)| == 64 && Hex(name)[0] == name
  {
  }

  lemma DemoRecovers(second: char)
    ensures Recovers(DemoCrypto(), DemoOptions(), DemoStore(second), Some(1)) && DemoStore(second).Valid()
  {
    var c, o, st := DemoCrypto(), DemoOptions(), DemoStore(second);
    Named(1, 'a', '0');
    assert IsTopCheckpoint(o, st, 1);
    assert RecoversAt(c, o, st, 1, Some(1));
  }

  /** Startup accepts `st` with height `v` verified, and two arrivals lead to `t`. */
  ghost predicate Reaches(c: Crypto, o: Options, st: Store, v: int, a: Block, b: Block, t: State) {
    var first := Submit(c, o, State(st, None, v), Some(a));
    Recovers(c, o, st, Some(v)) && first.Ok? && Submit(c, o, first.value, Some(b)) == Ok(t)
  }

  lemma DemoReaches(second: char) returns (t: State)
    ensures Reaches(DemoCrypto(), DemoOptions(), DemoStore(second), 1, DemoBlock(4, 'd', 'c'), DemoBlock(5, 'e', 'd'), t)
    ensures t.verified == 5 && |Held(t)| > 1 && Held(t)[1] == DemoBlock(2, second, 'a')
  {
    var c, o, s := DemoCrypto(), DemoOptions(), State(DemoStore(second), None, 1);
    var b3, b4, b5 := DemoBlock(3, 'c', '1'), DemoBlock(4, 'd', 'c'), DemoBlock(5, 'e', 'd');
    DemoRecovers(second);
    Named(3, 'c', '1');
    Named(4, 'd', 'c');
    Named(5, 'e', 'd');
    hide Hex;
    assert Validate(c, o, b4).None?;
    assert s.store.Load(3) == Some(b3);
    var u := Submit(c, o, s, Some(b4)).value;
    assert u.pending == Some(b4);
    assert Validate(c, o, b5).None?;
    assert Commits(c, o, b4, b5).None?;
    t := Submit(c, o, u, Some(b5)).value;
  }

  /**
   Without the linked tail the promise fails: two stores that differ at height 2 both pass
   startup, accept the same blocks, and end up with height 5 verified.
   */
  lemma ForeignTailCanDiffer(c: Crypto, o: Options, a: Block, b: Block) returns (s: State, t: State)
    requires c == DemoCrypto() && o == DemoOptions() && a == DemoBlock(4, 'd', 'c') && b == DemoBlock(5, 'e', 'd')
    ensures Startable(c, o) && DemoStore('b').Valid() && DemoStore('f').Valid()
    ensures Reaches(c, o, DemoStore('b'), 1, a, b, s) && Reaches(c, o, DemoStore('f'), 1, a, b, t)
    ensures s.verified == t.verified == 5
    ensures |Held(s)| > 1 && |Held(t)| > 1 && Held(s)[1].header.height == Held(t)[1].header.height == 2
    ensures Held(s)[1].header != Held(t)[1].header
  {
    s := DemoReaches('b');
    t := DemoReaches('f');
    DemoRecovers('b');
    DemoRecovers('f');
    Named(2, 'b', 'a');
    Named(2, 'f', 'a');
    assert 1 in o.checkpoints;
  }
}
