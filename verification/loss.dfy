/**
 What a node can lose, and what it cannot: every persisted block against the hot store and
 the archive, from any start whatever, and the heights the node ever advertised.
 */
module Losses {
  import opened Common
  import opened Chain
  import opened Manifests
  import opened Segments
  import opened ObjectStores
  import opened Publication
  import opened Pruning
  import opened Nodes
  import I = Ingest

  /** The same block, or at least the same header. */
  predicate Alike(whole: bool, a: Block, b: Block) { if whole then a == b else a.header == b.header }

  // ---------------------------------------------------------------- what the result rests on

  /** Blocks with equal hex hashes have equal hashes. */
  ghost predicate HashesTell(c: Crypto, env: Env) {
    forall a, b :: IsHash(env.blockHash(b)) && EqualFold(env.blockHash(a), env.blockHash(b)) ==> Hash(c, a) == Hash(c, b)
  }

  /** The archived blocks have hashes and are one hash-linked chain. */
  ghost predicate LinkedArchive(site: Site, c: Crypto, w: World) {
    && (forall h :: Archived(w, h) && Reading(site, w, h).Some? ==> Hash(c, Reading(site, w, h).value) != "")
    && forall h, g :: Archived(w, h) && Archived(w, g) && g == h + 1 ==>
      Reading(site, w, h).Some? && Reading(site, w, g).Some? && Linked(c, Reading(site, w, h).value, Reading(site, w, g).value)
  }

  ghost predicate SameHash(site: Site, c: Crypto, base: World, n: Node, h: int) {
    h in n.persisted && Reading(site, base, h).Some? && Hash(c, n.persisted[h]) == Hash(c, Reading(site, base, h).value)
  }

  /** No hash collision between what was persisted and what `base` had archived at the same height. */
  ghost predicate NoForgery(site: Site, c: Crypto, base: World, n: Node, whole: bool) {
    forall h :: Archived(base, h) && SameHash(site, c, base, n, h) ==> Alike(whole, n.persisted[h], Reading(site, base, h).value)
  }

  lemma ForgeryBefore(site: Site, c: Crypto, base: World, n: Node, t: Node, whole: bool)
    requires NoForgery(site, c, base, t, whole) && RecordGrows(n, t)
    ensures NoForgery(site, c, base, n, whole)
  {
    hide Reading, Archived, Hash, Alike;
  }

  // ---------------------------------------------------------------- persisted against archived

  /** The persisted block at `h` is what `base` had archived there. */
  ghost predicate Agrees(site: Site, base: World, n: Node, h: int, whole: bool) {
    h in n.persisted && Reading(site, base, h).Some? && Alike(whole, n.persisted[h], Reading(site, base, h).value)
  }

  /** One matching hash fixes everything below it: both sides are linked chains. */
  lemma {:induction false} AgreeDownward(site: Site, c: Crypto, base: World, n: Node, whole: bool, h: int, top: int)
    requires RecordChain(c, n) && LinkedArchive(site, c, base) && NoForgery(site, c, base, n, whole)
    requires h in n.persisted && h <= top && Archived(base, h) && Archived(base, top) && SameHash(site, c, base, n, top)
    ensures Agrees(site, base, n, h, whole)
    decreases top - h
  {
    hide Reading;
    if h < top {
      assert Archived(base, h + 1) && h + 1 in n.persisted;
      AgreeDownward(site, c, base, n, whole, h + 1, top);
      assert Linked(c, n.persisted[h], n.persisted[h + 1]);
      assert Linked(c, Reading(site, base, h).value, Reading(site, base, h + 1).value);
    }
  }

  lemma {:induction false} RecordReaches(c: Crypto, n: Node, h: int, g: int)
    requires RecordChain(c, n) && h in n.persisted && h <= g < NextPersisted(n)
    ensures g in n.persisted
    decreases g - h
  {
    if h < g { RecordReaches(c, n, h + 1, g); }
  }

  /** The last height that `base` had archived; nothing if it had none. */
  ghost predicate IsEnd(base: World, end: int) { Latest(base).Some? && Latest(base).value.segments != [] && Latest(base).value.last == end }

  /** The node has persisted a block at that height and dropped it again. */
  ghost predicate Passed(n: Node, end: int) { end in n.persisted && !n.hot.store.Has(end) }

  /** What was dropped agrees with the archive, at least until the archive's old end is dropped. */
  ghost predicate DropsAgree(site: Site, base: World, n: Node, whole: bool) {
    forall h :: h in n.persisted && !n.hot.store.Has(h) && Archived(base, h) ==>
      Agrees(site, base, n, h, whole) || Passed(n, Latest(base).value.last)
  }

  lemma DropsStay(site: Site, base: World, n: Node, t: Node, whole: bool)
    requires DropsAgree(site, base, n, whole) && RecordGrows(n, t)
    requires forall h :: n.hot.store.Has(h) ==> t.hot.store.Has(h)
    requires forall h :: h in t.persisted ==> h in n.persisted || t.hot.store.Has(h)
    requires forall h :: h in n.persisted && t.hot.store.Has(h) ==> n.hot.store.Has(h)
    ensures DropsAgree(site, base, t, whole)
  {
    hide Reading, Archived;
  }

  // ---------------------------------------------------------------- the prune boundary

  /** The archive's own answer at `h` has the hash its index records. */
  lemma ReadHasIndexedHash(env: Env, objects: Objects, m: Manifest, h: int)
    requires ReadArchive(env, objects, m, h).Some?
    ensures var s, b := Lookup(m.segments, h).value, ReadArchive(env, objects, m, h).value;
            0 <= h - s.first < |s.blocks| && env.blockHash(b) == s.blocks[h - s.first].hash
  {
    hide Lookup, Decompress, DecodeRecords;
  }

  lemma BoundaryHash(env: Env, c: Crypto, objects: Objects, st: Store, m: Manifest, h: int, b: Block)
    requires ValidManifest(m) && m.segments != []
    requires BoundaryMatches(env, st, m, h) && ReadArchive(env, objects, m, h) == Some(b) && HashesTell(c, env)
    ensures st.Has(h) && Hash(c, st.Load(h).value) == Hash(c, b)
  {
    hide Lookup, ReadArchive, EqualFold, IsHash;
    ReadHasIndexedHash(env, objects, m, h);
    LookupIsOne(m.segments, h);
  }

  lemma PrunedBoundary(env: Env, st: Store, m: Manifest, retain: int)
    requires Pruned(env, st, m, retain).Some?
    ensures var t := Pruned(env, st, m, retain).value; t != st ==> t.base > st.base && BoundaryMatches(env, st, m, t.base - 1) && m.first <= st.base
  {
    hide BoundaryMatches;
  }

  /** Under a snapshot taken during the run, the old heights read as at the start. */
  lemma SnapshotReads(site: Site, c: Crypto, base: World, n: Node, h: int)
    requires GoodSite(site) && NodeInv(site, c, base, n) && CollisionFree(site.env.sha, n.world.bytes)
    requires n.snapshot.Some? && Archived(base, h)
    ensures ReadArchive(site.env, n.world.objects, n.snapshot.value, h) == Reading(site, base, h) && Reading(site, base, h).Some?
  {
    hide GoodSite, CollisionFree, ReadArchive, Inv, HotOk, RecordChain, Appended, Covered, OwnWriter, Recorded;
    ReadsSame(site, base, Latest(base).value, n.world, n.snapshot.value, h);
  }

  /** The snapshot covers what the start did, and starts where it did. */
  lemma SnapshotRange(site: Site, c: Crypto, base: World, n: Node, h: int)
    requires NodeInv(site, c, base, n) && n.snapshot.Some? && Latest(base).Some? && Latest(base).value.segments != []
    ensures Archived(base, h) <==> n.snapshot.value.first <= h <= Latest(base).value.last
  {
    hide HotOk, RecordChain, Appended, Covered, OwnWriter, Recorded, Grows;
    assert PublishedOk(site, n.world, n.snapshot.value);
    LatestIsOk(site, base);
    assert n.snapshot.value.segments[0] == Latest(base).value.segments[0];
  }

  lemma SnapshotIsValid(site: Site, c: Crypto, base: World, n: Node)
    requires NodeInv(site, c, base, n) && n.snapshot.Some? && Latest(base).Some? && Latest(base).value.segments != []
    ensures ValidManifest(n.snapshot.value) && n.snapshot.value.segments != []
  {
    assert PublishedOk(site, n.world, n.snapshot.value);
  }

  /** What a prune drops agrees with the archive, or the archive's old end is dropped with it. */
  lemma DroppedAgrees(site: Site, c: Crypto, base: World, n: Node, retain: int, t: Node, whole: bool, h: int)
    requires GoodSite(site) && NodeInv(site, c, base, n) && Step(site, c, n, PruneHot(retain), t) && CollisionFree(site.env.sha, n.world.bytes)
    requires LinkedArchive(site, c, base) && NoForgery(site, c, base, n, whole) && HashesTell(c, site.env)
    requires n.hot.store.Has(h) && !t.hot.store.Has(h) && Archived(base, h)
    ensures Agrees(site, base, n, h, whole) || Passed(t, Latest(base).value.last)
  {
    hide GoodSite, CollisionFree, Inv, Grows, HotOk, Reading, Pruned, BoundaryMatches, ReadArchive, HashesTell, LinkedArchive, NoForgery, Appended, Covered, OwnWriter, RecordChain;
    var m, end := n.snapshot.value, Latest(base).value.last;
    PrunedBoundary(site.env, n.hot.store, m, retain);
    var b := t.hot.store.base - 1;
    BoundaryIsHot(site, c, n, retain, t, h);
    SnapshotRange(site, c, base, n, h);
    SnapshotRange(site, c, base, n, b);
    if b <= end {
      SnapshotReads(site, c, base, n, b);
      SnapshotIsValid(site, c, base, n);
      BoundaryHash(site.env, c, n.world.objects, n.hot.store, m, b, Reading(site, base, b).value);
      AgreeDownward(site, c, base, n, whole, h, b);
    } else {
      RecordReaches(c, n, h, end);
    }
  }

  lemma BoundaryIsHot(site: Site, c: Crypto, n: Node, retain: int, t: Node, h: int)
    requires HotOk(c, n) && Recorded(n) && RecordChain(c, n) && Step(site, c, n, PruneHot(retain), t)
    requires n.hot.store.Has(h) && !t.hot.store.Has(h)
    ensures t.hot.store != n.hot.store && h <= t.hot.store.base - 1 < NextPersisted(n) && n.hot.store.Has(t.hot.store.base - 1)
    ensures forall g :: g < t.hot.store.base ==> !t.hot.store.Has(g)
    ensures n.hot.store.base <= h
  {
    PruneKeepsHot(site, c, n, retain, t);
  }

  lemma PruneKeepsDrops(site: Site, c: Crypto, base: World, n: Node, retain: int, t: Node, whole: bool)
    requires GoodSite(site) && NodeInv(site, c, base, n) && Step(site, c, n, PruneHot(retain), t) && CollisionFree(site.env.sha, n.world.bytes)
    requires LinkedArchive(site, c, base) && NoForgery(site, c, base, n, whole) && HashesTell(c, site.env)
    requires DropsAgree(site, base, n, whole)
    ensures DropsAgree(site, base, t, whole)
  {
    hide GoodSite, CollisionFree, Inv, Grows, HotOk, Reading, Pruned, HashesTell, LinkedArchive, NoForgery, Appended, Covered, OwnWriter, RecordChain, Alike;
    PruneKeepsHot(site, c, n, retain, t);
    forall h | h in t.persisted && !t.hot.store.Has(h) && Archived(base, h)
      ensures Agrees(site, base, t, h, whole) || Passed(t, Latest(base).value.last)
    {
      ArchivedHas(base, h);
      if n.hot.store.Has(h) { DroppedAgrees(site, c, base, n, retain, t, whole, h); }
    }
  }

  lemma StepKeepsDrops(site: Site, c: Crypto, base: World, n: Node, a: Action, t: Node, whole: bool)
    requires GoodSite(site) && NodeInv(site, c, base, n) && Step(site, c, n, a, t) && CollisionFree(site.env.sha, n.world.bytes)
    requires LinkedArchive(site, c, base) && NoForgery(site, c, base, n, whole) && HashesTell(c, site.env)
    requires DropsAgree(site, base, n, whole) && RecordGrows(n, t)
    ensures DropsAgree(site, base, t, whole)
  {
    hide GoodSite, CollisionFree, Inv, Grows, HotOk, Reading, Pruned, HashesTell, LinkedArchive, NoForgery, Appended, Covered, OwnWriter, DropsAgree, Apply, I.Submit, RecordChain;
    if a.PruneHot? {
      PruneKeepsDrops(site, c, base, n, a.retain, t, whole);
    } else {
      if a.Arrive? && Admits(c, n, a.block) {
        HotKeeps(c, n, a.block.value);
        ArrivedIsNew(c, n, a.block.value);
      }
      DropsStay(site, base, n, t, whole);
    }
  }

  predicate Admits(c: Crypto, n: Node, b: Option<Block>)
    ensures Admits(c, n, b) <==> I.Submit(c, n.o, n.hot, b).Ok?
    ensures Admits(c, n, b) ==> b.Some?
  {
    b.Some? && I.Submit(c, n.o, n.hot, b).Ok?
  }

  lemma ArrivedIsNew(c: Crypto, n: Node, b: Block)
    requires HotOk(c, n) && RecordChain(c, n) && I.Submit(c, n.o, n.hot, Some(b)).Ok?
    ensures var t := AfterArrival(n, I.Submit(c, n.o, n.hot, Some(b)).value);
            forall h :: h in n.persisted && t.hot.store.Has(h) ==> n.hot.store.Has(h)
  {
    ArrivalKeepsShape(c, n, b);
  }

  lemma StartDropsNothing(site: Site, c: Crypto, n: Node, whole: bool)
    requires StartsIdle(site, c, n)
    ensures DropsAgree(site, n.world, n, whole)
  {
    hide Inv, HotOk, Reading, Archived;
  }

  lemma {:induction false} RunKeepsDrops(site: Site, c: Crypto, ns: seq<Node>, acts: seq<Action>, k: nat, whole: bool)
    requires GoodSite(site) && NodeRun(site, c, ns, acts) && StartsIdle(site, c, ns[0]) && k < |ns| && CollisionFree(site.env.sha, ns[k].world.bytes)
    requires LinkedArchive(site, c, ns[0].world) && NoForgery(site, c, ns[0].world, ns[k], whole) && HashesTell(c, site.env)
    ensures DropsAgree(site, ns[0].world, ns[k], whole)
    decreases k
  {
    hide GoodSite, CollisionFree, NodeInv, HashesTell, LinkedArchive, NoForgery, Step, StartsIdle, DropsAgree;
    if k == 0 {
      StartDropsNothing(site, c, ns[0], whole);
    } else {
      RunKeeps(site, c, ns, acts, k - 1, k);
      ForgeryBefore(site, c, ns[0].world, ns[k - 1], ns[k], whole);
      RunKeepsDrops(site, c, ns, acts, k - 1, whole);
      assert Step(site, c, ns[k - 1], acts[k - 1], ns[k]);
      StepKeepsDrops(site, c, ns[0].world, ns[k - 1], acts[k - 1], ns[k], whole);
    }
  }

  // ---------------------------------------------------------------- nothing is lost, exactly when

  /** The block persisted at `h` can be had: from the hot store, or from the published archive. */
  ghost predicate Available(site: Site, n: Node, h: int, whole: bool)
    requires h in n.persisted
  {
    || n.hot.store.Load(h) == Some(n.persisted[h])
    || (Archived(n.world, h) && Reading(site, n.world, h).Some? && Alike(whole, n.persisted[h], Reading(site, n.world, h).value))
  }

  ghost predicate NothingLost(site: Site, n: Node, whole: bool) { forall h :: h in n.persisted ==> Available(site, n, h, whole) }

  /**
   The one comparison that decides: the block persisted at the last height the archive
   started with has the hash archived there, or there is none, or it has not been dropped.
   */
  ghost predicate TailMatches(site: Site, c: Crypto, base: World, n: Node) {
    forall end :: IsEnd(base, end) && Passed(n, end) ==> SameHash(site, c, base, n, end)
  }

  lemma EndIsArchived(site: Site, base: World, end: int)
    requires Inv(site, base) && IsEnd(base, end)
    ensures Archived(base, end) && forall h :: Archived(base, h) ==> h <= end
  {
    LatestIsOk(site, base);
    ValidRange(Latest(base).value);
  }

  lemma HotIsAvailable(site: Site, n: Node, h: int, whole: bool)
    requires Recorded(n) && h in n.persisted && n.hot.store.Has(h)
    ensures Available(site, n, h, whole)
  {
  }

  lemma DroppedIsAvailable(site: Site, c: Crypto, base: World, n: Node, whole: bool, h: int)
    requires NodeInv(site, c, base, n) && LinkedArchive(site, c, base) && NoForgery(site, c, base, n, whole)
    requires DropsAgree(site, base, n, whole) && TailMatches(site, c, base, n) && h in n.persisted && !n.hot.store.Has(h)
    ensures Available(site, n, h, whole)
  {
    hide Inv, Grows, HotOk, Reading, LinkedArchive, NoForgery, RecordChain, OwnWriter, Recorded, Hash;
    if Archived(base, h) && !Agrees(site, base, n, h, whole) {
      var end := Latest(base).value.last;
      assert IsEnd(base, end) && SameHash(site, c, base, n, end);
      EndIsArchived(site, base, end);
      AgreeDownward(site, c, base, n, whole, h, end);
    }
  }

  lemma AvailableMatches(site: Site, c: Crypto, base: World, n: Node, whole: bool, end: int)
    requires NodeInv(site, c, base, n) && LinkedArchive(site, c, base) && IsEnd(base, end) && Passed(n, end) && Available(site, n, end, whole)
    ensures SameHash(site, c, base, n, end)
  {
    hide Inv, Grows, HotOk, Reading, OwnWriter, Covered;
    EndIsArchived(site, base, end);
  }

  /**
   Nothing is lost, exactly when.  From any sound hot store and any archive that is a linked
   chain, in every run of arrivals, archiving, verification, pruning and restarts, every
   block persisted so far is available if and only if the tails match.  With `whole` this is
   said of whole blocks, without it of headers.
   */
  lemma NoBlockLost(site: Site, c: Crypto, ns: seq<Node>, acts: seq<Action>, i: nat, k: nat, whole: bool)
    requires GoodSite(site) && HashesTell(c, site.env) && NodeRun(site, c, ns, acts) && StartsIdle(site, c, ns[0]) && i <= k < |ns|
    requires CollisionFree(site.env.sha, ns[k].world.bytes)
    requires LinkedArchive(site, c, ns[0].world) && NoForgery(site, c, ns[0].world, ns[k], whole)
    ensures RecordGrows(ns[i], ns[k])
    ensures NothingLost(site, ns[k], whole) <==> TailMatches(site, c, ns[0].world, ns[k])
  {
    hide GoodSite, CollisionFree, HashesTell, LinkedArchive, NoForgery, Step, StartsIdle, DropsAgree, Available, SameHash, IsEnd, NodeInv;
    var base, n := ns[0].world, ns[k];
    RunKeeps(site, c, ns, acts, i, k);
    RunKeepsDrops(site, c, ns, acts, k, whole);
    if TailMatches(site, c, base, n) {
      forall h | h in n.persisted ensures Available(site, n, h, whole) {
        if n.hot.store.Has(h) { RecordedNode(site, c, base, n); HotIsAvailable(site, n, h, whole); } else { DroppedIsAvailable(site, c, base, n, whole, h); }
      }
    }
    if NothingLost(site, n, whole) {
      forall end | IsEnd(base, end) && Passed(n, end) ensures SameHash(site, c, base, n, end) {
        AvailableMatches(site, c, base, n, whole, end);
      }
    }
  }

  lemma RecordedNode(site: Site, c: Crypto, base: World, n: Node)
    requires NodeInv(site, c, base, n)
    ensures Recorded(n)
  {
  }

  /** Once the comparison has come out right, nothing persisted is ever lost. */
  lemma CheckedOnceSafeForever(site: Site, c: Crypto, ns: seq<Node>, acts: seq<Action>, i: nat, k: nat, whole: bool, end: int)
    requires GoodSite(site) && HashesTell(c, site.env) && NodeRun(site, c, ns, acts) && StartsIdle(site, c, ns[0]) && i <= k < |ns|
    requires CollisionFree(site.env.sha, ns[k].world.bytes)
    requires LinkedArchive(site, c, ns[0].world) && NoForgery(site, c, ns[0].world, ns[k], whole)
    requires IsEnd(ns[0].world, end) && SameHash(site, c, ns[0].world, ns[i], end)
    ensures NothingLost(site, ns[k], whole)
  {
    hide GoodSite, CollisionFree, HashesTell, LinkedArchive, NoForgery, Step, StartsIdle, NothingLost, Reading, Hash;
    NoBlockLost(site, c, ns, acts, i, k, whole);
  }

  // ---------------------------------------------------------------- the ordinary start

  /** The archive is not ahead of ingestion, and has what was persisted. */
  ghost predicate Behind(site: Site, base: World, n: Node) {
    && (forall h :: Archived(base, h) ==> h < NextPersisted(n))
    && (forall h :: h in n.persisted && Archived(base, h) ==> Reading(site, base, h) == Some(n.persisted[h]))
  }

  lemma RestartStaysBehind(site: Site, c: Crypto, base: World, n: Node, t: Node)
    requires GoodSite(site) && NodeInv(site, c, base, n) && Behind(site, base, n) && Step(site, c, n, Restart, t)
    ensures Behind(site, base, t)
  {
    hide GoodSite, Reading, I.Recovers, SharedOk, ValidManifest, RecordChain, Grows, I.Sound;
    if n.hot.store.blocks != [] {
      ResumesAt(c, n, t);
    } else {
      LoadedIsLatest(site, n.world);
      if Latest(n.world).Some? {
        LatestIsOk(site, n.world);
        EmptyOrPositive(Latest(n.world).value);
      }
    }
  }

  lemma ArrivalStaysBehind(site: Site, c: Crypto, base: World, n: Node, b: Block)
    requires HotOk(c, n) && Behind(site, base, n) && I.Submit(c, n.o, n.hot, Some(b)).Ok?
    ensures Behind(site, base, AfterArrival(n, I.Submit(c, n.o, n.hot, Some(b)).value))
  {
    ArrivalKeepsShape(c, n, b);
    hide Reading, Archived, I.Submit, I.Sound;
  }

  lemma StepStaysBehind(site: Site, c: Crypto, base: World, n: Node, a: Action, t: Node)
    requires GoodSite(site) && NodeInv(site, c, base, n) && Behind(site, base, n) && Step(site, c, n, a, t)
    ensures Behind(site, base, t)
  {
    hide GoodSite, Reading, Archived, Inv, Grows, Apply, I.Submit, HotOk, RecordChain, Appended, Covered, OwnWriter, Recorded, Pruned;
    if a.Restart? {
      RestartStaysBehind(site, c, base, n, t);
    } else if a.Arrive? {
      if Admits(c, n, a.block) { ArrivalStaysBehind(site, c, base, n, a.block.value); }
    } else if a.PruneHot? {
      PruneKeepsHot(site, c, n, a.retain, t);
    }
  }

  lemma {:induction false} RunStaysBehind(site: Site, c: Crypto, ns: seq<Node>, acts: seq<Action>, k: nat)
    requires GoodSite(site) && NodeRun(site, c, ns, acts) && StartsIdle(site, c, ns[0]) && k < |ns| && CollisionFree(site.env.sha, ns[k].world.bytes)
    requires Behind(site, ns[0].world, ns[0])
    ensures Behind(site, ns[0].world, ns[k])
    decreases k
  {
    hide GoodSite, CollisionFree, NodeInv, Step, StartsIdle, Behind;
    if k > 0 {
      RunKeeps(site, c, ns, acts, k - 1, k);
      RunStaysBehind(site, c, ns, acts, k - 1);
      assert Step(site, c, ns[k - 1], acts[k - 1], ns[k]);
      StepStaysBehind(site, c, ns[0].world, ns[k - 1], acts[k - 1], ns[k]);
    }
  }

  /**
   The ordinary start, where hot store and archive agree and the archive is not ahead, loses
   nothing: no linked archive and no assumption about header hashes is needed.
   */
  lemma BehindLosesNothing(site: Site, c: Crypto, ns: seq<Node>, acts: seq<Action>, k: nat)
    requires GoodSite(site) && NodeRun(site, c, ns, acts) && StartsIdle(site, c, ns[0]) && k < |ns| && CollisionFree(site.env.sha, ns[k].world.bytes)
    requires Behind(site, ns[0].world, ns[0])
    ensures NothingLost(site, ns[k], true)
  {
    hide GoodSite, CollisionFree, Step, StartsIdle, Inv, Grows, HotOk, RecordChain, OwnWriter, Reading;
    RunKeeps(site, c, ns, acts, k, k);
    RunStaysBehind(site, c, ns, acts, k);
  }

  // ---------------------------------------------------------------- advertised ranges

  datatype Range = Range(base: int, height: int)

  predicate In(r: Range, h: int) { r.height != 0 && r.base <= h <= r.height }

  function HotRange(n: Node): Range { if n.hot.store.Height() == 0 then Range(0, 0) else Range(n.hot.store.base, n.hot.store.Height()) }

  /** A node that has never seen a manifest has no cold range. */
  function ColdRange(m: Option<Manifest>): Range {
    if m.None? || m.value.last == 0 then Range(0, 0) else Range(m.value.first, m.value.last)
  }

  function Merged(cold: Range, hot: Range): Range {
    if cold.height == 0 then hot
    else if hot.height == 0 then cold
    else if cold.height + 1 < hot.base || hot.height + 1 < cold.base then (if hot.height >= cold.height then hot else cold)
    else Range(Min(hot.base, cold.base), Max(hot.height, cold.height))
  }

  /**
   A merged range promises only heights that one of the two has, and all of both where they
   touch; it always has the higher of the two, and so the highest height there is.
   */
  lemma MergedIsUnion(cold: Range, hot: Range, h: int)
    requires cold.height != 0 ==> 0 < cold.base <= cold.height
    requires hot.height != 0 ==> 0 < hot.base <= hot.height
    ensures In(Merged(cold, hot), h) ==> In(cold, h) || In(hot, h)
    ensures cold.height + 1 >= hot.base && hot.height + 1 >= cold.base && (In(cold, h) || In(hot, h)) ==> In(Merged(cold, hot), h)
    ensures In(if hot.height >= cold.height then hot else cold, h) ==> In(Merged(cold, hot), h)
    ensures Merged(cold, hot).height == Max(cold.height, hot.height)
  {
  }

  ghost predicate Servable(n: Node, h: int) { n.hot.store.Has(h) || Archived(n.world, h) }

  /**
   A height advertised at step `i`, from the hot store of that moment and no manifest or any
   manifest published by then, however stale, can be served at that step and at every later one.
   */
  lemma AdvertisedStaysAvailable(site: Site, c: Crypto, ns: seq<Node>, acts: seq<Action>, i: nat, k: nat, m: Option<Manifest>, h: int)
    requires GoodSite(site) && NodeRun(site, c, ns, acts) && StartsIdle(site, c, ns[0]) && i <= k < |ns|
    requires CollisionFree(site.env.sha, ns[k].world.bytes) && (m.Some? ==> m.value in ns[i].world.history)
    requires In(Merged(ColdRange(m), HotRange(ns[i])), h)
    ensures Servable(ns[k], h)
  {
    hide GoodSite, Step, CollisionFree, Reading, NodeRun, StartsIdle, I.Sound, Appended, RecordChain;
    RunKeeps(site, c, ns, acts, i, k);
    RangesOk(site, c, ns[0].world, ns[i], m);
    MergedIsUnion(ColdRange(m), HotRange(ns[i]), h);
    if In(ColdRange(m), h) {
      RunHistory(site, c, ns, acts, i, k, m.value);
      SnapshotIsCovered(site, ns[k].world, m.value);
    }
  }

  lemma RangesOk(site: Site, c: Crypto, base: World, n: Node, m: Option<Manifest>)
    requires NodeInv(site, c, base, n) && (m.Some? ==> m.value in n.world.history)
    ensures var r := ColdRange(m); r.height != 0 ==> 0 < r.base <= r.height
    ensures var r := HotRange(n); r.height != 0 ==> 0 < r.base <= r.height && forall h :: In(r, h) ==> n.hot.store.Has(h)
  {
    if m.Some? {
      assert PublishedOk(site, n.world, m.value);
      EmptyOrPositive(m.value);
    }
  }

  lemma {:induction false} RunHistory(site: Site, c: Crypto, ns: seq<Node>, acts: seq<Action>, i: nat, k: nat, m: Manifest)
    requires GoodSite(site) && NodeRun(site, c, ns, acts) && StartsIdle(site, c, ns[0]) && i <= k < |ns|
    requires CollisionFree(site.env.sha, ns[k].world.bytes) && m in ns[i].world.history
    ensures m in ns[k].world.history
    decreases k
  {
    hide GoodSite, NodeInv, Step, CollisionFree, StartsIdle;
    if i < k {
      var n, a, t := ns[k - 1], acts[k - 1], ns[k];
      RunKeeps(site, c, ns, acts, k - 1, k);
      RunHistory(site, c, ns, acts, i, k - 1, m);
      assert Step(site, c, n, a, t);
      StepHistory(site, c, ns[0].world, n, a, t);
      var x :| 0 <= x < |n.world.history| && n.world.history[x] == m;
      assert t.world.history[x] == m;
    }
  }

  lemma StepHistory(site: Site, c: Crypto, base: World, n: Node, a: Action, t: Node)
    requires GoodSite(site) && NodeInv(site, c, base, n) && Step(site, c, n, a, t) && CollisionFree(site.env.sha, n.world.bytes)
    ensures n.world.history <= t.world.history
  {
    hide GoodSite, CollisionFree, Inv, Apply, Grows, OwnWriter, Appended, Covered, HotOk, RecordChain;
    if a.Archive? {
      StepKeepsInv(site, n.world, a.step, t.world);
      BuiltGrows(site, n.world, t.world);
    }
  }
}
