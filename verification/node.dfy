/**
 The whole archive node: blocks are ingested into the hot store, archived from it,
 verified, pruned, and the node may restart at any point.
 */
module Nodes {
  import opened Common
  import opened Chain
  import opened Manifests
  import opened Segments
  import opened ObjectStores
  import opened Publication
  import opened Pruning
  import I = Ingest
  import K = Checkpoints
  import V = Verification

  /** The node's own live archiver. */
  const NODE: int := 0

  /** The node, and for the record every block it ever persisted. */
  datatype Node = Node(o: I.Options, hot: I.State, world: World, snapshot: Option<Manifest>, persisted: map<int, Block>)

  datatype Action = Arrive(block: Option<Block>) | Archive(step: Event) | TakeSnapshot | PruneHot(retain: int) | Restart

  /** Where an empty node starts: right after the archive, if there is one. */
  function LiveStart(st: Store, archivedLast: int): int {
    if st.Height() == 0 && archivedLast > 0 then archivedLast + 1 else 0
  }

  ghost predicate FromHot(n: Node, bs: seq<Block>) {
    forall b :: b in bs ==> n.hot.store.Load(b.header.height) == Some(b) && b.header.height <= I.ArchiveLimit(n.o, n.hot)
  }

  function AfterArrival(n: Node, hot: I.State): Node {
    n.(hot := hot,
       persisted := if n.hot.pending.Some? then n.persisted[n.hot.pending.value.header.height := n.hot.pending.value] else n.persisted)
  }

  ghost function RestartOptions(site: Site, n: Node): I.Options {
    var m := LoadManifest(site, n.world.objects);
    I.Normalized(n.o.(startHeight := LiveStart(n.hot.store, if m.Found? then m.value.last else 0)), n.hot.store)
  }

  ghost predicate Step(site: Site, c: Crypto, n: Node, a: Action, t: Node) {
    match a
    case Arrive(b) =>
      var r := I.Submit(c, n.o, n.hot, b);
      t == if r.Ok? then AfterArrival(n, r.value) else n
    case Archive(e) =>
      && e.id == NODE && !e.StartMigration? && (e.StartLive? ==> e.chainID == n.o.chainID)
      && (e.Build? ==> FromHot(n, e.blocks))
      && Apply(site, n.world, e) == Some(t.world) && t == n.(world := t.world)
    case TakeSnapshot =>
      var m := LoadManifest(site, n.world.objects);
      m.Found? && V.AllVerify(site.env, n.world.objects, m.value) && t == n.(snapshot := Some(m.value))
    case PruneHot(retain) =>
      && n.snapshot.Some? && Pruned(site.env, n.hot.store, n.snapshot.value, retain).Some?
      && t == n.(hot := n.hot.(store := Pruned(site.env, n.hot.store, n.snapshot.value, retain).value), snapshot := None)
    case Restart =>
      var o := RestartOptions(site, n);
      && !LoadManifest(site, n.world.objects).Unreadable?
      && I.Recovers(c, o, n.hot.store, Some(t.hot.verified))
      && t == Node(o, I.State(n.hot.store, None, t.hot.verified), n.world.(writers := map[]), None, n.persisted)
  }

  // ---------------------------------------------------------------- what is kept

  ghost predicate Archived(w: World, h: int) { Latest(w).Some? && InRange(Latest(w).value, h) }

  ghost function Reading(site: Site, w: World, h: int): Option<Block> {
    if Latest(w).None? then None else ReadArchive(site.env, w.objects, Latest(w).value, h)
  }

  /** The height of the next block to be persisted. */
  function NextPersisted(n: Node): int {
    if n.hot.pending.Some? then n.hot.pending.value.header.height else I.NextHeight(n.o, n.hot)
  }

  ghost predicate Recorded(n: Node) {
    forall h :: n.hot.store.Has(h) ==> h in n.persisted && n.hot.store.Load(h) == Some(n.persisted[h])
  }

  /** The record is one hash-linked chain without gaps, right up to the next block to be persisted. */
  ghost predicate RecordChain(c: Crypto, n: Node) {
    && (forall h :: h in n.persisted ==> n.persisted[h].header.height == h < NextPersisted(n) && Hash(c, n.persisted[h]) != "")
    && (forall h, g :: h in n.persisted && g == h + 1 && g < NextPersisted(n) ==> g in n.persisted && Linked(c, n.persisted[h], n.persisted[g]))
    && (n.hot.store.blocks == [] ==> forall h :: h !in n.persisted)
  }

  /** Every height ever persisted is in the hot store or in the published archive. */
  ghost predicate Covered(n: Node) { forall h :: h in n.persisted ==> n.hot.store.Has(h) || Archived(n.world, h) }

  /** The archive still answers as in `base`, and everything since then is what was persisted. */
  ghost predicate Appended(site: Site, base: World, n: Node) {
    && KeepsSegments(base, Latest(n.world))
    && (forall h :: Archived(base, h) ==> Archived(n.world, h) && Reading(site, n.world, h) == Reading(site, base, h))
    && (forall h :: Archived(n.world, h) && !Archived(base, h) ==> h in n.persisted && Reading(site, n.world, h) == Some(n.persisted[h]))
  }

  /** The manifest starts with the segments published in `base`. */
  ghost predicate KeepsSegments(base: World, m: Option<Manifest>) {
    Latest(base).Some? ==> m.Some? && Latest(base).value.segments <= m.value.segments
  }

  ghost predicate FromRecord(persisted: map<int, Block>, bs: seq<Block>) {
    forall b :: b in bs ==> b.header.height in persisted && persisted[b.header.height] == b
  }

  ghost predicate OwnJob(n: Node, job: Job) {
    job.Built? || job.Confirmed? ==> exists bs :: (job.segment, bs) in n.world.built && FromRecord(n.persisted, bs)
  }

  ghost predicate OwnWriter(n: Node) {
    forall id :: id in n.world.writers ==> id == NODE && n.world.writers[id].Live? && OwnJob(n, n.world.writers[id].job)
  }

  ghost predicate HotOk(c: Crypto, n: Node) { I.GoodOptions(n.o) && I.Sound(c, n.o, n.hot) }

  /** What every action keeps, relative to the world the node started in. */
  ghost predicate NodeInv(site: Site, c: Crypto, base: World, n: Node) {
    && Inv(site, base) && Grows(site, base, n.world)
    && Inv(site, n.world) && OwnWriter(n) && HotOk(c, n)
    && Recorded(n) && RecordChain(c, n) && Covered(n) && Appended(site, base, n)
    && (n.snapshot.Some? ==> n.snapshot.value in n.world.history && KeepsSegments(base, n.snapshot))
  }

  // ---------------------------------------------------------------- the archive under publication

  /** A height reads the same under any later manifest that keeps its segment in place. */
  lemma ReadsSame(site: Site, w: World, m: Manifest, v: World, g: Manifest, h: int)
    requires GoodSite(site) && Inv(site, w) && Inv(site, v) && Grows(site, w, v) && CollisionFree(site.env.sha, v.bytes)
    requires m in w.history && g in v.history && InRange(m, h) && m.segments <= g.segments
    ensures ReadArchive(site.env, v.objects, g, h) == ReadArchive(site.env, w.objects, m, h)
    ensures ReadArchive(site.env, w.objects, m, h).Some?
  {
    hide GoodSite, CollisionFree, ReadArchive, Lookup, ValidSegment, Describes, BuiltOk, ObjectsOk, CurrentOk;
    assert PublishedOk(site, w, m) && PublishedOk(site, v, g);
    var i := FindSegment(m.segments, h);
    PublishedSegment(site, w, m, i);
    var bs :| (m.segments[i], bs) in w.built;
    FewerBytes(site, w, v);
    KeptReads(site, w, m, h, i, bs);
    assert g.segments[i] == m.segments[i] && (m.segments[i], bs) in v.built;
    KeptReads(site, v, g, h, i, bs);
  }

  lemma ReadingStays(site: Site, w: World, v: World, h: int)
    requires GoodSite(site) && Inv(site, w) && Inv(site, v) && Grows(site, w, v) && CollisionFree(site.env.sha, v.bytes)
    requires Archived(w, h) && KeepsSegments(w, Latest(v))
    ensures Reading(site, v, h) == Reading(site, w, h) && Reading(site, w, h).Some?
  {
    hide GoodSite, CollisionFree, ReadArchive, Inv;
    ReadsSame(site, w, Latest(w).value, v, Latest(v).value, h);
  }

  lemma FewerBytes(site: Site, w: World, v: World)
    requires Grows(site, w, v) && CollisionFree(site.env.sha, v.bytes)
    ensures CollisionFree(site.env.sha, w.bytes)
  {
  }

  lemma LatestIsOk(site: Site, w: World)
    requires SharedOk(site, w) && Latest(w).Some?
    ensures PublishedOk(site, w, Latest(w).value) && ValidManifest(Latest(w).value)
  {
  }

  lemma HistoryIsValid(site: Site, w: World, m: Manifest)
    requires Inv(site, w) && m in w.history
    ensures ValidManifest(m)
  {
    assert PublishedOk(site, w, m);
  }

  /** The heights of a freshly published segment read as the blocks it was built from. */
  lemma NewReading(site: Site, v: World, s: Segment, bs: seq<Block>, h: int)
    requires GoodSite(site) && Inv(site, v) && CollisionFree(site.env.sha, v.bytes)
    requires Latest(v).Some? && Latest(v).value.segments != [] && Latest(v).value.segments[|Latest(v).value.segments| - 1] == s
    requires Covers(s, h) && (s, bs) in v.built
    ensures h - s.first < |bs| && Reading(site, v, h) == Some(bs[h - s.first]) && bs[h - s.first].header.height == h
  {
    hide GoodSite, CollisionFree, ReadArchive, Lookup, SharedOk, PublishedOk, ValidManifest, Describes;
    LatestIsOk(site, v);
    var m := Latest(v).value;
    KeptReads(site, v, m, h, |m.segments| - 1, bs);
    BuiltDescribes(site, v, s, bs);
    DescribedHeights(site.env, s, bs, h - s.first);
  }

  lemma BuiltDescribes(site: Site, w: World, s: Segment, bs: seq<Block>)
    requires SharedOk(site, w) && (s, bs) in w.built
    ensures Describes(site.env, s, bs)
  {
  }

  lemma DescribedHeights(env: Env, s: Segment, bs: seq<Block>, i: nat)
    requires Describes(env, s, bs) && i < |bs|
    ensures bs[i].header.height == s.first + i
  {
    var rs := RecordsOf(env, bs).value;
    AcceptedRecord(rs, |rs|, i);
    assert BlockToRecord(env, bs[i]) == Some(rs[i]);
  }

  /** What one publication does to the covered heights. */
  lemma PublishCovers(m: Manifest, g: Manifest, s: Segment, h: int)
    requires ValidManifest(m) && ValidManifest(g) && g.segments == m.segments + [s]
    ensures InRange(g, h) <==> InRange(m, h) || Covers(s, h)
  {
    assert g.segments[|m.segments|] == s;
    if m.segments != [] {
      assert g.segments[|m.segments| - 1] == m.segments[|m.segments| - 1] && g.segments[0] == m.segments[0];
      ValidRange(m);
      assert ValidSegment(s);
    }
  }

  // ---------------------------------------------------------------- one action at a time

  lemma ArrivalKeepsShape(c: Crypto, n: Node, b: Block)
    requires I.Sound(c, n.o, n.hot) && I.Submit(c, n.o, n.hot, Some(b)).Ok?
    ensures var hot := I.Submit(c, n.o, n.hot, Some(b)).value;
            && hot.pending == Some(b) && I.Sound(c, n.o, hot)
            && (n.hot.pending.None? ==> hot.store == n.hot.store && b.header.height == NextPersisted(n))
            && (n.hot.pending.Some? ==>
                  && b.header.height == NextPersisted(n) + 1
                  && forall h :: hot.store.Has(h) ==>
                       if h == NextPersisted(n) then hot.store.Load(h) == n.hot.pending
                       else n.hot.store.Has(h) && hot.store.Load(h) == n.hot.store.Load(h))
            && (forall h :: n.hot.store.Has(h) ==> hot.store.Has(h))
            && (n.hot.pending.Some? ==> hot.store.Has(NextPersisted(n)))
  {
    I.SubmitKeepsSound(c, n.o, n.hot, b);
    var held := I.Held(n.hot);
    if n.hot.pending.Some? {
      assert held[|held| - 1] == n.hot.pending.value;
      assert n.hot.store.blocks != [] ==> held[0] == n.hot.store.blocks[0];
    }
  }

  /** The pending block links to the last persisted one. */
  lemma PendingLinks(c: Crypto, n: Node)
    requires HotOk(c, n) && n.hot.pending.Some?
    ensures Hash(c, n.hot.pending.value) != ""
    ensures n.hot.store.blocks != [] ==>
              n.hot.store.Has(NextPersisted(n) - 1) && Linked(c, n.hot.store.Load(NextPersisted(n) - 1).value, n.hot.pending.value)
  {
    var held := I.Held(n.hot);
    var k := |n.hot.store.blocks|;
    assert held[k] == n.hot.pending.value && held[k] in held;
    if k > 0 {
      assert held[k - 1] == n.hot.store.blocks[k - 1] && held[0] == n.hot.store.blocks[0];
      assert Linked(c, held[k - 1], held[k]);
    }
  }

  lemma ArrivalKeepsChain(c: Crypto, n: Node, b: Block)
    requires HotOk(c, n) && Recorded(n) && RecordChain(c, n) && I.Submit(c, n.o, n.hot, Some(b)).Ok?
    ensures var t := AfterArrival(n, I.Submit(c, n.o, n.hot, Some(b)).value);
            HotOk(c, t) && Recorded(t) && RecordChain(c, t) && RecordGrows(n, t)
  {
    hide I.Sound, I.Submit, Linked, RecordChain, I.GoodOptions, Hash;
    ArrivalKeepsShape(c, n, b);
    BelowNext(c, n);
    var t := AfterArrival(n, I.Submit(c, n.o, n.hot, Some(b)).value);
    if n.hot.pending.Some? {
      PendingLinks(c, n);
      ChainGrows(c, n, t, n.hot.pending.value);
    } else {
      ChainStays(c, n, t);
    }
  }

  lemma BelowNext(c: Crypto, n: Node)
    requires RecordChain(c, n)
    ensures forall h :: h in n.persisted ==> h < NextPersisted(n)
  {
  }

  lemma ChainStays(c: Crypto, n: Node, t: Node)
    requires RecordChain(c, n) && t.persisted == n.persisted && t.hot.store == n.hot.store && NextPersisted(t) == NextPersisted(n)
    ensures RecordChain(c, t)
  {
    hide Linked;
  }

  lemma ChainGrows(c: Crypto, n: Node, t: Node, b: Block)
    requires RecordChain(c, n) && Recorded(n) && t.persisted == n.persisted[b.header.height := b] && t.hot.store.Has(b.header.height)
    requires b.header.height == NextPersisted(n) && NextPersisted(t) == NextPersisted(n) + 1 && Hash(c, b) != ""
    requires n.hot.store.blocks != [] ==> n.hot.store.Has(NextPersisted(n) - 1) && Linked(c, n.hot.store.Load(NextPersisted(n) - 1).value, b)
    ensures RecordChain(c, t)
  {
    hide Linked;
  }

  lemma ArrivalKeepsInv(site: Site, c: Crypto, base: World, n: Node, b: Block)
    requires NodeInv(site, c, base, n) && I.Submit(c, n.o, n.hot, Some(b)).Ok?
    ensures var t := AfterArrival(n, I.Submit(c, n.o, n.hot, Some(b)).value); NodeInv(site, c, base, t) && RecordGrows(n, t)
  {
    hide Inv, HotOk, RecordChain, Reading, I.Submit, Archived, Grows;
    ArrivalKeepsChain(c, n, b);
    var t := AfterArrival(n, I.Submit(c, n.o, n.hot, Some(b)).value);
    HotKeeps(c, n, b);
    OwnWriterLater(n, t);
  }

  lemma HotKeeps(c: Crypto, n: Node, b: Block)
    requires HotOk(c, n) && I.Submit(c, n.o, n.hot, Some(b)).Ok?
    ensures var t := AfterArrival(n, I.Submit(c, n.o, n.hot, Some(b)).value);
            && (forall h :: n.hot.store.Has(h) ==> t.hot.store.Has(h))
            && (forall h :: h in t.persisted ==> h in n.persisted || t.hot.store.Has(h))
  {
    ArrivalKeepsShape(c, n, b);
  }

  /** The record of persisted blocks only grows. */
  ghost predicate RecordGrows(n: Node, t: Node) {
    forall h :: h in n.persisted ==> h in t.persisted && t.persisted[h] == n.persisted[h]
  }

  lemma OwnWriterLater(n: Node, t: Node)
    requires OwnWriter(n) && RecordGrows(n, t) && t.world == n.world
    ensures OwnWriter(t)
  {
    forall id | id in t.world.writers ensures OwnJob(t, t.world.writers[id].job) { OwnJobLater(n, t, t.world.writers[id].job); }
  }

  lemma OwnJobLater(n: Node, t: Node, job: Job)
    requires OwnJob(n, job) && RecordGrows(n, t) && n.world.built <= t.world.built
    ensures OwnJob(t, job)
  {
    if job.Built? || job.Confirmed? {
      var bs :| (job.segment, bs) in n.world.built && FromRecord(n.persisted, bs);
      assert (job.segment, bs) in t.world.built && FromRecord(t.persisted, bs);
    }
  }

  lemma PruneKeepsInv(site: Site, c: Crypto, base: World, n: Node, retain: int, t: Node)
    requires NodeInv(site, c, base, n) && Step(site, c, n, PruneHot(retain), t)
    ensures NodeInv(site, c, base, t) && |t.hot.store.blocks| >= Min(|n.hot.store.blocks|, retain)
  {
    hide Reading, Inv, Pruned, Archived, Linked, I.Sound, Grows;
    PruneKeepsHot(site, c, n, retain, t);
    SnapshotIsCovered(site, n.world, n.snapshot.value);
    OwnWriterLater(n, t);
  }

  lemma PruneKeepsHot(site: Site, c: Crypto, n: Node, retain: int, t: Node)
    requires HotOk(c, n) && Step(site, c, n, PruneHot(retain), t)
    ensures HotOk(c, t) && NextPersisted(t) == NextPersisted(n) && |t.hot.store.blocks| >= Min(|n.hot.store.blocks|, retain)
    ensures n.hot.store.blocks != [] ==> t.hot.store.blocks != []
    ensures forall h :: t.hot.store.Has(h) ==> n.hot.store.Has(h) && t.hot.store.Load(h) == n.hot.store.Load(h)
    ensures forall h :: n.hot.store.Has(h) && !t.hot.store.Has(h) ==> n.snapshot.value.first <= h <= n.snapshot.value.last && h > 0
  {
    PruneIsPrune(site.env, c, n, n.snapshot.value, retain);
    assert retain > 0;
  }

  lemma PruneIsPrune(env: Env, c: Crypto, n: Node, m: Manifest, retain: int)
    requires I.Sound(c, n.o, n.hot) && Pruned(env, n.hot.store, m, retain).Some?
    ensures var t := Pruned(env, n.hot.store, m, retain).value;
            && I.Sound(c, n.o, n.hot.(store := t)) && t.Height() == n.hot.store.Height()
            && (forall h :: n.hot.store.Has(h) ==> h > 0)
            && (forall h :: t.Has(h) ==> n.hot.store.Has(h) && t.Load(h) == n.hot.store.Load(h))
            && (forall h :: n.hot.store.Has(h) && !t.Has(h) ==> m.first <= h <= m.last)
            && |t.blocks| >= Min(|n.hot.store.blocks|, retain)
  {
    PruneIsCovered(env, n.hot.store, m, retain);
    var t := Pruned(env, n.hot.store, m, retain).value;
    if t != n.hot.store { K.PruneKeepsSound(c, n.o, n.hot, t.base); }
  }

  /** A published manifest's heights are still covered by the latest one. */
  lemma SnapshotIsCovered(site: Site, w: World, m: Manifest)
    requires Inv(site, w) && m in w.history
    ensures forall h :: m.first <= h <= m.last && h > 0 ==> Archived(w, h)
  {
    var i :| 0 <= i < |w.history| && w.history[i] == m;
    LaterExtends(site, w, i, |w.history| - 1);
    assert PublishedOk(site, w, m);
  }

  lemma SnapshotKeepsInv(site: Site, c: Crypto, base: World, n: Node, t: Node)
    requires GoodSite(site) && NodeInv(site, c, base, n) && Step(site, c, n, TakeSnapshot, t)
    ensures NodeInv(site, c, base, t)
  {
    hide Reading, Archived, HotOk, RecordChain, LoadManifest, V.AllVerify, Grows;
    LoadedIsLatest(site, n.world);
    ChainSame(c, n, t);
    OwnWriterLater(n, t);
  }

  /** Any step other than a successful publication leaves the published manifest alone. */
  lemma QuietStep(site: Site, n: Node, e: Event, v: World)
    requires OwnWriter(n) && e.id == NODE && !e.StartMigration? && Apply(site, n.world, e) == Some(v)
    ensures !e.Publish? ==> v.history == n.world.history
    ensures e.Publish? && v.history != n.world.history ==>
              e.id in n.world.writers && n.world.writers[e.id].Live? && n.world.writers[e.id].job.Confirmed?
  {
    hide ValidManifest, Append, Stored, BuildSegment;
  }

  lemma OwnAfterStep(site: Site, n: Node, e: Event, t: Node)
    requires OwnWriter(n) && Recorded(n) && e.id == NODE && !e.StartMigration? && (e.Build? ==> FromHot(n, e.blocks))
    requires Apply(site, n.world, e) == Some(t.world) && t == n.(world := t.world) && n.world.built <= t.world.built
    ensures OwnWriter(t)
  {
    hide ValidManifest, Append, Stored, BuildSegment, NewManifest;
    if NODE in t.world.writers {
      var x := t.world.writers[NODE];
      if e.Build? {
        assert FromRecord(n.persisted, e.blocks);
        assert (x.job.segment, e.blocks) in t.world.built;
      } else if NODE in n.world.writers {
        var y := n.world.writers[NODE];
        OwnJobLater(n, t, y.job);
        assert x.job.Confirmed? ==> x.job.segment == y.job.segment;
      }
    }
  }

  /** The archive gained the segment `s`, built from blocks the node had persisted. */
  ghost predicate GainedSegment(n: Node, v: World, s: Segment, bs: seq<Block>) {
    && Latest(v).Some? && (s, bs) in v.built && FromRecord(n.persisted, bs)
    && Latest(v).value.segments == (if Latest(n.world).Some? then Latest(n.world).value.segments else []) + [s]
  }

  lemma GainedHeights(site: Site, n: Node, v: World, s: Segment, bs: seq<Block>, h: int)
    requires GoodSite(site) && Inv(site, n.world) && Inv(site, v) && CollisionFree(site.env.sha, v.bytes)
    requires GainedSegment(n, v, s, bs)
    ensures Archived(v, h) <==> Archived(n.world, h) || Covers(s, h)
    ensures Covers(s, h) ==> h in n.persisted && Reading(site, v, h) == Some(n.persisted[h])
  {
    hide GoodSite, CollisionFree, Reading, SharedOk, ValidManifest;
    LatestIsOk(site, v);
    var m := if Latest(n.world).Some? then Latest(n.world).value else EmptyManifest(Latest(v).value.chainID);
    if Latest(n.world).Some? { LatestIsOk(site, n.world); } else { EmptyIsValid(Latest(v).value); }
    PublishCovers(m, Latest(v).value, s, h);
    if Covers(s, h) {
      NewReading(site, v, s, bs, h);
      assert bs[h - s.first] in bs;
    }
  }

  lemma EmptyIsValid(m: Manifest)
    requires ValidManifest(m)
    ensures ValidManifest(EmptyManifest(m.chainID))
  {
  }

  /** Where the archive gained a segment, the old heights read as before and the new ones as persisted. */
  lemma GainAppends(site: Site, c: Crypto, base: World, n: Node, t: Node, s: Segment, bs: seq<Block>)
    requires GoodSite(site) && Inv(site, n.world) && Inv(site, t.world) && Grows(site, n.world, t.world)
    requires CollisionFree(site.env.sha, t.world.bytes) && Appended(site, base, n) && Covered(n) && t == n.(world := t.world)
    requires GainedSegment(n, t.world, s, bs)
    ensures Appended(site, base, t) && Covered(t)
  {
    hide GoodSite, CollisionFree, Reading, Inv, Archived, Covers, FromRecord, Grows;
    forall h ensures Archived(t.world, h) <==> Archived(n.world, h) || Covers(s, h)
             ensures Covers(s, h) ==> h in n.persisted && Reading(site, t.world, h) == Some(n.persisted[h])
    {
      GainedHeights(site, n, t.world, s, bs, h);
    }
    forall h | Archived(n.world, h) ensures Reading(site, t.world, h) == Reading(site, n.world, h) {
      ArchivedHas(n.world, h);
      ReadingStays(site, n.world, t.world, h);
    }
    forall h | Archived(base, h) ensures Archived(t.world, h) && Reading(site, t.world, h) == Reading(site, base, h) {
      assert Archived(n.world, h);
    }
  }

  lemma ArchivedHas(w: World, h: int)
    requires Archived(w, h)
    ensures Latest(w).Some?
  {
  }

  lemma QuietAppends(site: Site, base: World, n: Node, t: Node)
    requires GoodSite(site) && Inv(site, n.world) && Inv(site, t.world) && Grows(site, n.world, t.world)
    requires CollisionFree(site.env.sha, t.world.bytes) && Appended(site, base, n) && Covered(n) && t == n.(world := t.world)
    requires t.world.history == n.world.history
    ensures Appended(site, base, t) && Covered(t)
  {
    hide GoodSite, CollisionFree, Reading, Inv, Grows;
    assert Latest(t.world) == Latest(n.world);
    assert forall h :: Archived(t.world, h) <==> Archived(n.world, h);
    forall h | Archived(n.world, h) ensures Reading(site, t.world, h) == Reading(site, n.world, h) {
      ReadingStays(site, n.world, t.world, h);
    }
  }

  lemma PublishGains(site: Site, n: Node, e: Event, v: World) returns (s: Segment, bs: seq<Block>)
    requires GoodSite(site) && Inv(site, n.world) && CollisionFree(site.env.sha, v.bytes) && OwnWriter(n)
    requires e.Publish? && e.id == NODE && Apply(site, n.world, e) == Some(v) && v.history != n.world.history
    requires Grows(site, n.world, v)
    ensures GainedSegment(n, v, s, bs)
  {
    hide GoodSite, CollisionFree, Inv, Apply, Grows;
    QuietStep(site, n, e, v);
    FewerBytes(site, n.world, v);
    PublicationStep(site, n.world, e, v);
    s := n.world.writers[e.id].job.segment;
    bs :| (s, bs) in n.world.built && FromRecord(n.persisted, bs);
    assert (s, bs) in v.built by { BuiltGrows(site, n.world, v); }
  }

  lemma BuiltGrows(site: Site, w: World, v: World)
    requires Grows(site, w, v)
    ensures w.built <= v.built && w.history <= v.history && w.bytes <= v.bytes
  {
  }

  lemma ArchiveKeepsInv(site: Site, c: Crypto, base: World, n: Node, e: Event, t: Node)
    requires GoodSite(site) && NodeInv(site, c, base, n) && Step(site, c, n, Archive(e), t) && CollisionFree(site.env.sha, t.world.bytes)
    ensures NodeInv(site, c, base, t)
  {
    hide GoodSite, CollisionFree, Inv, Apply, Grows, OwnWriter, Appended, Covered, HotOk, RecordChain;
    BytesOnlyGrow(site, n.world, e, t.world);
    FewerCollide(site.env.sha, n.world.bytes, t.world.bytes);
    StepKeepsInv(site, n.world, e, t.world);
    BuiltGrows(site, n.world, t.world);
    GrowsStill(site, base, n.world, t.world);
    OwnAfterStep(site, n, e, t);
    ChainSame(c, n, t);
    if t.world.history == n.world.history {
      QuietAppends(site, base, n, t);
    } else {
      QuietStep(site, n, e, t.world);
      var s, bs := PublishGains(site, n, e, t.world);
      GainAppends(site, c, base, n, t, s, bs);
    }
    if n.snapshot.Some? {
      var i :| 0 <= i < |n.world.history| && n.world.history[i] == n.snapshot.value;
      assert t.world.history[i] == n.snapshot.value;
    }
  }

  lemma GrowsStill(site: Site, w: World, v: World, x: World)
    requires Grows(site, w, v) && Grows(site, v, x)
    ensures Grows(site, w, x)
  {
  }

  lemma ChainSame(c: Crypto, n: Node, t: Node)
    requires t.o == n.o && t.hot == n.hot && t.persisted == n.persisted && HotOk(c, n) && RecordChain(c, n)
    ensures HotOk(c, t) && RecordChain(c, t)
  {
  }

  lemma FewerCollide(sha: Bytes -> string, a: set<Bytes>, b: set<Bytes>)
    requires a <= b && CollisionFree(sha, b)
    ensures CollisionFree(sha, a)
  {
  }

  lemma RestartKeepsInv(site: Site, c: Crypto, base: World, n: Node, t: Node)
    requires NodeInv(site, c, base, n) && Step(site, c, n, Restart, t)
    ensures NodeInv(site, c, base, t)
  {
    hide Reading, I.Sound, I.Recovers, LoadManifest, SharedOk, Archived, Linked, Grows;
    SharedSame(site, n.world, t.world);
    GrowsStill(site, base, n.world, t.world);
    RestartHot(c, n, t);
    if n.hot.store.blocks != [] { ResumesAt(c, n, t); }
    SameReading(site, n.world, t.world);
  }

  lemma SameReading(site: Site, w: World, v: World)
    requires v == w.(writers := v.writers)
    ensures forall h :: Reading(site, v, h) == Reading(site, w, h) && (Archived(v, h) <==> Archived(w, h))
  {
  }

  lemma RestartHot(c: Crypto, n: Node, t: Node)
    requires I.GoodOptions(n.o) && I.Sound(c, n.o, n.hot)
    requires t.o == n.o.(startHeight := t.o.startHeight) && t.hot == I.State(n.hot.store, None, t.hot.verified)
    requires I.Recovers(c, t.o, n.hot.store, Some(t.hot.verified))
    ensures I.GoodOptions(t.o) && I.Sound(c, t.o, t.hot)
  {
    RecoversSame(c, n.o, t.o, n.hot.store, t.hot.verified);
    K.RestartOutcome(c, n.o, n.hot, t.hot.verified);
    assert I.Sound(c, n.o, t.hot);
  }

  /** Recovery does not look at the start height. */
  lemma RecoversSame(c: Crypto, o: I.Options, p: I.Options, st: Store, v: int)
    requires p == o.(startHeight := p.startHeight) && I.Recovers(c, p, st, Some(v))
    ensures I.Recovers(c, o, st, Some(v))
  {
    if o.mode.Checkpoint? {
      var top :| I.IsTopCheckpoint(p, st, top) && I.RecoversAt(c, p, st, top, Some(v));
      assert forall h :: I.Retained(o, st, h) <==> I.Retained(p, st, h);
      assert I.IsTopCheckpoint(o, st, top) && I.RecoversAt(c, o, st, top, Some(v));
    }
  }

  lemma ResumesAt(c: Crypto, n: Node, t: Node)
    requires I.Sound(c, n.o, n.hot) && n.hot.store.blocks != [] && t.hot.store == n.hot.store && t.hot.pending.None?
    ensures NextPersisted(t) == NextPersisted(n)
  {
    var held := I.Held(n.hot);
    if n.hot.pending.Some? { assert held[|held| - 1] == n.hot.pending.value; }
  }

  lemma EmptyOrPositive(m: Manifest)
    requires ValidManifest(m)
    ensures m.segments != [] ==> 0 < m.first <= m.last
  {
    if m.segments != [] { ValidRange(m); }
  }

  /**
   Every arrival, archiver step, snapshot, prune and restart keeps each persisted height
   hot or archived, and the record of what was persisted unchanged.
   */
  lemma StepKeepsNode(site: Site, c: Crypto, base: World, n: Node, a: Action, t: Node)
    requires GoodSite(site) && NodeInv(site, c, base, n) && Step(site, c, n, a, t) && CollisionFree(site.env.sha, t.world.bytes)
    ensures NodeInv(site, c, base, t) && RecordGrows(n, t)
  {
    match a
    case Arrive(b) =>
      if I.Submit(c, n.o, n.hot, b).Ok? { ArrivalKeepsInv(site, c, base, n, b.value); }
    case Archive(e) => ArchiveKeepsInv(site, c, base, n, e, t);
    case TakeSnapshot => SnapshotKeepsInv(site, c, base, n, t);
    case PruneHot(retain) => PruneKeepsInv(site, c, base, n, retain, t);
    case Restart => RestartKeepsInv(site, c, base, n, t);
  }

  // ---------------------------------------------------------------- whole runs

  ghost predicate NodeRun(site: Site, c: Crypto, ns: seq<Node>, acts: seq<Action>) {
    && |ns| == |acts| + 1
    && forall i :: 0 <= i < |acts| ==> Step(site, c, ns[i], acts[i], ns[i + 1])
  }

  /** The node starts idle, with any sound hot store and any published archive. */
  ghost predicate StartsIdle(site: Site, c: Crypto, n: Node) {
    && Inv(site, n.world) && (forall id :: id !in n.world.writers)
    && HotOk(c, n) && n.hot.pending.None? && n.snapshot.None?
    && (forall h :: h in n.persisted <==> n.hot.store.Has(h))
    && (forall h :: h in n.persisted ==> n.hot.store.Load(h) == Some(n.persisted[h]))
  }

  lemma StartIsKept(site: Site, c: Crypto, n: Node)
    requires StartsIdle(site, c, n)
    ensures NodeInv(site, c, n.world, n)
  {
    hide Inv, Reading, Archived, Linked;
    StartChain(c, n);
  }

  lemma StartChain(c: Crypto, n: Node)
    requires HotOk(c, n) && n.hot.pending.None? && Recorded(n) && forall h :: h in n.persisted <==> n.hot.store.Has(h)
    ensures RecordChain(c, n)
  {
    var bs := n.hot.store.blocks;
    assert I.Held(n.hot) == bs;
    assert forall i :: 0 <= i < |bs| ==> bs[i] in bs;
    forall h, g | h in n.persisted && g == h + 1 && g < NextPersisted(n) ensures g in n.persisted && Linked(c, n.persisted[h], n.persisted[g]) {
      assert Linked(c, bs[h - n.hot.store.base], bs[g - n.hot.store.base]);
    }
  }

  lemma StepBytes(site: Site, c: Crypto, n: Node, a: Action, t: Node)
    requires Step(site, c, n, a, t)
    ensures n.world.bytes <= t.world.bytes
  {
    hide Apply;
    if a.Archive? { BytesOnlyGrow(site, n.world, a.step, t.world); }
  }

  lemma {:induction false} RunKeepsNode(site: Site, c: Crypto, base: World, ns: seq<Node>, acts: seq<Action>, i: nat, k: nat)
    requires GoodSite(site) && NodeRun(site, c, ns, acts) && i <= k < |ns| && NodeInv(site, c, base, ns[i])
    requires CollisionFree(site.env.sha, ns[k].world.bytes)
    ensures NodeInv(site, c, base, ns[k]) && RecordGrows(ns[i], ns[k])
    decreases k
  {
    hide GoodSite, NodeInv, Step, CollisionFree;
    if i < k {
      assert Step(site, c, ns[k - 1], acts[k - 1], ns[k]);
      StepBytes(site, c, ns[k - 1], acts[k - 1], ns[k]);
      FewerCollide(site.env.sha, ns[k - 1].world.bytes, ns[k].world.bytes);
      RunKeepsNode(site, c, base, ns, acts, i, k - 1);
      StepKeepsNode(site, c, base, ns[k - 1], acts[k - 1], ns[k]);
    }
  }

  lemma {:induction false} RunFewer(site: Site, c: Crypto, ns: seq<Node>, acts: seq<Action>, i: nat, k: nat)
    requires NodeRun(site, c, ns, acts) && i <= k < |ns| && CollisionFree(site.env.sha, ns[k].world.bytes)
    ensures CollisionFree(site.env.sha, ns[i].world.bytes)
    decreases k
  {
    hide Step, CollisionFree;
    if i < k {
      StepBytes(site, c, ns[k - 1], acts[k - 1], ns[k]);
      FewerCollide(site.env.sha, ns[k - 1].world.bytes, ns[k].world.bytes);
      RunFewer(site, c, ns, acts, i, k - 1);
    }
  }

  /** What any two states of a run have in common. */
  lemma RunKeeps(site: Site, c: Crypto, ns: seq<Node>, acts: seq<Action>, i: nat, k: nat)
    requires GoodSite(site) && NodeRun(site, c, ns, acts) && StartsIdle(site, c, ns[0]) && i <= k < |ns|
    requires CollisionFree(site.env.sha, ns[k].world.bytes)
    ensures NodeInv(site, c, ns[0].world, ns[i]) && NodeInv(site, c, ns[0].world, ns[k]) && RecordGrows(ns[i], ns[k])
    ensures CollisionFree(site.env.sha, ns[i].world.bytes)
  {
    hide GoodSite, NodeInv, Step, CollisionFree, StartsIdle;
    StartIsKept(site, c, ns[0]);
    RunFewer(site, c, ns, acts, i, k);
    RunKeepsNode(site, c, ns[0].world, ns, acts, 0, i);
    RunKeepsNode(site, c, ns[0].world, ns, acts, i, k);
  }

  /** Every prune in a run leaves exactly the blocks to retain and those above the archive, and nothing below them. */
  lemma PruneRetains(site: Site, c: Crypto, ns: seq<Node>, acts: seq<Action>, k: nat)
    requires GoodSite(site) && NodeRun(site, c, ns, acts) && StartsIdle(site, c, ns[0]) && k < |acts| && acts[k].PruneHot?
    requires CollisionFree(site.env.sha, ns[k].world.bytes)
    ensures ns[k].snapshot.Some?
    ensures |ns[k + 1].hot.store.blocks| == Min(|ns[k].hot.store.blocks|, ToKeep(ns[k].hot.store, ns[k].snapshot.value, acts[k].retain))
  {
    hide GoodSite, CollisionFree, StartsIdle, Inv, Appended, RecordChain, Grows, Pruned, I.GoodOptions;
    RunKeeps(site, c, ns, acts, k, k);
    assert Step(site, c, ns[k], acts[k], ns[k + 1]);
    assert ValidManifest(ns[k].snapshot.value) by { HistoryIsValid(site, ns[k].world, ns[k].snapshot.value); }
    PruneIsExact(site.env, ns[k].hot.store, ns[k].snapshot.value, acts[k].retain);
  }
}
