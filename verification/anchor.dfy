/** What checkpoint mode makes of the archive: every height a node publishes is anchored. */
module Anchors {
  import opened Common
  import opened Chain
  import opened Manifests
  import opened Segments
  import opened ObjectStores
  import opened Publication
  import opened Nodes
  import Pruning
  import I = Ingest
  import K = Checkpoints
  import V = Verification

  /** The persisted block at `h` is hash-linked to a trusted checkpoint. */
  ghost predicate Vetted(c: Crypto, n: Node, h: int) { h in n.persisted && K.Anchored(c, n.o, n.persisted[h]) }

  /** Everything archived since `base`, and everything about to be, is vetted. */
  ghost predicate AllVetted(c: Crypto, base: World, n: Node) {
    && (forall h :: Archived(n.world, h) && !Archived(base, h) ==> Vetted(c, n, h))
    && (NODE in n.world.writers ==> JobVetted(c, n, n.world.writers[NODE].job))
  }

  ghost predicate JobVetted(c: Crypto, n: Node, job: Job) {
    job.Built? || job.Confirmed? ==> forall h :: Covers(job.segment, h) ==> Vetted(c, n, h)
  }

  lemma AnchoredSame(c: Crypto, o: I.Options, p: I.Options, b: Block)
    requires p.checkpoints == o.checkpoints && K.Anchored(c, o, b)
    ensures K.Anchored(c, p, b)
  {
    var path, top :| K.AnchorPath(c, o, path, b, top) && K.MatchesAll(c, o, path);
    assert K.AnchorPath(c, p, path, b, top) && K.MatchesAll(c, p, path);
  }

  lemma VettedLater(c: Crypto, n: Node, t: Node, h: int)
    requires Vetted(c, n, h) && RecordGrows(n, t) && t.o.checkpoints == n.o.checkpoints
    ensures Vetted(c, t, h)
  {
    AnchoredSame(c, n.o, t.o, n.persisted[h]);
  }

  /** A hot block the archiver may take is anchored. */
  lemma HotIsAnchored(c: Crypto, n: Node, b: Block)
    requires I.Sound(c, n.o, n.hot) && n.o.mode.Checkpoint? && n.hot.store.Load(b.header.height) == Some(b)
    requires b.header.height <= n.hot.verified
    ensures K.Anchored(c, n.o, b)
  {
    var i := b.header.height - n.hot.store.base;
    assert I.Held(n.hot)[i] == b;
    K.HeldIsAnchored(c, n.o, n.hot, i, n.hot.verified);
  }

  lemma BuiltIsVetted(site: Site, c: Crypto, n: Node, s: Segment, bs: seq<Block>, h: int)
    requires I.Sound(c, n.o, n.hot) && Recorded(n) && n.o.mode.Checkpoint? && FromHot(n, bs)
    requires Describes(site.env, s, bs) && Covers(s, h)
    ensures Vetted(c, n, h)
  {
    hide I.Sound, K.Anchored, Describes;
    DescribedRange(site.env, s, bs);
    DescribedHeights(site.env, s, bs, h - s.first);
    var b := bs[h - s.first];
    assert b in bs;
    HotIsAnchored(c, n, b);
  }

  lemma DescribedRange(env: Env, s: Segment, bs: seq<Block>)
    requires Describes(env, s, bs)
    ensures |bs| == s.last - s.first + 1
  {
    IndexIsValid(RecordsOf(env, bs).value);
  }

  lemma JobStaysVetted(c: Crypto, n: Node, t: Node, job: Job)
    requires JobVetted(c, n, job) && RecordGrows(n, t) && t.o.checkpoints == n.o.checkpoints
    ensures JobVetted(c, t, job)
  {
    if job.Built? || job.Confirmed? {
      forall h | Covers(job.segment, h) ensures Vetted(c, t, h) { VettedLater(c, n, t, h); }
    }
  }

  /** What a step of the archiver leaves of its job. */
  lemma JobAfter(site: Site, n: Node, e: Event, v: World)
    requires OwnWriter(n) && e.id == NODE && !e.StartMigration? && Apply(site, n.world, e) == Some(v) && NODE in v.writers
    ensures var job := v.writers[NODE].job;
            || !(job.Built? || job.Confirmed?)
            || (e.Build? && job.Built? && (job.segment, e.blocks) in v.built)
            || (NODE in n.world.writers && var before := n.world.writers[NODE].job; (before.Built? || before.Confirmed?) && before.segment == job.segment)
  {
    hide ValidManifest, Append, Stored, BuildSegment, NewManifest;
  }

  lemma ArchiveKeepsVetted(site: Site, c: Crypto, base: World, n: Node, e: Event, t: Node)
    requires GoodSite(site) && NodeInv(site, c, base, n) && NodeInv(site, c, base, t) && n.o.mode.Checkpoint? && AllVetted(c, base, n)
    requires Step(site, c, n, Archive(e), t) && CollisionFree(site.env.sha, t.world.bytes)
    ensures AllVetted(c, base, t)
  {
    hide GoodSite, CollisionFree, Apply, K.Anchored, I.Sound, Reading, Archived, OwnWriter, Describes, Grows, Appended, Covered, RecordChain;
    if NODE in t.world.writers {
      var job := t.world.writers[NODE].job;
      JobAfter(site, n, e, t.world);
      if (job.Built? || job.Confirmed?) && e.Build? && (job.segment, e.blocks) in t.world.built {
        BuiltDescribes(site, t.world, job.segment, e.blocks);
        forall h | Covers(job.segment, h) ensures Vetted(c, t, h) { BuiltIsVetted(site, c, n, job.segment, e.blocks, h); }
      }
    }
    forall h | Archived(t.world, h) && !Archived(base, h) ensures Vetted(c, t, h) {
      ArchivedIsVetted(site, c, base, n, e, t, h);
    }
  }

  lemma ArchivedIsVetted(site: Site, c: Crypto, base: World, n: Node, e: Event, t: Node, h: int)
    requires GoodSite(site) && NodeInv(site, c, base, n) && NodeInv(site, c, base, t) && AllVetted(c, base, n)
    requires Step(site, c, n, Archive(e), t) && CollisionFree(site.env.sha, t.world.bytes)
    requires Archived(t.world, h) && !Archived(base, h)
    ensures Vetted(c, t, h)
  {
    hide GoodSite, CollisionFree, Apply, K.Anchored, Reading, OwnWriter, Inv, Grows, Appended, Covered, HotOk, RecordChain, Recorded;
    QuietStep(site, n, e, t.world);
    if t.world.history == n.world.history {
      assert Archived(n.world, h);
    } else {
      BytesOnlyGrow(site, n.world, e, t.world);
      FewerCollide(site.env.sha, n.world.bytes, t.world.bytes);
      StepKeepsInv(site, n.world, e, t.world);
      var s, bs := PublishGains(site, n, e, t.world);
      GainedHeights(site, n, t.world, s, bs, h);
      PublishedJob(site, n, e, t.world, s, bs);
    }
  }

  lemma PublishedJob(site: Site, n: Node, e: Event, v: World, s: Segment, bs: seq<Block>)
    requires GoodSite(site) && Inv(site, n.world) && OwnWriter(n) && CollisionFree(site.env.sha, n.world.bytes)
    requires e.Publish? && e.id == NODE && Apply(site, n.world, e) == Some(v) && v.history != n.world.history
    requires GainedSegment(n, v, s, bs)
    ensures NODE in n.world.writers && n.world.writers[NODE].job == Confirmed(s)
  {
    hide GoodSite, Inv, CollisionFree, Apply;
    QuietStep(site, n, e, v);
    PublicationStep(site, n.world, e, v);
    var segs := Latest(v).value.segments;
    assert segs[|segs| - 1] == s;
  }

  lemma StepKeepsVetted(site: Site, c: Crypto, base: World, n: Node, a: Action, t: Node)
    requires GoodSite(site) && NodeInv(site, c, base, n) && Step(site, c, n, a, t) && CollisionFree(site.env.sha, t.world.bytes)
    requires n.o.mode.Checkpoint? && AllVetted(c, base, n)
    ensures AllVetted(c, base, t) && t.o.mode.Checkpoint? && t.o.checkpoints == n.o.checkpoints
  {
    hide GoodSite, CollisionFree, NodeInv, Apply, Vetted, I.Submit, Pruning.Pruned, V.AllVerify, I.Recovers, LoadManifest;
    StepKeepsNode(site, c, base, n, a, t);
    if a.Archive? {
      ArchiveKeepsVetted(site, c, base, n, a.step, t);
    } else {
      assert t.world.history == n.world.history && t.o.checkpoints == n.o.checkpoints;
      assert forall h :: Archived(t.world, h) <==> Archived(n.world, h);
      forall h | Archived(t.world, h) && !Archived(base, h) ensures Vetted(c, t, h) { VettedLater(c, n, t, h); }
      if NODE in t.world.writers { JobStaysVetted(c, n, t, n.world.writers[NODE].job); }
    }
  }

  lemma StartIsVetted(site: Site, c: Crypto, n: Node)
    requires StartsIdle(site, c, n)
    ensures AllVetted(c, n.world, n)
  {
    hide Inv, HotOk;
  }

  lemma {:induction false} RunKeepsVetted(site: Site, c: Crypto, ns: seq<Node>, acts: seq<Action>, k: nat)
    requires GoodSite(site) && NodeRun(site, c, ns, acts) && StartsIdle(site, c, ns[0]) && ns[0].o.mode.Checkpoint? && k < |ns|
    requires CollisionFree(site.env.sha, ns[k].world.bytes)
    ensures AllVetted(c, ns[0].world, ns[k]) && ns[k].o.mode.Checkpoint? && ns[k].o.checkpoints == ns[0].o.checkpoints
    decreases k
  {
    hide GoodSite, CollisionFree, NodeInv, Step, AllVetted, StartsIdle;
    if k == 0 {
      StartIsVetted(site, c, ns[0]);
    } else {
      RunKeeps(site, c, ns, acts, k - 1, k);
      RunKeepsVetted(site, c, ns, acts, k - 1);
      assert Step(site, c, ns[k - 1], acts[k - 1], ns[k]);
      StepKeepsVetted(site, c, ns[0].world, ns[k - 1], acts[k - 1], ns[k]);
    }
  }

  /** At step `k` the archive has a height that it did not have at the start. */
  ghost predicate Added(ns: seq<Node>, k: nat, h: int)
    requires k < |ns|
  {
    Archived(ns[k].world, h) && !Archived(ns[0].world, h)
  }

  /**
   In checkpoint mode, every height the node adds to the archive reads back as a block of
   that height which is hash-linked to a trusted checkpoint.
   */
  lemma PublishedIsAnchored(site: Site, c: Crypto, ns: seq<Node>, acts: seq<Action>, k: nat, h: int)
    requires GoodSite(site) && NodeRun(site, c, ns, acts) && StartsIdle(site, c, ns[0]) && ns[0].o.mode.Checkpoint? && k < |ns|
    requires CollisionFree(site.env.sha, ns[k].world.bytes) && Added(ns, k, h)
    ensures Reading(site, ns[k].world, h).Some? && Reading(site, ns[k].world, h).value.header.height == h
    ensures K.Anchored(c, ns[0].o, Reading(site, ns[k].world, h).value)
  {
    hide GoodSite, CollisionFree, Step, K.Anchored, Reading, Archived, Inv, Grows, HotOk, StartsIdle;
    RunKeeps(site, c, ns, acts, k, k);
    RunKeepsVetted(site, c, ns, acts, k);
    AnchoredSame(c, ns[k].o, ns[0].o, ns[k].persisted[h]);
  }

  /**
   Two nodes that trust the same checkpoints, on any two archives, publish the same header
   at every height both add, unless the header hash collides between that height and a
   checkpoint above it.
   */
  lemma NodesPublishAlike(site: Site, c: Crypto, ns: seq<Node>, acts: seq<Action>, k: nat, site': Site, ms: seq<Node>, acts': seq<Action>, l: nat, h: int)
    returns (x: seq<Block>, y: seq<Block>, top: int)
    requires GoodSite(site) && NodeRun(site, c, ns, acts) && StartsIdle(site, c, ns[0]) && ns[0].o.mode.Checkpoint? && k < |ns|
    requires GoodSite(site') && NodeRun(site', c, ms, acts') && StartsIdle(site', c, ms[0]) && ms[0].o.mode.Checkpoint? && l < |ms|
    requires CollisionFree(site.env.sha, ns[k].world.bytes) && CollisionFree(site'.env.sha, ms[l].world.bytes)
    requires ns[0].o.checkpoints == ms[0].o.checkpoints && Added(ns, k, h) && Added(ms, l, h)
    ensures Reading(site, ns[k].world, h).Some? && Reading(site', ms[l].world, h).Some?
    ensures K.AnchorPath(c, ns[0].o, x, Reading(site, ns[k].world, h).value, top) && K.AnchorPath(c, ns[0].o, y, Reading(site', ms[l].world, h).value, top)
    ensures NoCollision(c, x + y) ==> Reading(site, ns[k].world, h).value.header == Reading(site', ms[l].world, h).value.header
  {
    hide GoodSite, CollisionFree, NodeRun, K.Anchored, K.AnchorPath, NoCollision, Reading, Added, StartsIdle;
    PublishedIsAnchored(site, c, ns, acts, k, h);
    PublishedIsAnchored(site', c, ms, acts', l, h);
    AnchoredSame(c, ms[0].o, ns[0].o, Reading(site', ms[l].world, h).value);
    x, y, top := K.AnchoredAgree(c, ns[0].o, Reading(site, ns[k].world, h).value, Reading(site', ms[l].world, h).value);
  }
}
