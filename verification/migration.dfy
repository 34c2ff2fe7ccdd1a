/**
 Resumable migration: however often it is interrupted, and whoever else runs it at the
 same time, what it finally publishes is fixed by its source and its options.
 */
module Migrations {
  import opened Common
  import opened Chain
  import opened Manifests
  import opened Segments
  import opened ObjectStores
  import opened Publication
  import opened Archiver
  import Keys

  ghost predicate GoodMigration(j: Migration) {
    ValidChainID(j.chainID) && 0 < j.start <= j.end && j.n > 0 && GoodReader(Reader(0, 0, j.load, None))
  }

  /** The segment that starts at `h`. */
  ghost function SegmentFor(site: Site, j: Migration, h: int): Option<Segment> {
    var bs := Slice(j.load, h, LastOf(j, h));
    var p := if bs.Some? then BuildSegment(site, j.chainID, bs.value, j.compression) else None;
    if p.Some? then Some(p.value.0) else None
  }

  /** Starting at `h`, the migration builds exactly `segs` and then stands at `next`. */
  ghost predicate Builds(site: Site, j: Migration, h: int, segs: seq<Segment>, next: int)
    decreases |segs|
  {
    if segs == [] then next == h
    else h <= j.end && SegmentFor(site, j, h) == Some(segs[0]) && Builds(site, j, LastOf(j, h) + 1, segs[1..], next)
  }

  lemma {:induction false} BuildsOneMore(site: Site, j: Migration, h: int, segs: seq<Segment>, next: int, s: Segment)
    requires Builds(site, j, h, segs, next) && next <= j.end && SegmentFor(site, j, next) == Some(s)
    ensures Builds(site, j, h, segs + [s], LastOf(j, next) + 1)
    decreases |segs|
  {
    hide SegmentFor, LastOf;
    if segs == [] {
      assert (segs + [s])[1..] == [];
    } else {
      BuildsOneMore(site, j, LastOf(j, h) + 1, segs[1..], next, s);
      assert (segs + [s])[1..] == segs[1..] + [s];
    }
  }

  /** The source and the options leave no choice. */
  lemma {:induction false} BuildsIsUnique(site: Site, j: Migration, h: int, a: seq<Segment>, b: seq<Segment>)
    requires j.n > 0 && Builds(site, j, h, a, j.end + 1) && Builds(site, j, h, b, j.end + 1)
    ensures a == b
    decreases |a|
  {
    hide SegmentFor;
    if a != [] && b != [] {
      BuildsIsUnique(site, j, LastOf(j, h) + 1, a[1..], b[1..]);
      assert a == [a[0]] + a[1..] && b == [b[0]] + b[1..];
    }
  }

  lemma {:induction false} BuildsThen(site: Site, j: Migration, h: int, a: seq<Segment>, mid: int, b: seq<Segment>, next: int)
    requires Builds(site, j, h, a, mid) && Builds(site, j, mid, b, next)
    ensures Builds(site, j, h, a + b, next)
    decreases |a|
  {
    hide SegmentFor, LastOf;
    if a == [] {
      assert a + b == b;
    } else {
      BuildsThen(site, j, LastOf(j, h) + 1, a[1..], mid, b, next);
      assert (a + b)[1..] == a[1..] + b;
    }
  }

  lemma SegmentForRange(site: Site, j: Migration, h: int)
    requires GoodMigration(j) && h <= j.end && SegmentFor(site, j, h).Some?
    ensures var s := SegmentFor(site, j, h).value; s.first == h && s.last == LastOf(j, h)
  {
    var bs := Slice(j.load, h, LastOf(j, h)).value;
    var rs := RecordsOf(site.env, bs).value;
    assert BlockToRecord(site.env, bs[0]) == Some(rs[0]);
    assert BlockToRecord(site.env, bs[|bs| - 1]) == Some(rs[|rs| - 1]);
  }

  /** The plan in closed form: every segment but the last has `n` blocks, and each has exactly the source's. */
  lemma {:induction false} PlanInClosedForm(site: Site, j: Migration, h: int, segs: seq<Segment>, next: int, i: nat)
    requires GoodMigration(j) && Builds(site, j, h, segs, next) && i < |segs|
    ensures segs[i].first == h + i * j.n && segs[i].last == Min(h + (i + 1) * j.n - 1, j.end) && segs[i].first <= j.end
    ensures IsBuilt(site, j.chainID, Slice(j.load, segs[i].first, segs[i].last), j.compression, segs[i])
    decreases i
  {
    hide Slice, BuildSegment, GoodMigration, SegmentFor, IsBuilt;
    SegmentForRange(site, j, h);
    if i == 0 {
      FirstIsBuilt(site, j, h);
      Times(j.n, 0);
    } else {
      var rest := segs[1..];
      assert rest[i - 1] == segs[i] && LastOf(j, h) < j.end;
      PlanInClosedForm(site, j, LastOf(j, h) + 1, rest, next, i - 1);
      Times(j.n, i - 1);
      Times(j.n, i);
    }
  }

  lemma Times(n: int, i: nat)
    ensures (i + 1) * n == i * n + n && 0 * n == 0
  {
  }

  lemma FirstIsBuilt(site: Site, j: Migration, h: int)
    requires GoodMigration(j) && h <= j.end && SegmentFor(site, j, h).Some?
    ensures var s := SegmentFor(site, j, h).value; IsBuilt(site, j.chainID, Slice(j.load, s.first, s.last), j.compression, s)
  {
    hide Slice, BuildSegment;
    SegmentForRange(site, j, h);
  }

  // ---------------------------------------------------------------- every interleaving and interruption

  /** The state is what this migration saves after building its first segments. */
  ghost predicate OnPlan(site: Site, j: Migration, st: MigrationState) {
    st.chainID == j.chainID && st.start == j.start && st.end == j.end && Builds(site, j, j.start, st.segments, st.next)
  }

  ghost predicate StateOnPlan(site: Site, j: Migration, objects: Objects, key: string) {
    var st := LoadState(site, objects, key);
    st.Found? && st.value.chainID == j.chainID && st.value.start == j.start && st.value.end == j.end ==> OnPlan(site, j, st.value)
  }

  ghost predicate MigratorOnPlan(site: Site, j: Migration, x: Writer) {
    x.Migrator? ==>
      && x.chainID == j.chainID && OnPlan(site, j, x.state)
      && (x.job.Built? || x.job.Confirmed? ==> x.state.next <= j.end && SegmentFor(site, j, x.state.next) == Some(x.job.segment))
  }

  ghost predicate PlanInv(site: Site, j: Migration, w: World) {
    && StateOnPlan(site, j, w.objects, site.stateKey) && StateOnPlan(site, j, w.objects, site.legacyKey)
    && forall id :: id in w.writers ==> MigratorOnPlan(site, j, w.writers[id])
  }

  lemma {:induction false} AppendGoesLast(segs: seq<Segment>, s: Segment)
    requires forall i :: 0 <= i < |segs| ==> segs[i].first != s.first
    ensures AppendSegment(segs, s) == segs + [s]
  {
    if segs != [] {
      AppendGoesLast(segs[1..], s);
      assert segs == [segs[0]] + segs[1..];
    }
  }

  lemma SavedAreBelow(st: MigrationState, i: nat)
    requires ValidState(st) && i < |st.segments|
    ensures 0 < st.segments[i].first < st.next
  {
    assert ValidSegment(st.segments[i]);
    if i < |st.segments| - 1 {
      Ascending(st.segments, i, |st.segments| - 1);
      assert ValidSegment(st.segments[|st.segments| - 1]);
    }
  }

  /** Saving a confirmed segment keeps the state on plan. */
  lemma NextOnPlan(site: Site, j: Migration, x: Writer)
    requires GoodMigration(j) && x.Migrator? && ValidState(x.state) && MigratorOnPlan(site, j, x) && x.job.Confirmed?
    ensures NextState(x).segments == x.state.segments + [x.job.segment] && OnPlan(site, j, NextState(x))
  {
    hide ValidState, SegmentFor, AppendSegment, Builds, GoodMigration;
    SegmentForRange(site, j, x.state.next);
    forall i | 0 <= i < |x.state.segments| ensures x.state.segments[i].first != x.job.segment.first {
      SavedAreBelow(x.state, i);
    }
    AppendGoesLast(x.state.segments, x.job.segment);
    BuildsOneMore(site, j, j.start, x.state.segments, x.state.next, x.job.segment);
  }

  lemma SameState(x: Writer)
    requires x.Migrator? && !x.job.Confirmed?
    ensures NextState(x) == x.state
  {
  }

  lemma SaveKeepsPlan(site: Site, j: Migration, w: World, id: int, x: Writer, v: World)
    requires GoodSite(site) && GoodMigration(j) && PlanInv(site, j, w) && id in w.writers && x == w.writers[id]
    requires CanSave(site, x) && ValidState(x.state) && v == AfterSave(site, w, id, x)
    ensures PlanInv(site, j, v)
  {
    hide ValidState, OnPlan, NextState, SegmentFor, GoodMigration;
    if x.job.Confirmed? { NextOnPlan(site, j, x); } else { SameState(x); }
    assert OnPlan(site, j, NextState(x));
    assert site.parseState(site.renderState(NextState(x))) == Some(NextState(x));
  }

  lemma StartKeepsPlan(site: Site, j: Migration, w: World, e: Event)
    requires GoodMigration(j) && CarriesOut(j, w, e) && Starts(site, w, e).Some?
    ensures MigratorOnPlan(site, j, Starts(site, w, e).value)
  {
  }

  lemma PrivatelyOnPlan(site: Site, j: Migration, w: World, x: Writer, e: Event)
    requires GoodMigration(j) && PlanInv(site, j, w) && MigratorOnPlan(site, j, x) && Privately(site, w, x, e).Some?
    ensures MigratorOnPlan(site, j, Privately(site, w, x, e).value)
  {
  }

  lemma SameStates(site: Site, j: Migration, w: World, v: World, id: int)
    requires PlanInv(site, j, w) && OnlyMoves(w, v, id) && (id in v.writers ==> MigratorOnPlan(site, j, v.writers[id]))
    requires Get(v.objects, site.stateKey) == Get(w.objects, site.stateKey)
    requires Get(v.objects, site.legacyKey) == Get(w.objects, site.legacyKey)
    ensures PlanInv(site, j, v)
  {
  }

  lemma StepKeepsPlan(site: Site, j: Migration, w: World, e: Event, v: World)
    requires GoodSite(site) && GoodMigration(j) && Inv(site, w) && PlanInv(site, j, w)
    requires CarriesOut(j, w, e) && Apply(site, w, e) == Some(v)
    ensures PlanInv(site, j, v)
  {
    hide SharedOk, WriterOk, Starts, Privately, CanPublish, CanSave, BuildSegment, MigratorOnPlan, StateOnPlan, NextState, NextManifest;
    if e.id !in w.writers {
      StartKeepsPlan(site, j, w, e);
      SameStates(site, j, w, v, e.id);
    } else {
      var x := w.writers[e.id];
      assert WriterOk(site, w, x);
      match e
      case SaveState(_) =>
        SaveValid(site, w, x);
        SaveKeepsPlan(site, j, w, e.id, x, v);
      case Build(_, _, _) =>
        BuildOnPlan(site, j, w, e, x);
        SameStates(site, j, w, v, e.id);
      case Upload(_, _) =>
        UploadedKey(site, w, x);
        SameStates(site, j, w, v, e.id);
      case Publish(_) => SameStates(site, j, w, v, e.id);
      case Crash(_) => SameStates(site, j, w, v, e.id);
      case _ =>
        PrivatelyOnPlan(site, j, w, x, e);
        SameStates(site, j, w, v, e.id);
    }
  }

  lemma SaveValid(site: Site, w: World, x: Writer)
    requires WriterOk(site, w, x) && CanSave(site, x)
    ensures x.Migrator? && ValidState(x.state)
  {
  }

  lemma UploadedKey(site: Site, w: World, x: Writer)
    requires SharedOk(site, w) && WriterOk(site, w, x) && x.job.Built?
    ensures !Reserved(site, x.job.segment.key)
  {
    var bs :| (x.job.segment, bs) in w.built;
  }

  lemma BuildOnPlan(site: Site, j: Migration, w: World, e: Event, x: Writer)
    requires MigratorOnPlan(site, j, x) && CarriesOut(j, w, e) && e.Build? && e.id in w.writers && x == w.writers[e.id]
    requires BuildSegment(site, x.chainID, e.blocks, e.compression).Some?
    ensures var p := BuildSegment(site, x.chainID, e.blocks, e.compression).value;
            MigratorOnPlan(site, j, x.(job := Built(p.0, p.1)))
  {
  }

  lemma {:induction false} RunKeepsPlan(site: Site, j: Migration, ws: seq<World>, es: seq<Event>, k: nat)
    requires GoodSite(site) && GoodMigration(j) && Run(site, ws, es) && Inv(site, ws[0]) && PlanInv(site, j, ws[0]) && k < |ws|
    requires forall i :: 0 <= i < |es| ==> CarriesOut(j, ws[i], es[i])
    requires CollisionFree(site.env.sha, ws[k].bytes)
    ensures PlanInv(site, j, ws[k])
  {
    hide Inv, PlanInv, Apply, CarriesOut, GoodSite;
    if k > 0 {
      assert Apply(site, ws[k - 1], es[k - 1]) == Some(ws[k]);
      BytesOnlyGrow(site, ws[k - 1], es[k - 1], ws[k]);
      RunKeepsPlan(site, j, ws, es, k - 1);
      RunKeepsInv(site, ws, es, k - 1);
      StepKeepsPlan(site, j, ws[k - 1], es[k - 1], ws[k]);
    }
  }

  /** At step `k` a migrator publishes `m`. */
  ghost predicate Publishes(site: Site, ws: seq<World>, es: seq<Event>, k: nat, m: Manifest)
    requires Run(site, ws, es)
  {
    && k < |es| && es[k].Publish? && es[k].id in ws[k].writers && ws[k].writers[es[k].id].Migrator?
    && ws[k + 1].history == ws[k].history + [m]
  }

  lemma PublishedIsPlan(site: Site, j: Migration, ws: seq<World>, es: seq<Event>, k: nat, m: Manifest)
    requires GoodSite(site) && GoodMigration(j) && Run(site, ws, es) && Inv(site, ws[0]) && PlanInv(site, j, ws[0])
    requires forall i :: 0 <= i < |es| ==> CarriesOut(j, ws[i], es[i])
    requires Publishes(site, ws, es, k, m) && CollisionFree(site.env.sha, ws[k].bytes)
    ensures Builds(site, j, j.start, m.segments, j.end + 1)
  {
    hide Apply, SharedOk, WriterOk, GoodSite, CollisionFree, GoodMigration, CarriesOut, StateOnPlan;
    RunKeepsInv(site, ws, es, k);
    RunKeepsPlan(site, j, ws, es, k);
    var w, x := ws[k], ws[k].writers[es[k].id];
    assert WriterOk(site, w, x) && MigratorOnPlan(site, j, x);
    assert Apply(site, w, es[k]) == Some(ws[k + 1]);
    PublicationStep(site, w, es[k], ws[k + 1]);
    CompletedIsPublished(site, w, es[k], x, ws[k + 1]);
    assert ws[k + 1].history[|w.history|] == m;
  }

  lemma CompletedIsPublished(site: Site, w: World, e: Event, x: Writer, v: World)
    requires SharedOk(site, w) && WriterOk(site, w, x) && e.Publish? && e.id in w.writers && x == w.writers[e.id] && x.Migrator?
    requires Apply(site, w, e) == Some(v)
    ensures CanPublish(site, x) && NextManifest(x).value.segments == x.state.segments && x.state.next == x.state.end + 1
  {
    MigratorManifest(site, w, x);
  }

  /**
   Any two runs of the same migration publish the same segments, whatever happened before
   the publication: interruptions, restarts, other migrators, a state left by an older version.
   */
  lemma MigrationsAgree(site: Site, j: Migration, ws: seq<World>, es: seq<Event>, vs: seq<World>, fs: seq<Event>, k: nat, l: nat, m: Manifest, n: Manifest)
    requires GoodSite(site) && GoodMigration(j)
    requires Run(site, ws, es) && Inv(site, ws[0]) && PlanInv(site, j, ws[0])
    requires forall i :: 0 <= i < |es| ==> CarriesOut(j, ws[i], es[i])
    requires Publishes(site, ws, es, k, m) && CollisionFree(site.env.sha, ws[k].bytes)
    requires Run(site, vs, fs) && Inv(site, vs[0]) && PlanInv(site, j, vs[0])
    requires forall i :: 0 <= i < |fs| ==> CarriesOut(j, vs[i], fs[i])
    requires Publishes(site, vs, fs, l, n) && CollisionFree(site.env.sha, vs[l].bytes)
    ensures m.segments == n.segments
  {
    PublishedIsPlan(site, j, ws, es, k, m);
    PublishedIsPlan(site, j, vs, fs, l, n);
    BuildsIsUnique(site, j, j.start, m.segments, n.segments);
  }

  // ---------------------------------------------------------------- saved states

  /** A key gives away where its segment starts. */
  ghost predicate KeysTellRanges(site: Site) {
    forall chain, s: Segment, t: Segment :: ValidChainID(chain) && s.first > 0 && t.first > 0 && site.segmentKey(chain, s) == site.segmentKey(chain, t) ==> s.first == t.first
  }

  /** A site with the archive's own names has good keys. */
  lemma NamesAreGood(site: Site, prefix: string, chainID: string, name: string)
    requires ValidChainID(chainID)
    requires site.segmentKey == ((chain, s) => Keys.SegmentKey(prefix, chain, s))
    requires site.manifestKey == Keys.ManifestKey(prefix, chainID, name) && site.stateKey == Keys.StateKey(prefix, chainID, name)
    requires site.legacyKey == Keys.LegacyStateKey(prefix, chainID)
    ensures GoodKeys(site) && KeysTellRanges(site)
  {
    hide Keys.SegmentKey, Keys.ManifestKey, Keys.StateKey, Keys.LegacyStateKey;
    forall chain, s | ValidChainID(chain) ensures !Reserved(site, site.segmentKey(chain, s)) {
      Keys.KeysAreApart(prefix, chainID, chain, s, name, name);
    }
    Keys.KeysAreApart(prefix, chainID, chainID, Segment("", 0, 0, Plain, 0, "", []), name, name);
    forall chain, s: Segment, t: Segment | ValidChainID(chain) && s.first > 0 && t.first > 0 && site.segmentKey(chain, s) == site.segmentKey(chain, t)
      ensures s.first == t.first
    {
      Keys.KeyTellsRange(prefix, chain, s, t);
    }
  }

  lemma {:induction false} BuiltKeys(site: Site, j: Migration, h: int, segs: seq<Segment>, next: int, i: nat)
    requires GoodMigration(j) && Builds(site, j, h, segs, next) && i < |segs|
    ensures segs[i].key == site.segmentKey(j.chainID, segs[i].(key := ""))
    decreases |segs|
  {
    if i > 0 { BuiltKeys(site, j, LastOf(j, h) + 1, segs[1..], next, i - 1); }
  }

  /** The check before a save never stands in the way: a valid segment that is next on plan makes a valid state. */
  lemma SaveIsNeverRefused(site: Site, j: Migration, x: Writer)
    requires GoodMigration(j) && KeysTellRanges(site) && x.Migrator? && ValidState(x.state)
    requires MigratorOnPlan(site, j, x) && x.job.Confirmed? && ValidSegment(x.job.segment)
    ensures ValidState(NextState(x))
  {
    hide SegmentFor, GoodMigration, Builds, MigratorOnPlan, ValidSegment;
    var segs, s := x.state.segments, x.job.segment;
    NextOnPlan(site, j, x);
    StandsAt(site, j, x);
    forall i | 0 <= i < |segs| ensures segs[i].key != s.key { FreshKey(site, j, x, i); }
    OneMoreIsValid(x.state, s, NextState(x));
  }

  lemma StandsAt(site: Site, j: Migration, x: Writer)
    requires GoodMigration(j) && x.Migrator? && MigratorOnPlan(site, j, x) && x.job.Confirmed?
    ensures x.job.segment.first == x.state.next && x.job.segment.last <= j.end == x.state.end
  {
    SegmentForRange(site, j, x.state.next);
  }

  lemma FreshKey(site: Site, j: Migration, x: Writer, i: nat)
    requires GoodMigration(j) && KeysTellRanges(site) && x.Migrator? && ValidState(x.state)
    requires MigratorOnPlan(site, j, x) && x.job.Confirmed? && i < |x.state.segments|
    ensures x.state.segments[i].key != x.job.segment.key
  {
    hide SegmentFor, ValidState, LastOf, ValidChainID, GoodReader;
    var segs, s := x.state.segments, x.job.segment;
    SavedAreBelow(x.state, i);
    StandsAt(site, j, x);
    BuiltKeys(site, j, j.start, segs, x.state.next, i);
    assert Builds(site, j, x.state.next, [s], LastOf(j, x.state.next) + 1);
    BuiltKeys(site, j, x.state.next, [s], LastOf(j, x.state.next) + 1, 0);
  }

  lemma OneMoreIsValid(st: MigrationState, s: Segment, next: MigrationState)
    requires ValidState(st) && ValidSegment(s) && s.first == st.next && s.last <= st.end
    requires next == st.(segments := st.segments + [s], next := s.last + 1)
    requires forall i :: 0 <= i < |st.segments| ==> st.segments[i].key != s.key
    ensures ValidState(next)
  {
    var segs := next.segments;
    assert forall i :: 0 <= i < |st.segments| ==> segs[i] == st.segments[i];
    assert segs[|st.segments|] == s;
    if st.segments != [] { SavedAreBelow(st, 0); }
  }

  // ---------------------------------------------------------------- the program

  datatype MigrationOptions = MigrationOptions(chainID: string, start: int, end: int, segmentBlocks: int, compression: Compression, legacy: bool)

  /** The range to migrate, clamped to what the source has. */
  function ClampRange(reader: Reader, start: int, end: int): Option<(int, int)> {
    var first, last := if start == 0 then reader.base else start, if end == 0 then reader.height else end;
    if reader.base == 0 || reader.height == 0 || first < reader.base || last > reader.height || last < first then None
    else Some((first, last))
  }

  /** The check of a migration state accepts exactly the valid ones. */
  method ValidateState(st: MigrationState) returns (ok: bool)
    ensures ok <==> ValidState(st)
  {
    if st.chainID == "" || st.start <= 0 || st.end < st.start || st.next < st.start || st.next > st.end + 1 { return false; }
    if |st.segments| == 0 { return st.next == st.start; }
    var end := ScanSegments(st.segments, st.start);
    return end == Some(st.next);
  }

  /** Reads and checks the state under `key`. */
  method ReadState(a: Archive, key: string) returns (r: Result<Option<(MigrationState, string)>, ArchiveError>)
    requires a.Valid()
    ensures match LoadState(a.site, a.Now().objects, key)
            case Missing => r == Ok(None)
            case Unreadable => r == Err(StateUnreadable)
            case Found(st, rev) => r == Ok(Some((st, rev)))
  {
    var found := a.store.GetVersioned(key);
    match found {
      case Err(e) => return if e == NotFound then Ok(None) else Err(StateUnreadable);
      case Ok(p) =>
        var st := a.site.parseState(p.0);
        if st.None? { return Err(StateUnreadable); }
        var ok := ValidateState(st.value);
        return if ok then Ok(Some((st.value, p.1))) else Err(StateUnreadable);
    }
  }

  lemma StartMigrationStep(site: Site, w: World, id: int, chainID: string, start: int, end: int)
    requires id !in w.writers && StartsMigration(site, w, chainID, start, end).Some?
    ensures Apply(site, w, StartMigration(id, chainID, start, end)) == Some(SetWriter(w, id, StartsMigration(site, w, chainID, start, end).value))
  {
  }

  lemma OpenStateStep(site: Site, w: World, id: int, x: Writer, legacy: bool)
    requires id in w.writers && w.writers[id] == x && x.Migrator? && x.job.Opening? && OpensState(site, w, x, legacy).Some?
    ensures Apply(site, w, OpenState(id, legacy)) == Some(SetWriter(w, id, OpensState(site, w, x, legacy).value))
  {
  }

  lemma CheckStep(site: Site, w: World, id: int, x: Writer)
    requires id in w.writers && w.writers[id] == x && CanCheck(site, w, x)
    ensures Apply(site, w, CheckAll(id)) == Some(SetWriter(w, id, x.(job := Checked)))
  {
  }

  /** The writer `id` is in state `x`. */
  ghost predicate At(w: World, id: int, x: Writer) { id in w.writers && w.writers[id] == x }

  /** After step `lo` the migrator `id` opened the state `from`. */
  ghost predicate Opened(ws: seq<World>, es: seq<Event>, lo: nat, id: int, from: MigrationState)
    requires |ws| == |es| + 1
  {
    exists i :: lo <= i < |es| && OpenedAt(es[i], ws[i + 1], id, from)
  }

  ghost predicate OpenedAt(e: Event, w: World, id: int, from: MigrationState) {
    e.OpenState? && e.id == id && id in w.writers && w.writers[id].Migrator? && w.writers[id].state == from
  }

  lemma OpenedWithin(ws: seq<World>, es: seq<Event>, vs: seq<World>, fs: seq<Event>, lo: nat, hi: nat, id: int, from: MigrationState)
    requires |ws| == |es| + 1 && |vs| == |fs| + 1 && ws <= vs && es <= fs && lo <= hi && Opened(ws, es, hi, id, from)
    ensures Opened(vs, fs, lo, id, from)
  {
    var i :| hi <= i < |es| && OpenedAt(es[i], ws[i + 1], id, from);
    assert OpenedAt(fs[i], vs[i + 1], id, from);
  }

  /** After step `lo` the migrator `id` published `m`. */
  ghost predicate PublishedBy(site: Site, ws: seq<World>, es: seq<Event>, lo: nat, id: int, m: Manifest) {
    Run(site, ws, es) && exists i :: lo <= i && Publishes(site, ws, es, i, m) && es[i].id == id
  }

  method OpenMigration(a: Archive, id: int, chainID: string, start: int, end: int) returns (r: Result<Writer, ArchiveError>)
    requires a.Valid() && id !in a.Now().writers && 0 < start <= end
    requires id in a.jobs ==> a.jobs[id].chainID == chainID && a.jobs[id].start == start && a.jobs[id].end == end
    modifies a`trace, a`steps, a.store`objects
    ensures a.Valid() && old(a.trace) <= a.trace && old(a.steps) <= a.steps && Later(old(a.Now()), a.Now())
    ensures r.Ok? ==> At(a.Now(), id, r.value) && r.value.Migrator? && r.value.job.Opening?
    ensures r.Ok? ==> r.value.chainID == chainID && r.value.state == MigrationState(chainID, start, end, start, [])
    ensures r.Err? ==> id !in a.Now().writers && StartsMigration(a.site, a.Now(), chainID, start, end).None?
  {
    hide Apply, Run, ValidManifest;
    if !ValidChainID(chainID) { return Err(BadOptions); }
    a.Others(id);
    var found := a.store.GetVersioned(a.site.manifestKey);
    var existing, revision := None, "";
    match found {
      case Err(e) => if e != NotFound { return Err(ManifestUnreadable); }
      case Ok(p) =>
        var m := a.site.parse(p.0);
        if m.None? { return Err(ManifestUnreadable); }
        var ok := Validate(m.value);
        if !ok { return Err(ManifestUnreadable); }
        if m.value.chainID != chainID || (m.value.last != 0 && (m.value.first != start || m.value.last != end)) { return Err(WrongRange); }
        existing, revision := m, p.1;
    }
    StartMigrationStep(a.site, a.Now(), id, chainID, start, end);
    a.Take(StartMigration(id, chainID, start, end));
    return Ok(Migrator(chainID, existing, revision, MigrationState(chainID, start, end, start, []), "", Opening));
  }

  /** Joins with the state just read under the new key or, if `older`, under the legacy one. */
  method OpenWith(a: Archive, id: int, x: Writer, older: bool, loaded: Option<(MigrationState, string)>) returns (r: Result<Writer, ArchiveError>)
    requires a.Valid() && At(a.Now(), id, x) && x.Migrator? && x.job.Opening?
    requires match LoadState(a.site, a.Now().objects, if older then a.site.legacyKey else a.site.stateKey)
             case Missing => loaded == None
             case Unreadable => false
             case Found(st, rev) => loaded == Some((st, rev))
    modifies a`trace, a`steps
    ensures a.Valid() && old(a.trace) <= a.trace && old(a.steps) <= a.steps && Later(old(a.Now()), a.Now()) && id in a.Now().writers
    ensures r.Ok? ==> OpensState(a.site, old(a.Now()), x, older) == Some(r.value) && At(a.Now(), id, r.value)
    ensures r.Err? ==> At(a.Now(), id, x) && OpensState(a.site, a.Now(), x, older).None?
    ensures r.Ok? ==> a.trace == old(a.trace) + [a.Now()] && Opened(a.trace, a.steps, |old(a.steps)|, id, r.value.state)
  {
    hide Apply, Run, ValidState;
    var y := Migrator(x.chainID, x.existing, x.revision, x.state, x.stateRevision, Idle);
    if loaded.Some? {
      var (st, rev) := loaded.value;
      if st.chainID != x.chainID || st.start != x.state.start || st.end != x.state.end { return Err(WrongRange); }
      y := Migrator(x.chainID, x.existing, x.revision, st, if older then "" else rev, Idle);
    }
    OpenStateStep(a.site, a.Now(), id, x, older);
    a.Take(OpenState(id, older));
    assert OpenedAt(a.steps[|a.steps| - 1], a.trace[|a.steps|], id, y.state);
    return Ok(y);
  }

  /** Resumes from the saved state if there is one, else from a legacy one, else from scratch. */
  method ResumeState(a: Archive, id: int, x: Writer, legacy: bool) returns (r: Result<(Writer, bool), ArchiveError>)
    requires a.Valid() && At(a.Now(), id, x) && x.Migrator? && x.job.Opening?
    requires ValidState(x.state) && x.state.chainID == x.chainID
    modifies a`trace, a`steps, a.store`objects
    ensures a.Valid() && old(a.trace) <= a.trace && old(a.steps) <= a.steps && Later(old(a.Now()), a.Now()) && id in a.Now().writers
    ensures r.Ok? ==> At(a.Now(), id, r.value.0) && Resumes(x, r.value.0) && Opened(a.trace, a.steps, |old(a.steps)|, id, r.value.0.state)
    ensures r.Ok? ==> |a.trace| > 1 && (OpensState(a.site, a.trace[|a.trace| - 2], x, false) == Some(r.value.0)
                                        || (legacy && OpensState(a.site, a.trace[|a.trace| - 2], x, true) == Some(r.value.0)))
    ensures r.Err? ==> At(a.Now(), id, x) && (OpensState(a.site, a.Now(), x, false).None? || OpensState(a.site, a.Now(), x, true).None?)
  {
    hide Apply, Run, ValidState, OpensState, Resumes, Opened, LoadState, Later, Obeys;
    ghost var start := a.Now();
    a.Others(id);
    var loaded := ReadState(a, a.site.stateKey);
    var older := loaded == Ok(None) && legacy;
    if older {
      ghost var between := a.Now();
      a.Others(id);
      LaterStill(start, between, a.Now());
      loaded := ReadState(a, a.site.legacyKey);
    }
    if loaded.Err? {
      Unopenable(a.site, a.Now(), x, older);
      return Err(loaded.error);
    }
    ghost var w, es := a.Now(), a.steps;
    var y := OpenWith(a, id, x, older, loaded.value);
    LaterStill(start, w, a.Now());
    if y.Err? { return Err(y.error); }
    OpenResumes(a.site, w, x, older);
    OpenedWithin(a.trace, a.steps, a.trace, a.steps, |old(a.steps)|, |es|, id, y.value.state);
    return Ok((y.value, older && loaded.value.Some?));
  }

  lemma Unopenable(site: Site, w: World, x: Writer, older: bool)
    requires x.Migrator? && LoadState(site, w.objects, if older then site.legacyKey else site.stateKey).Unreadable?
    ensures OpensState(site, w, x, older).None?
  {
  }

  /** Since step `lo` the manifest, or the state there was to resume from, did not allow the migration. */
  ghost predicate CannotOpen(site: Site, ws: seq<World>, lo: nat, id: int, chainID: string, start: int, end: int) {
    || (exists i :: lo <= i < |ws| && StartsMigration(site, ws[i], chainID, start, end).None?)
    || (exists i :: lo <= i < |ws| && CannotResume(site, ws[i], id))
  }

  ghost predicate CannotResume(site: Site, w: World, id: int) {
    && id in w.writers && w.writers[id].Migrator? && w.writers[id].job.Opening?
    && (OpensState(site, w, w.writers[id], false).None? || OpensState(site, w, w.writers[id], true).None?)
  }

  lemma OpeningFails(site: Site, ws: seq<World>, lo: nat, i: nat, id: int, chainID: string, start: int, end: int)
    requires lo <= i < |ws| && (StartsMigration(site, ws[i], chainID, start, end).None? || CannotResume(site, ws[i], id))
    ensures CannotOpen(site, ws, lo, id, chainID, start, end)
  {
    hide StartsMigration, CannotResume;
  }

  /** A migrator that resumed: idle, with a valid state of its own chain and range. */
  ghost predicate Resumes(x: Writer, y: Writer)
    requires x.Migrator?
  {
    && y.Migrator? && y.job.Idle? && y.chainID == x.chainID && ValidState(y.state)
    && y.state.chainID == x.chainID && y.state.start == x.state.start && y.state.end == x.state.end
  }

  lemma OpenResumes(site: Site, w: World, x: Writer, older: bool)
    requires x.Migrator? && ValidState(x.state) && x.state.chainID == x.chainID && OpensState(site, w, x, older).Some?
    ensures Resumes(x, OpensState(site, w, x, older).value)
  {
  }

  /** Gives up over something that does not pass. */
  method Refuse(a: Archive, id: int, ghost e: ArchiveError)
    requires a.Valid() && WasBarred(a.site, a.Now(), id, e)
    modifies a`trace, a`steps
    ensures a.Valid() && old(a.trace) <= a.trace && old(a.steps) <= a.steps && Later(old(a.Now()), a.Now()) && id !in a.Now().writers
    ensures StoreToBlame(a.site, a.land, a.trace, a.steps, |old(a.steps)|, id, e)
  {
    hide Apply, Run, Obeys, StoreToBlame, CanPublish, CanSave, CanCheck;
    ghost var at := |a.steps|;
    a.GiveUp(id);
    BlameStore(a.site, a.land, a.trace, a.steps, |old(a.steps)|, at, id, e);
  }

  /** Saves the next state by compare-and-swap. */
  method SaveNext(a: Archive, id: int, x: Writer) returns (r: Result<Writer, ArchiveError>)
    requires a.Valid() && At(a.Now(), id, x) && x.Migrator? && (x.job.Idle? || x.job.Confirmed?)
    modifies a`trace, a`steps, a.store`objects
    ensures a.Valid() && old(a.trace) <= a.trace && old(a.steps) <= a.steps && Later(old(a.Now()), a.Now())
    ensures r.Ok? ==> At(a.Now(), id, r.value) && r.value.Migrator? && r.value.job.Idle? && ValidState(r.value.state)
    ensures r.Ok? ==> r.value.state == NextState(x) && r.value.chainID == x.chainID
    ensures r.Err? ==> id !in a.Now().writers && StoreToBlame(a.site, a.land, a.trace, a.steps, |old(a.steps)|, id, r.error)
  {
    hide Apply, Run, ValidState, NextState, StoreToBlame, Obeys, CanPublish, CanCheck, CanSave, AfterSave, Swap;
    var next := StateToSave(a.site, x);
    if next.None? {
      Refuse(a, id, BadState);
      return Err(BadState);
    }
    a.Others(id);
    SaveStep(a.site, a.Now(), id);
    SaveOutcome(a.site, a.Now(), id, x);
    a.Take(SaveState(id));
    var swapped := a.store.CompareAndSwap(a.site.stateKey, next.value.1, x.stateRevision);
    if swapped.Err? {
      BlameLastStep(a.site, a.land, a.trace, a.steps, |old(a.steps)|, id, StateConflict);
      return Err(StateConflict);
    }
    return Ok(Migrator(x.chainID, x.existing, x.revision, next.value.0, swapped.value, Idle));
  }

  /** The next state, if it may be saved, and how it is stored. */
  method StateToSave(site: Site, x: Writer) returns (r: Option<(MigrationState, Bytes)>)
    requires x.Migrator? && (x.job.Idle? || x.job.Confirmed?)
    ensures r.Some? <==> CanSave(site, x)
    ensures r.Some? ==> r.value.0 == NextState(x) && r.value.1 == site.renderState(r.value.0) && ValidState(r.value.0)
  {
    hide ValidState, NextState;
    var st := NextState(x);
    var ok := ValidateState(st);
    var data := site.renderState(st);
    return if ok && |data| <= MAX_READ then Some((st, data)) else None;
  }

  lemma StatePasses(env: Env, objects: Objects, st: MigrationState, i: nat)
    requires ValidState(st) && i < |st.segments|
    ensures st.segments[i] in st.segments
    ensures Verifies(env, objects, st.segments[i]) <==> SegmentReadable(env, objects, st.segments[i])
  {
    VerifiesIffReadable(env, objects, st.segments[i]);
  }

  /** Checks every completed segment in full.  Stored segments never change, so it does not matter when each is read. */
  method CheckCompleted(a: Archive, id: int, x: Writer) returns (ok: bool)
    requires a.Valid() && At(a.Now(), id, x) && x.Migrator? && x.job.Idle? && x.state.next > x.state.end && ValidState(x.state)
    modifies a`trace, a`steps, a.store`objects
    ensures a.Valid() && old(a.trace) <= a.trace && old(a.steps) <= a.steps && Later(old(a.Now()), a.Now())
    ensures At(a.Now(), id, if ok then x.(job := Checked) else x)
    ensures ok <==> forall s :: s in x.state.segments ==> SegmentReadable(a.site.env, a.store.objects, s)
    ensures !ok ==> WasBarred(a.site, a.Now(), id, NotVerified)
  {
    hide Apply, Run, Verifies, SegmentReadable, ValidState, Obeys;
    a.Others(id);
    forall k | 0 <= k < |x.state.segments|
      ensures Verifies(a.site.env, a.store.objects, x.state.segments[k]) <==> SegmentReadable(a.site.env, a.store.objects, x.state.segments[k])
    {
      StatePasses(a.site.env, a.store.objects, x.state, k);
    }
    var i := 0;
    while i < |x.state.segments|
      invariant 0 <= i <= |x.state.segments|
      invariant forall k :: 0 <= k < i ==> Verifies(a.site.env, a.store.objects, x.state.segments[k])
    {
      if !Verifies(a.site.env, a.store.objects, x.state.segments[i]) { return false; }
      i := i + 1;
    }
    CheckStep(a.site, a.Now(), id, x);
    a.Take(CheckAll(id));
    return true;
  }

  lemma StateCovers(st: MigrationState)
    requires ValidState(st) && st.next == st.end + 1
    ensures st.segments != [] && st.segments[0].first == st.start && st.segments[|st.segments| - 1].last == st.end
  {
  }

  lemma StateIsSorted(st: MigrationState)
    requires ValidState(st)
    ensures SortByFirst(st.segments) == st.segments
  {
    if st.segments != [] { FirstsAscend(st.segments); }
    SortedStays(st.segments);
  }

  /** Publishes the completed segments against the manifest loaded at the start. */
  method PublishMigration(a: Archive, id: int, x: Writer) returns (r: Result<Manifest, ArchiveError>)
    requires a.Valid() && At(a.Now(), id, x) && x.Migrator? && x.job.Checked? && ValidState(x.state) && x.state.next == x.state.end + 1
    modifies a`trace, a`steps, a.store`objects
    ensures a.Valid() && old(a.trace) <= a.trace && old(a.steps) <= a.steps && Later(old(a.Now()), a.Now()) && id !in a.Now().writers
    ensures r.Ok? ==> r.value in a.Now().history && r.value.segments == x.state.segments
    ensures r.Ok? ==> forall h :: InRange(r.value, h) <==> x.state.start <= h <= x.state.end
    ensures r.Ok? ==> PublishedBy(a.site, a.trace, a.steps, |old(a.steps)|, id, r.value)
    ensures r.Err? ==> StoreToBlame(a.site, a.land, a.trace, a.steps, |old(a.steps)|, id, r.error)
  {
    hide Apply, Run, Obeys, ValidState, StoreToBlame, CanSave, CanCheck, CanPublish, NextManifest;
    var made := FinalManifest(a.site, x);
    if made.None? {
      Refuse(a, id, BadManifest);
      return Err(BadManifest);
    }
    var swapped := a.SwapManifest(id, x, x.revision, made.value.0, made.value.1);
    if swapped.None? { return Err(PublishConflict); }
    assert Publishes(a.site, a.trace, a.steps, |a.steps| - 1, made.value.0);
    return Ok(made.value.0);
  }

  /** The manifest of the completed segments, if it may be published, and how it is stored. */
  method FinalManifest(site: Site, x: Writer) returns (r: Option<(Manifest, Bytes)>)
    requires x.Migrator? && x.job.Checked? && ValidState(x.state) && x.state.next == x.state.end + 1
    ensures r.Some? <==> CanPublish(site, x)
    ensures r.Some? ==> NextManifest(x) == Some(r.value.0) && r.value.1 == site.render(r.value.0)
    ensures r.Some? ==> r.value.0.segments == x.state.segments && forall h :: InRange(r.value.0, h) <==> x.state.start <= h <= x.state.end
  {
    hide ValidManifest, SortByFirst, ValidState;
    StateIsSorted(x.state);
    StateCovers(x.state);
    var m := NewManifest(x.chainID, x.state.segments);
    var ok := Validate(m);
    var data := site.render(m);
    return if ok && |data| <= MAX_READ then Some((m, data)) else None;
  }

  /** One round of the loop: a segment is built, uploaded, read back and recorded in the state. */
  method MigrateOne(a: Archive, id: int, reader: Reader, x: Writer, ghost j: Migration, comp: Compression, n: int, cancelled: int -> bool)
    returns (r: Result<Writer, ArchiveError>)
    requires a.Valid() && GoodReader(reader) && At(a.Now(), id, x) && x.Migrator? && x.job.Idle? && ValidState(x.state)
    requires x.state.next <= x.state.end && n > 0 && !comp.Unknown?
    requires j == Migration(x.chainID, reader.load, x.state.start, x.state.end, n, comp) && id in a.jobs && a.jobs[id] == j
    modifies a`trace, a`steps, a.store`objects
    ensures a.Valid() && old(a.trace) <= a.trace && old(a.steps) <= a.steps && Later(old(a.Now()), a.Now())
    ensures r.Ok? ==> At(a.Now(), id, r.value) && r.value.Migrator? && r.value.job.Idle? && ValidState(r.value.state)
    ensures r.Ok? ==> r.value.chainID == x.chainID && Advances(a.site, j, x.state, r.value.state)
    ensures r.Err? ==> id !in a.Now().writers && a.Excused(reader, x.chainID, x.state.next, x.state.end, cancelled, |old(a.steps)|, id, r.error)
  {
    hide Apply, Run, ValidState, NextState, IsBuilt, SuppliedBy, StoreToBlame, SourceToBlame, Obeys;
    var h := x.state.next;
    var last := Min(h + n - 1, x.state.end);
    var built := a.BuildAndUpload(id, reader, x.chainID, comp, h, last, cancelled);
    ghost var ws, es := a.trace, a.steps;
    if built.Err? {
      a.GiveUp(id);
      StillExcused(a.site, a.land, ws, es, a.trace, a.steps, |old(a.steps)|, |old(a.steps)|, id, built.error);
      WiderExcuse(a.site.env, reader, x.chainID, h, last, h, x.state.end, cancelled, built.error);
      return Err(built.error);
    }
    var y := Migrator(x.chainID, x.existing, x.revision, x.state, x.stateRevision, Confirmed(built.value));
    assert At(a.Now(), id, y);
    r := SaveNext(a, id, y);
    if r.Ok? { AdvancesByOne(a.site, j, y); } else { StillExcused(a.site, a.land, a.trace, a.steps, a.trace, a.steps, |old(a.steps)|, |es|, id, r.error); }
  }

  /** The state moves on by the segment the plan has next. */
  ghost predicate Advances(site: Site, j: Migration, st: MigrationState, next: MigrationState) {
    && st.next <= j.end && SegmentFor(site, j, st.next).Some?
    && next == st.(segments := st.segments + [SegmentFor(site, j, st.next).value], next := LastOf(j, st.next) + 1)
  }

  lemma AdvancesByOne(site: Site, j: Migration, x: Writer)
    requires x.Migrator? && ValidState(x.state) && x.job.Confirmed? && x.state.next <= j.end
    requires x.job.segment.first == x.state.next && x.job.segment.last == LastOf(j, x.state.next)
    requires IsBuilt(site, j.chainID, Slice(j.load, x.state.next, LastOf(j, x.state.next)), j.compression, x.job.segment)
    ensures Advances(site, j, x.state, NextState(x))
  {
    hide ValidState;
    forall i | 0 <= i < |x.state.segments| ensures x.state.segments[i].first != x.job.segment.first {
      SavedAreBelow(x.state, i);
    }
    AppendGoesLast(x.state.segments, x.job.segment);
  }

  /** From `from` on, the state has followed the plan. */
  ghost predicate Continues(site: Site, j: Migration, from: MigrationState, st: MigrationState) {
    && from.segments <= st.segments && st.start == from.start && st.end == from.end
    && Builds(site, j, from.next, st.segments[|from.segments|..], st.next)
  }

  lemma ContinuesByOne(site: Site, j: Migration, from: MigrationState, st: MigrationState, next: MigrationState)
    requires Continues(site, j, from, st) && Advances(site, j, st, next)
    ensures Continues(site, j, from, next)
  {
    hide SegmentFor, LastOf;
    var segs, s := st.segments[|from.segments|..], SegmentFor(site, j, st.next).value;
    BuildsOneMore(site, j, from.next, segs, st.next, s);
    assert next.segments[|from.segments|..] == segs + [s];
  }

  /** The segment loop. */
  method MigrateRange(a: Archive, id: int, reader: Reader, start: Writer, ghost j: Migration, comp: Compression, n: int, cancelled: int -> bool)
    returns (r: Result<Writer, ArchiveError>)
    requires a.Valid() && GoodReader(reader) && At(a.Now(), id, start) && start.Migrator? && start.job.Idle? && ValidState(start.state)
    requires n > 0 && !comp.Unknown? && j == Migration(start.chainID, reader.load, start.state.start, start.state.end, n, comp)
    requires id in a.jobs && a.jobs[id] == j
    modifies a`trace, a`steps, a.store`objects
    ensures a.Valid() && old(a.trace) <= a.trace && old(a.steps) <= a.steps && Later(old(a.Now()), a.Now())
    ensures r.Ok? ==> At(a.Now(), id, r.value) && r.value.Migrator? && r.value.job.Idle? && ValidState(r.value.state)
    ensures r.Ok? ==> r.value.chainID == start.chainID && Continues(a.site, j, start.state, r.value.state) && r.value.state.next == j.end + 1
    ensures r.Err? ==> id !in a.Now().writers && a.Excused(reader, start.chainID, start.state.next, start.state.end, cancelled, |old(a.steps)|, id, r.error)
  {
    hide Apply, Run, ValidState, Continues, Advances, StoreToBlame, SourceToBlame, Obeys, GoodReader;
    var x := start;
    StateRange(x.state);
    ContinuesItself(a.site, j, x.state);
    while x.state.next <= x.state.end
      invariant a.Valid() && old(a.trace) <= a.trace && old(a.steps) <= a.steps && Later(old(a.Now()), a.Now())
      invariant At(a.Now(), id, x) && x.Migrator? && x.job.Idle? && ValidState(x.state)
      invariant x.chainID == start.chainID && x.state.start == start.state.start && x.state.end == start.state.end
      invariant Continues(a.site, j, start.state, x.state) && start.state.next <= x.state.next <= j.end + 1
      decreases x.state.end - x.state.next
    {
      if cancelled(x.state.next) {
        a.GiveUp(id);
        BlameContext(a.site.env, reader, start.chainID, start.state.next, start.state.end, cancelled, x.state.next);
        return Err(Cancelled);
      }
      ghost var es := a.steps;
      var next := MigrateOne(a, id, reader, x, j, comp, n, cancelled);
      if next.Err? {
        WiderExcuse(a.site.env, reader, start.chainID, x.state.next, x.state.end, start.state.next, start.state.end, cancelled, next.error);
        StillExcused(a.site, a.land, a.trace, a.steps, a.trace, a.steps, |old(a.steps)|, |es|, id, next.error);
        return Err(next.error);
      }
      ContinuesByOne(a.site, j, start.state, x.state, next.value.state);
      AdvancesForward(a.site, j, x.state, next.value.state);
      x := next.value;
    }
    return Ok(x);
  }

  lemma StateStarts(st: MigrationState)
    requires ValidState(st)
    ensures 0 < st.start <= st.next
  {
  }

  lemma StateRange(st: MigrationState)
    requires ValidState(st)
    ensures st.next <= st.end + 1
  {
  }

  lemma ContinuesItself(site: Site, j: Migration, st: MigrationState)
    ensures Continues(site, j, st, st)
  {
  }

  lemma AdvancesForward(site: Site, j: Migration, st: MigrationState, next: MigrationState)
    requires Advances(site, j, st, next) && j.n > 0
    ensures st.next < next.next <= j.end + 1 && next.start == st.start && next.end == st.end
  {
  }

  /** Joins, loads the state, and saves it again where it came from a legacy key. */
  method Begin(a: Archive, id: int, chainID: string, start: int, end: int, legacy: bool) returns (r: Result<Writer, ArchiveError>)
    requires a.Valid() && id !in a.Now().writers && 0 < start <= end && chainID != ""
    requires id in a.jobs ==> a.jobs[id].chainID == chainID && a.jobs[id].start == start && a.jobs[id].end == end
    modifies a`trace, a`steps, a.store`objects
    ensures a.Valid() && old(a.trace) <= a.trace && old(a.steps) <= a.steps && Later(old(a.Now()), a.Now())
    ensures r.Ok? ==> At(a.Now(), id, r.value) && r.value.Migrator? && r.value.job.Idle? && ValidState(r.value.state)
    ensures r.Ok? ==> r.value.chainID == chainID && r.value.state.start == start && r.value.state.end == end
    ensures r.Ok? ==> Opened(a.trace, a.steps, |old(a.steps)|, id, r.value.state)
    ensures r.Err? ==> id !in a.Now().writers
    ensures r.Err? ==> CannotOpen(a.site, a.trace, |old(a.steps)|, id, chainID, start, end) || StoreToBlame(a.site, a.land, a.trace, a.steps, |old(a.steps)|, id, r.error)
  {
    hide Apply, Run, ValidState, Opened, StoreToBlame, CannotOpen, StartsMigration, OpensState, Obeys;
    r := OpenMigration(a, id, chainID, start, end);
    if r.Err? {
      OpeningFails(a.site, a.trace, |old(a.steps)|, |a.steps|, id, chainID, start, end);
      return;
    }
    FreshState(r.value.state);
    ghost var before := a.steps;
    var resumed := ResumeState(a, id, r.value, legacy);
    if resumed.Err? {
      ghost var at := |a.steps|;
      a.GiveUp(id);
      OpeningFails(a.site, a.trace, |old(a.steps)|, at, id, chainID, start, end);
      return Err(resumed.error);
    }
    var (x, older) := resumed.value;
    ghost var ws, es := a.trace, a.steps;
    OpenedWithin(ws, es, ws, es, |old(a.steps)|, |before|, id, x.state);
    if !older { return Ok(x); }
    SameState(x);
    r := SaveNext(a, id, x);
    if r.Err? { StillExcused(a.site, a.land, a.trace, a.steps, a.trace, a.steps, |old(a.steps)|, |es|, id, r.error); }
    OpenedWithin(ws, es, a.trace, a.steps, |old(a.steps)|, |before|, id, x.state);
  }

  /** Completes the segments, checks them all, and publishes. */
  method Complete(a: Archive, id: int, reader: Reader, x: Writer, ghost j: Migration, comp: Compression, n: int, cancelled: int -> bool)
    returns (r: Result<Manifest, ArchiveError>)
    requires a.Valid() && GoodReader(reader) && At(a.Now(), id, x) && x.Migrator? && x.job.Idle? && ValidState(x.state)
    requires n > 0 && !comp.Unknown? && j == Migration(x.chainID, reader.load, x.state.start, x.state.end, n, comp)
    requires id in a.jobs && a.jobs[id] == j
    modifies a`trace, a`steps, a.store`objects
    ensures a.Valid() && old(a.trace) <= a.trace && old(a.steps) <= a.steps && Later(old(a.Now()), a.Now()) && id !in a.Now().writers
    ensures r.Ok? ==> r.value in a.Now().history && x.state.segments <= r.value.segments
    ensures r.Ok? ==> Builds(a.site, j, x.state.next, r.value.segments[|x.state.segments|..], j.end + 1)
    ensures r.Ok? ==> PublishedBy(a.site, a.trace, a.steps, |old(a.steps)|, id, r.value)
    ensures r.Ok? ==> forall h :: InRange(r.value, h) <==> x.state.start <= h <= x.state.end
    ensures r.Err? ==> a.Excused(reader, x.chainID, x.state.next, x.state.end, cancelled, |old(a.steps)|, id, r.error)
  {
    hide Apply, Run, ValidState, Builds, PublishedBy, StoreToBlame, SourceToBlame, WasBarred, SegmentReadable, Obeys, GoodReader;
    var done := MigrateRange(a, id, reader, x, j, comp, n, cancelled);
    if done.Err? { return Err(done.error); }
    var y := done.value;
    var ok := CheckCompleted(a, id, y);
    if !ok {
      ghost var es := a.steps;
      Refuse(a, id, NotVerified);
      StillExcused(a.site, a.land, a.trace, a.steps, a.trace, a.steps, |old(a.steps)|, |es|, id, NotVerified);
      return Err(NotVerified);
    }
    ghost var before := a.steps;
    r := PublishMigration(a, id, Migrator(y.chainID, y.existing, y.revision, y.state, y.stateRevision, Checked));
    if r.Err? { StillExcused(a.site, a.land, a.trace, a.steps, a.trace, a.steps, |old(a.steps)|, |before|, id, r.error); }
    if r.Ok? { PublishedSooner(a.site, a.trace, a.steps, |old(a.steps)|, |before|, id, r.value); }
  }

  lemma PublishedSooner(site: Site, ws: seq<World>, es: seq<Event>, lo: nat, hi: nat, id: int, m: Manifest)
    requires lo <= hi && PublishedBy(site, ws, es, hi, id, m)
    ensures PublishedBy(site, ws, es, lo, id, m)
  {
  }

  /** What a successful migration call leaves in the trace. */
  ghost predicate Migrated(site: Site, ws: seq<World>, es: seq<Event>, lo: nat, id: int, j: Migration, from: MigrationState, m: Manifest)
    requires |ws| == |es| + 1
  {
    && Opened(ws, es, lo, id, from) && ValidState(from) && PublishedBy(site, ws, es, lo, id, m)
    && from.segments <= m.segments && Builds(site, j, from.next, m.segments[|from.segments|..], j.end + 1)
  }

  /** The heights to migrate: all the source has, from the start and up to the end where they are given. */
  predicate Wanted(reader: Reader, o: MigrationOptions, h: int) {
    reader.base <= h <= reader.height && (o.start != 0 ==> o.start <= h) && (o.end != 0 ==> h <= o.end)
  }

  /** The source has blocks, and the range asked for is not empty, not larger than what there is, and positive. */
  predicate GoodRange(reader: Reader, o: MigrationOptions) {
    && reader.base != 0 && reader.height != 0 && (o.start != 0 ==> reader.base <= o.start) && (o.end != 0 ==> o.end <= reader.height)
    && 0 < (if o.start == 0 then reader.base else o.start) <= (if o.end == 0 then reader.height else o.end)
  }

  predicate GoodOptions(o: MigrationOptions) {
    o.chainID != "" && BlocksPerSegment(o.segmentBlocks) <= MAX_SEGMENT_BLOCKS && !WithDefault(o.compression).Unknown?
  }

  lemma RangeIsWanted(reader: Reader, o: MigrationOptions)
    ensures GoodRange(reader, o) ==> JobOf(reader, o).Some?
    ensures JobOf(reader, o).Some? ==> forall h :: Wanted(reader, o, h) <==> JobOf(reader, o).value.start <= h <= JobOf(reader, o).value.end
    ensures JobOf(reader, o).Some? && !GoodRange(reader, o) ==> JobOf(reader, o).value.start <= 0
  {
  }

  lemma ObeysFresh(jobs: map<int, Migration>, ws: seq<World>, es: seq<Event>, id: int, j: Migration)
    requires |ws| == |es| + 1 && Obeys(jobs, ws, es) && forall i :: 0 <= i < |es| ==> es[i].id != id
    ensures Obeys(jobs[id := j], ws, es)
  {
    hide CarriesOut;
  }

  lemma ObeysOne(jobs: map<int, Migration>, ws: seq<World>, es: seq<Event>, id: int)
    requires |ws| == |es| + 1 && Obeys(jobs, ws, es) && id in jobs
    ensures forall i :: 0 <= i < |es| && es[i].id == id ==> CarriesOut(jobs[id], ws[i], es[i])
  {
    hide CarriesOut;
  }

  /** The job a call with these options has, once the range is clamped. */
  function JobOf(reader: Reader, o: MigrationOptions): Option<Migration> {
    var range := ClampRange(reader, o.start, o.end);
    if range.None? then None
    else Some(Migration(o.chainID, reader.load, range.value.0, range.value.1, BlocksPerSegment(o.segmentBlocks), WithDefault(o.compression)))
  }

  /**
   A migration run, from the saved state to the published manifest.  Whatever it resumes
   from, it publishes those segments and then exactly what the plan has next, and every
   step it takes carries out the plan.
   */
  method Migrate(a: Archive, id: int, reader: Reader, o: MigrationOptions, cancelled: int -> bool)
    returns (r: Result<Manifest, ArchiveError>, ghost from: MigrationState)
    requires a.Valid() && GoodReader(reader) && id !in a.Now().writers && forall i :: 0 <= i < |a.steps| ==> a.steps[i].id != id
    modifies a`trace, a`steps, a`jobs, a.store`objects
    ensures a.Valid() && old(a.trace) <= a.trace && old(a.steps) <= a.steps && Later(old(a.Now()), a.Now()) && id !in a.Now().writers
    ensures JobOf(reader, o).Some? ==>
              forall i :: |old(a.steps)| <= i < |a.steps| && a.steps[i].id == id ==> CarriesOut(JobOf(reader, o).value, a.trace[i], a.steps[i])
    ensures r.Ok? ==> JobOf(reader, o).Some? && Migrated(a.site, a.trace, a.steps, |old(a.steps)|, id, JobOf(reader, o).value, from, r.value)
    ensures r.Ok? ==> forall h :: InRange(r.value, h) <==> Wanted(reader, o, h)
    ensures r.Err? ==>
              || !GoodRange(reader, o) || !GoodOptions(o)
              || CannotOpen(a.site, a.trace, |old(a.steps)|, id, o.chainID, JobOf(reader, o).value.start, JobOf(reader, o).value.end)
              || a.Excused(reader, o.chainID, 1, reader.height, cancelled, |old(a.steps)|, id, r.error)
  {
    hide Apply, Run, StoreToBlame, SourceToBlame, CannotOpen, Obeys, CarriesOut, GoodReader, Migrated;
    RangeIsWanted(reader, o);
    var job := JobOf(reader, o);
    from := MigrationState("", 0, 0, 0, []);
    if job.None? { return Err(BadRange), from; }
    var j := job.value;
    ObeysFresh(a.jobs, a.trace, a.steps, id, j);
    a.jobs := a.jobs[id := j];
    if o.chainID == "" || j.n > MAX_SEGMENT_BLOCKS || j.compression.Unknown? { return Err(BadOptions), from; }
    if j.start <= 0 { return Err(BadRange), from; }
    r, from := RunJob(a, id, reader, j, o.legacy, cancelled);
    ObeysOne(a.jobs, a.trace, a.steps, id);
    if r.Err? { WiderExcuse(a.site.env, reader, o.chainID, j.start, j.end, 1, reader.height, cancelled, r.error); }
  }

  /** The run itself, once the options are in order. */
  method RunJob(a: Archive, id: int, reader: Reader, j: Migration, legacy: bool, cancelled: int -> bool)
    returns (r: Result<Manifest, ArchiveError>, ghost from: MigrationState)
    requires a.Valid() && GoodReader(reader) && id !in a.Now().writers && id in a.jobs && a.jobs[id] == j && j.load == reader.load
    requires 0 < j.start <= j.end && j.n > 0 && j.chainID != "" && !j.compression.Unknown?
    modifies a`trace, a`steps, a.store`objects
    ensures a.Valid() && old(a.trace) <= a.trace && old(a.steps) <= a.steps && Later(old(a.Now()), a.Now()) && id !in a.Now().writers
    ensures r.Ok? ==> Migrated(a.site, a.trace, a.steps, |old(a.steps)|, id, j, from, r.value) && forall h :: InRange(r.value, h) <==> j.start <= h <= j.end
    ensures r.Err? ==>
              || CannotOpen(a.site, a.trace, |old(a.steps)|, id, j.chainID, j.start, j.end)
              || a.Excused(reader, j.chainID, j.start, j.end, cancelled, |old(a.steps)|, id, r.error)
  {
    hide Apply, Run, ValidState, Builds, Opened, PublishedBy, StoreToBlame, SourceToBlame, CannotOpen, Obeys, GoodReader;
    from := MigrationState("", 0, 0, 0, []);
    var begun := Begin(a, id, j.chainID, j.start, j.end, legacy);
    if begun.Err? { return Err(begun.error), from; }
    from := begun.value.state;
    StateStarts(from);
    ghost var ws, es := a.trace, a.steps;
    r := Complete(a, id, reader, begun.value, j, j.compression, j.n, cancelled);
    if r.Err? {
      WiderExcuse(a.site.env, reader, j.chainID, from.next, j.end, j.start, j.end, cancelled, r.error);
      StillExcused(a.site, a.land, a.trace, a.steps, a.trace, a.steps, |old(a.steps)|, |es|, id, r.error);
    }
    if r.Ok? {
      OpenedWithin(ws, es, a.trace, a.steps, |old(a.steps)|, |old(a.steps)|, id, from);
      PublishedSooner(a.site, a.trace, a.steps, |old(a.steps)|, |es|, id, r.value);
    }
  }

  /**
   Two calls of `Migrate` for the same job, on any two stores and after any interruptions,
   publish the same segments, as long as other migrators there carry out that job too.
   */
  lemma MigrateCallsAgree(site: Site, j: Migration, ws: seq<World>, es: seq<Event>, lo: nat, id: int, from: MigrationState, m: Manifest,
                          vs: seq<World>, fs: seq<Event>, lo': nat, id': int, from': MigrationState, m': Manifest)
    requires GoodSite(site) && GoodMigration(j)
    requires Run(site, ws, es) && Inv(site, ws[0]) && PlanInv(site, j, ws[0]) && CollisionFree(site.env.sha, ws[|es|].bytes)
    requires forall i :: 0 <= i < |es| ==> CarriesOut(j, ws[i], es[i])
    requires Run(site, vs, fs) && Inv(site, vs[0]) && PlanInv(site, j, vs[0]) && CollisionFree(site.env.sha, vs[|fs|].bytes)
    requires forall i :: 0 <= i < |fs| ==> CarriesOut(j, vs[i], fs[i])
    requires Migrated(site, ws, es, lo, id, j, from, m) && Migrated(site, vs, fs, lo', id', j, from', m')
    ensures m.segments == m'.segments
  {
    hide GoodSite, Inv, PlanInv, Apply, CarriesOut, Builds, Opened, CollisionFree;
    var k :| lo <= k && Publishes(site, ws, es, k, m) && es[k].id == id;
    var l :| lo' <= l && Publishes(site, vs, fs, l, m') && fs[l].id == id';
    BytesOnlyGrowAlong(site, ws, es, k, |es|);
    BytesOnlyGrowAlong(site, vs, fs, l, |fs|);
    MigrationsAgree(site, j, ws, es, vs, fs, k, l, m, m');
  }

  lemma FreshState(st: MigrationState)
    requires st.segments == [] && st.next == st.start && 0 < st.start <= st.end && st.chainID != ""
    ensures ValidState(st)
  {
  }
}
