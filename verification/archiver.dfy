/**
 The programs that publish: the live archiver and the resumable migration.  Each method
 records the protocol steps it takes, so what `Publication` proves of every interleaving
 of such steps holds of any number of these programs sharing one store.
 */
module Archiver {
  import opened Common
  import opened Chain
  import opened Manifests
  import opened Segments
  import opened ObjectStores
  import opened Publication

  const DEFAULT_SEGMENT_BLOCKS: int := 100

  /** A block source; `limit` is how far a source that authenticates blocks lets them be archived. */
  datatype Reader = Reader(base: int, height: int, load: int -> Option<Block>, limit: Option<int>)

  /** A block store answers with the block of the height asked for. */
  ghost predicate GoodReader(reader: Reader) {
    forall h :: reader.load(h).Some? ==> reader.load(h).value.header.height == h && IsInt64(h)
  }

  datatype ArchiveError =
    | BadOptions | EmptySource | BadRange | ManifestUnreadable | StateUnreadable | WrongChain | WrongRange
    | MissingBlock | Unencodable | UploadFailed | NotAsSent | BadSegment | BadManifest | BadState
    | PublishConflict | StateConflict | NotVerified | Cancelled

  /** The blocks of a height range, if the source has them all. */
  function Slice(load: int -> Option<Block>, first: int, last: int): (r: Option<seq<Block>>)
    ensures r.Some? ==> |r.value| == Max(last - first + 1, 0)
    ensures r.Some? ==> forall i :: 0 <= i < |r.value| ==> load(first + i) == Some(r.value[i])
    decreases last - first
  {
    if last < first then Some([])
    else
      var init, b := Slice(load, first, last - 1), load(last);
      if init.None? || b.None? then None else Some(init.value + [b.value])
  }

  ghost predicate OfChain(bs: seq<Block>, chainID: string) { forall b :: b in bs ==> b.header.chainID == chainID }

  lemma {:induction false} SlicePrefix(load: int -> Option<Block>, first: int, last: int, h: int)
    requires Slice(load, first, last).Some? && first <= h <= last
    ensures Slice(load, first, h).Some? && Slice(load, first, h).value == Slice(load, first, last).value[..h - first + 1]
    decreases last - h
  {
    var all := Slice(load, first, last).value;
    if h == last {
      assert all[..h - first + 1] == all;
    } else {
      var init := Slice(load, first, last - 1).value;
      SlicePrefix(load, first, last - 1, h);
      assert all[..h - first + 1] == init[..h - first + 1];
    }
  }

  function WithDefault(comp: Compression): Compression { if comp == Unknown("") then Gzip else comp }

  function BlocksPerSegment(n: int): int { if n <= 0 then DEFAULT_SEGMENT_BLOCKS else n }

  datatype LiveOptions = LiveOptions(chainID: string, start: int, ready: int, segmentBlocks: int, compression: Compression)

  /** Where a live archiver goes on, and how far it may go. */
  function NextToArchive(m: Manifest, reader: Reader, o: LiveOptions): int {
    if m.last != 0 then m.last + 1 else if o.start == 0 then reader.base else o.start
  }

  function LastToArchive(reader: Reader, o: LiveOptions): int {
    var end := Min(o.ready, reader.height);
    if reader.limit.Some? then Min(end, reader.limit.value) else end
  }

  /** `m` is `from`, or starts at `start`, and then has segments of at most `n` of the source's blocks each, up to `end`. */
  ghost predicate Grown(w: World, reader: Reader, n: int, from: Manifest, m: Manifest, start: int, end: int, final: int) {
    && from.segments <= m.segments && m.chainID == from.chainID && m.last == end && m.segments != []
    && m.first == (if from.segments == [] then start else from.first)
    && AllSupplied(w, reader, n, from, m, final)
  }

  /** The segments after those of `from` hold the source's blocks, `n` each until `final` is reached. */
  ghost predicate AllSupplied(w: World, reader: Reader, n: int, from: Manifest, m: Manifest, final: int) {
    forall i :: |from.segments| <= i < |m.segments| ==> SuppliedBy(w, reader, m.segments[i]) && m.segments[i].last == Min(m.segments[i].first + n - 1, final)
  }

  ghost predicate SuppliedBy(w: World, reader: Reader, s: Segment) {
    var bs := Slice(reader.load, s.first, s.last);
    bs.Some? && (s, bs.value) in w.built
  }

  /** One migration: an unchanging source and fixed options, with the range already clamped. */
  datatype Migration = Migration(chainID: string, load: int -> Option<Block>, start: int, end: int, n: int, compression: Compression)

  function LastOf(j: Migration, h: int): int { Min(h + j.n - 1, j.end) }

  /** A migrator's step carries out `j`; what live archivers do is their own business. */
  ghost predicate CarriesOut(j: Migration, w: World, e: Event) {
    && (e.StartMigration? ==> e.chainID == j.chainID && e.start == j.start && e.end == j.end)
    && (e.Build? && e.id in w.writers && w.writers[e.id].Migrator? ==>
          var h := w.writers[e.id].state.next;
          h <= j.end && Slice(j.load, h, LastOf(j, h)) == Some(e.blocks) && e.compression == j.compression)
  }

  /** The segment from `first` to `last` is what the job has next. */
  ghost predicate OnJob(j: Migration, st: MigrationState, reader: Reader, comp: Compression, first: int, last: int) {
    st.next == first <= j.end && LastOf(j, first) == last && j.load == reader.load && j.compression == comp
  }

  /** Every step of a writer with a job carries it out. */
  ghost predicate Obeys(jobs: map<int, Migration>, ws: seq<World>, es: seq<Event>)
    requires |ws| == |es| + 1
  {
    forall i :: 0 <= i < |es| && es[i].id in jobs ==> CarriesOut(jobs[es[i].id], ws[i], es[i])
  }

  /** After step `lo` the live archiver `id` joined with manifest `from`. */
  ghost predicate Joined(ws: seq<World>, es: seq<Event>, lo: nat, id: int, from: Manifest)
    requires |ws| == |es| + 1
  {
    exists i :: lo <= i < |es| && JoinedAt(es[i], ws[i + 1], id, from)
  }

  ghost predicate JoinedAt(e: Event, w: World, id: int, from: Manifest) {
    e.StartLive? && e.id == id && id in w.writers && w.writers[id].Live? && w.writers[id].manifest == from
  }

  lemma JoinedSooner(ws: seq<World>, es: seq<Event>, lo: nat, hi: nat, id: int, from: Manifest)
    requires |ws| == |es| + 1 && lo <= hi && Joined(ws, es, hi, id, from)
    ensures Joined(ws, es, lo, id, from)
  {
  }

  lemma JoinedLater(ws: seq<World>, es: seq<Event>, vs: seq<World>, fs: seq<Event>, lo: nat, id: int, from: Manifest)
    requires |ws| == |es| + 1 && |vs| == |fs| + 1 && ws <= vs && es <= fs && Joined(ws, es, lo, id, from)
    ensures Joined(vs, fs, lo, id, from)
  {
    var i :| lo <= i < |es| && JoinedAt(es[i], ws[i + 1], id, from);
    assert JoinedAt(fs[i], vs[i + 1], id, from);
  }

  /** What stays true of a world while any steps are taken. */
  ghost predicate Later(w: World, v: World) { w.built <= v.built && w.history <= v.history }

  lemma LaterStill(w: World, v: World, x: World)
    requires Later(w, v) && Later(v, x)
    ensures Later(w, x)
  {
  }

  lemma SuppliedLater(w: World, v: World, reader: Reader, s: Segment)
    requires SuppliedBy(w, reader, s) && Later(w, v)
    ensures SuppliedBy(v, reader, s)
  {
  }

  /** `m` is `from` still, or was published after growing from it up to `end`. */
  ghost predicate Reached(w: World, reader: Reader, n: int, from: Manifest, m: Manifest, start: int, end: int, final: int) {
    Grown(w, reader, n, from, m, start, end, final) && m in w.history
  }

  /** Height `h` is no further than any of the three bounds on archiving. */
  predicate Within(reader: Reader, ready: int, h: int) { 0 < h <= ready && h <= reader.height && (reader.limit.Some? ==> h <= reader.limit.value) }

  /**
   What an archiver makes of manifest `from`: every height within the bounds that comes after
   it, or after `start` where it is empty and `base` where there is no start either, is
   covered now; no other height was added; and what was there is there still.
   */
  ghost predicate CaughtUp(reader: Reader, start: int, ready: int, from: Manifest, m: Manifest) {
    && from.segments <= m.segments && m.chainID == from.chainID
    && (from.segments != [] ==>
          m.segments != [] && m.first == from.first && forall h :: InRange(m, h) && h > from.last <==> Within(reader, ready, h) && h > from.last)
    && (from.segments == [] && start == 0 ==> forall h :: InRange(m, h) <==> Within(reader, ready, h) && h >= reader.base)
    && (from.segments == [] && start != 0 ==> forall h :: InRange(m, h) <==> Within(reader, ready, h) && h >= start)
  }

  /** Options a live archiver accepts. */
  predicate GoodLive(o: LiveOptions) {
    o.chainID != "" && o.ready > 0 && BlocksPerSegment(o.segmentBlocks) <= MAX_SEGMENT_BLOCKS && !WithDefault(o.compression).Unknown?
  }

  /** The source is empty, or nothing says where a first archive is to start. */
  predicate NoStart(reader: Reader, start: int, from: Manifest) {
    reader.height == 0 || (from.segments == [] && (start < 0 || (start == 0 && reader.base <= 0)))
  }

  /** At some moment since `lo` the manifest was unreadable or of another chain. */
  ghost predicate CannotJoin(site: Site, ws: seq<World>, lo: nat, chainID: string) {
    exists i :: lo <= i < |ws| && StartsLive(site, ws[i], chainID).None?
  }

  lemma Unjoinable(site: Site, ws: seq<World>, lo: nat, i: nat, chainID: string)
    requires lo <= i < |ws| && StartsLive(site, ws[i], chainID).None?
    ensures CannotJoin(site, ws, lo, chainID)
  {
  }

  lemma EarlierJoin(site: Site, ws: seq<World>, lo: nat, hi: nat, chainID: string)
    requires lo <= hi
    ensures CannotJoin(site, ws, hi, chainID) ==> CannotJoin(site, ws, lo, chainID)
  {
    hide StartsLive;
  }

  lemma NothingToStart(reader: Reader, o: LiveOptions, from: Manifest)
    requires ValidManifest(from) && (reader.height == 0 || NextToArchive(from, reader, o) <= 0)
    ensures NoStart(reader, o.start, from)
  {
    if from.segments != [] { ValidRange(from); }
  }

  lemma EndIsWithin(reader: Reader, o: LiveOptions)
    ensures LastToArchive(reader, o) <= Min(o.ready, reader.height)
  {
  }

  lemma AddedWithin(reader: Reader, o: LiveOptions, from: Manifest, m: Manifest, h: int)
    requires ValidManifest(from) && CaughtUp(reader, o.start, o.ready, from, m) && InRange(m, h) && !InRange(from, h)
    ensures NextToArchive(from, reader, o) <= h <= LastToArchive(reader, o)
  {
    hide ValidSegment;
    if from.segments != [] { ValidRange(from); }
  }

  lemma CaughtUpBy(w: World, reader: Reader, o: LiveOptions, n: int, from: Manifest, m: Manifest)
    requires ValidManifest(from) && NextToArchive(from, reader, o) > 0
    requires var (first, last) := (NextToArchive(from, reader, o), LastToArchive(reader, o));
             if last < first then m == from else Reached(w, reader, n, from, m, first, last, last)
    ensures CaughtUp(reader, o.start, o.ready, from, m)
  {
    hide ValidSegment;
    if from.segments != [] { ValidRange(from); }
  }

  /** Bounding `ready` by the source's own limit beforehand makes no difference. */
  lemma SameBounds(reader: Reader, start: int, ready: int, all: int, from: Manifest, m: Manifest)
    requires CaughtUp(reader, start, ready, from, m) && ready == (if reader.limit.Some? then Min(all, reader.limit.value) else all)
    ensures CaughtUp(reader, start, all, from, m)
  {
    assert forall h :: Within(reader, ready, h) <==> Within(reader, all, h);
  }

  lemma ReachedSupplies(w: World, reader: Reader, n: int, from: Manifest, m: Manifest, start: int, end: int)
    requires Reached(w, reader, n, from, m, start, end, end)
    ensures m in w.history && AllSupplied(w, reader, n, from, m, m.last)
  {
  }

  /** With nothing to do, the loaded manifest is complete as it is. */
  lemma CaughtUpAsIs(reader: Reader, start: int, ready: int, from: Manifest)
    requires ValidManifest(from) && forall h :: !Within(reader, ready, h)
    ensures CaughtUp(reader, start, ready, from, from)
  {
    if from.segments != [] { ValidRange(from); }
  }

  lemma ReachedLater(w: World, v: World, reader: Reader, n: int, from: Manifest, m: Manifest, start: int, end: int, final: int)
    requires Reached(w, reader, n, from, m, start, end, final) && Later(w, v)
    ensures Reached(v, reader, n, from, m, start, end, final)
  {
    forall i | |from.segments| <= i < |m.segments| ensures SuppliedBy(v, reader, m.segments[i]) {
      SuppliedLater(w, v, reader, m.segments[i]);
    }
    var i :| 0 <= i < |w.history| && w.history[i] == m;
    assert v.history[i] == m;
  }

  // ---------------------------------------------------------------- why archiving may fail

  /** The caller's context was not done at any of these heights. */
  ghost predicate Uncancelled(cancelled: int -> bool, first: int, last: int) { forall h :: first <= h <= last ==> !cancelled(h) }

  ghost predicate Unbuildable(env: Env, bs: Option<seq<Block>>) {
    bs.Some? && (RecordsOf(env, bs.value).None? || !Accepts(RecordsOf(env, bs.value).value))
  }

  /** The source, the caller's context or the encoder is to blame, at a height from `first` to `last`. */
  ghost predicate SourceToBlame(env: Env, reader: Reader, chainID: string, first: int, last: int, cancelled: int -> bool, e: ArchiveError) {
    match e
    case Cancelled => exists h :: first <= h <= last && cancelled(h)
    case MissingBlock => exists h :: first <= h <= last && reader.load(h).None?
    case WrongChain => exists h :: first <= h <= last && reader.load(h).Some? && reader.load(h).value.header.chainID != chainID
    case Unencodable => exists g, h :: first <= g <= h <= last && Unbuildable(env, Slice(reader.load, g, h))
    case _ => false
  }

  /** In one of the worlds `ws`, the segment that writer `id` had built was not stored as described. */
  ghost predicate WasDamaged(site: Site, w: World, id: int) {
    id in w.writers && w.writers[id].job.Built? && !Stored(site.env, w.objects, w.writers[id].job.segment)
  }

  /** Writer `id` was ready to publish, or to save its state, or to check its segments, and what it had does not pass. */
  ghost predicate WasBarred(site: Site, w: World, id: int, e: ArchiveError) {
    && id in w.writers
    && var x := w.writers[id];
    match e
    case BadSegment => x.Live? && x.job.Confirmed? && !CanPublish(site, x)
    case BadManifest => ((x.Live? && x.job.Confirmed?) || (x.Migrator? && x.job.Checked?)) && !CanPublish(site, x)
    case BadState => x.Migrator? && (x.job.Idle? || x.job.Confirmed?) && !CanSave(site, x)
    case NotVerified => x.Migrator? && x.job.Idle? && x.state.next > x.state.end && !CanCheck(site, w, x)
    case _ => false
  }

  /** The step with which `id` publishes or saves found another version in place. */
  ghost predicate WasStale(w: World, e: Event, v: World, id: int, cause: ArchiveError) {
    e == (if cause.StateConflict? then SaveState(id) else Publish(id)) && v == DropWriter(w, id)
  }

  /** Since step `lo` the store, or the other writers, gave cause for the error `e`. */
  ghost predicate StoreToBlame(site: Site, land: (string, Bytes) -> Option<Bytes>, ws: seq<World>, es: seq<Event>, lo: nat, id: int, e: ArchiveError)
    requires |ws| == |es| + 1
  {
    if e.UploadFailed? then exists key, data :: land(key, data).None?
    else exists i :: lo <= i < |ws| && ToBlameAt(site, ws, es, i, id, e)
  }

  lemma SourceBlamedWider(env: Env, reader: Reader, chainID: string, first: int, last: int, low: int, high: int, cancelled: int -> bool, e: ArchiveError)
    requires SourceToBlame(env, reader, chainID, first, last, cancelled, e) && low <= first && last <= high
    ensures SourceToBlame(env, reader, chainID, low, high, cancelled, e)
  {
    hide Unbuildable;
    if e.Unencodable? {
      var g, h :| first <= g <= h <= last && Unbuildable(env, Slice(reader.load, g, h));
      assert low <= g <= h <= high;
    }
  }

  lemma StoreBlamedLater(site: Site, land: (string, Bytes) -> Option<Bytes>, ws: seq<World>, es: seq<Event>, vs: seq<World>, fs: seq<Event>, lo: nat, hi: nat, id: int, e: ArchiveError)
    requires |ws| == |es| + 1 && |vs| == |fs| + 1 && ws <= vs && es <= fs && lo <= hi && StoreToBlame(site, land, ws, es, hi, id, e)
    ensures StoreToBlame(site, land, vs, fs, lo, id, e)
  {
    if !e.UploadFailed? {
      var i := Culprit(site, land, ws, es, hi, id, e);
      PrefixAt(ws, vs, i);
      if i < |es| {
        PrefixAt(ws, vs, i + 1);
        PrefixAt(es, fs, i);
      }
      hide StoreToBlame;
      assert ToBlameAt(site, vs, fs, i, id, e) by { hide WasDamaged, WasBarred, WasStale; }
      BlameStore(site, land, vs, fs, lo, i, id, e);
    }
  }

  /** Moment `i` of the run gave cause for `e`. */
  ghost predicate ToBlameAt(site: Site, ws: seq<World>, es: seq<Event>, i: nat, id: int, e: ArchiveError)
    requires |ws| == |es| + 1 && i < |ws|
  {
    if e.NotAsSent? then WasDamaged(site, ws[i], id)
    else if e.PublishConflict? || e.StateConflict? then i < |es| && WasStale(ws[i], es[i], ws[i + 1], id, e)
    else !e.UploadFailed? && WasBarred(site, ws[i], id, e)
  }

  lemma Culprit(site: Site, land: (string, Bytes) -> Option<Bytes>, ws: seq<World>, es: seq<Event>, lo: nat, id: int, e: ArchiveError) returns (i: nat)
    requires |ws| == |es| + 1 && StoreToBlame(site, land, ws, es, lo, id, e) && !e.UploadFailed?
    ensures lo <= i < |ws| && ToBlameAt(site, ws, es, i, id, e)
  {
    hide ToBlameAt;
    i :| lo <= i < |ws| && ToBlameAt(site, ws, es, i, id, e);
  }

  lemma PrefixAt<T>(a: seq<T>, b: seq<T>, i: nat)
    requires a <= b && i < |a|
    ensures b[i] == a[i]
  {
  }

  /** The last step was refused. */
  lemma BlameLastStep(site: Site, land: (string, Bytes) -> Option<Bytes>, ws: seq<World>, es: seq<Event>, lo: nat, id: int, e: ArchiveError)
    requires |ws| == |es| + 1 && lo < |es| && (e.PublishConflict? || e.StateConflict?)
    requires es[|es| - 1] == (if e.StateConflict? then SaveState(id) else Publish(id)) && ws[|es|] == DropWriter(ws[|es| - 1], id)
    ensures StoreToBlame(site, land, ws, es, lo, id, e)
  {
    BlameStore(site, land, ws, es, lo, |es| - 1, id, e);
  }

  lemma BlameContext(env: Env, reader: Reader, chainID: string, first: int, last: int, cancelled: int -> bool, h: int)
    requires first <= h <= last && cancelled(h)
    ensures SourceToBlame(env, reader, chainID, first, last, cancelled, Cancelled)
  {
  }

  lemma BlameUpload(site: Site, land: (string, Bytes) -> Option<Bytes>, ws: seq<World>, es: seq<Event>, lo: nat, id: int, key: string, data: Bytes)
    requires |ws| == |es| + 1 && land(key, data).None?
    ensures StoreToBlame(site, land, ws, es, lo, id, UploadFailed)
  {
  }

  lemma BlameEncoder(env: Env, reader: Reader, chainID: string, first: int, last: int, cancelled: int -> bool, bs: seq<Block>, rs: seq<Record>)
    requires first <= last && Slice(reader.load, first, last) == Some(bs) && RecordsOf(env, bs) == Some(rs) && !Accepts(rs)
    ensures SourceToBlame(env, reader, chainID, first, last, cancelled, Unencodable)
  {
    assert Unbuildable(env, Slice(reader.load, first, last));
  }

  lemma BlameStore(site: Site, land: (string, Bytes) -> Option<Bytes>, ws: seq<World>, es: seq<Event>, lo: nat, at: nat, id: int, e: ArchiveError)
    requires |ws| == |es| + 1 && lo <= at < |ws|
    requires ToBlameAt(site, ws, es, at, id, e) && !e.UploadFailed?
    ensures StoreToBlame(site, land, ws, es, lo, id, e)
  {
    hide ToBlameAt;
  }

  lemma WiderExcuse(env: Env, reader: Reader, chainID: string, first: int, last: int, low: int, high: int, cancelled: int -> bool, e: ArchiveError)
    requires low <= first && last <= high
    ensures SourceToBlame(env, reader, chainID, first, last, cancelled, e) ==> SourceToBlame(env, reader, chainID, low, high, cancelled, e)
  {
    if SourceToBlame(env, reader, chainID, first, last, cancelled, e) { SourceBlamedWider(env, reader, chainID, first, last, low, high, cancelled, e); }
  }

  lemma StillExcused(site: Site, land: (string, Bytes) -> Option<Bytes>, ws: seq<World>, es: seq<Event>, vs: seq<World>, fs: seq<Event>, lo: nat, hi: nat, id: int, e: ArchiveError)
    requires |ws| == |es| + 1 && |vs| == |fs| + 1 && ws <= vs && es <= fs && lo <= hi
    ensures StoreToBlame(site, land, ws, es, hi, id, e) ==> StoreToBlame(site, land, vs, fs, lo, id, e)
  {
    if StoreToBlame(site, land, ws, es, hi, id, e) { StoreBlamedLater(site, land, ws, es, vs, fs, lo, hi, id, e); }
  }

  /** Only the writer's job changed. */
  ghost predicate SameBut(w: World, v: World, id: int, job: Job) {
    id in w.writers && id in v.writers && v.writers[id] == w.writers[id].(job := job)
  }

  /** What the encoder returned is what the protocol builds. */
  lemma EncodedIsBuilt(site: Site, chainID: string, reader: Reader, bs: seq<Block>, rs: seq<Record>, comp: Compression, data: Bytes, s: Segment, first: int, last: int)
    requires GoodReader(reader) && Slice(reader.load, first, last) == Some(bs) && OfChain(bs, chainID) && RecordsOf(site.env, bs) == Some(rs)
    requires !comp.Unknown? && Accepts(rs) && data == EncodedData(site.env, rs, comp) && s == EncodedSegment(site.env, rs, comp)
    ensures BuildSegment(site, chainID, bs, comp) == Some((s.(key := site.segmentKey(chainID, s)), data))
    ensures s.first == first && s.last == last
  {
  }

  ghost predicate IsBuilt(site: Site, chainID: string, bs: Option<seq<Block>>, comp: Compression, s: Segment) {
    bs.Some? && BuildSegment(site, chainID, bs.value, comp).Some? && BuildSegment(site, chainID, bs.value, comp).value.0 == s
  }

  lemma BuildStep(site: Site, w: World, id: int, bs: seq<Block>, comp: Compression)
    requires id in w.writers && w.writers[id].job.Idle? && BuildSegment(site, w.writers[id].chainID, bs, comp).Some?
    ensures var p := BuildSegment(site, w.writers[id].chainID, bs, comp).value;
            Apply(site, w, Build(id, bs, comp)) == Some(AfterBuild(w, id, w.writers[id], p.0, p.1, bs))
  {
  }

  lemma UploadStep(site: Site, w: World, id: int, landed: Bytes)
    requires id in w.writers && w.writers[id].job.Built?
    ensures Apply(site, w, Upload(id, landed)) == Some(AfterUpload(w, w.writers[id].job.segment.key, landed))
  {
  }

  lemma ConfirmStep(site: Site, w: World, id: int)
    requires id in w.writers && w.writers[id].job.Built? && Stored(site.env, w.objects, w.writers[id].job.segment)
    ensures Apply(site, w, Confirm(id)) == Some(SetWriter(w, id, w.writers[id].(job := Confirmed(w.writers[id].job.segment))))
  {
  }

  lemma PublishStep(site: Site, w: World, id: int)
    requires id in w.writers && CanPublish(site, w.writers[id])
    ensures Apply(site, w, Publish(id)) == Some(AfterPublish(site, w, id, w.writers[id]))
  {
  }

  lemma SaveStep(site: Site, w: World, id: int)
    requires id in w.writers && CanSave(site, w.writers[id])
    ensures Apply(site, w, SaveState(id)) == Some(AfterSave(site, w, id, w.writers[id]))
  {
  }

  /** What a save, or a publication, comes to. */
  lemma SaveOutcome(site: Site, w: World, id: int, x: Writer)
    requires x.Migrator?
    ensures var (swapped, v) := (Swap(site.env.sha, w.objects, site.stateKey, site.renderState(NextState(x)), x.stateRevision), AfterSave(site, w, id, x));
            if swapped.None? then v == DropWriter(w, id)
            else
              && v.objects == swapped.value && v.built == w.built && v.history == w.history
              && v.writers == w.writers[id := Migrator(x.chainID, x.existing, x.revision, NextState(x), site.env.sha(site.renderState(NextState(x))), Idle)]
  {
    hide NextState, Swap;
  }

  lemma PublishOutcome(site: Site, w: World, id: int, x: Writer)
    requires NextManifest(x).Some?
    ensures var m := NextManifest(x).value;
            var (swapped, v) := (Swap(site.env.sha, w.objects, site.manifestKey, site.render(m), x.revision), AfterPublish(site, w, id, x));
            if swapped.None? then v == DropWriter(w, id)
            else
              && v.objects == swapped.value && v.built == w.built && v.history == w.history + [m]
              && v.writers == (if x.Migrator? then w.writers - {id} else w.writers[id := Live(x.chainID, m, site.env.sha(site.render(m)), Idle)])
  {
    hide NextManifest, Swap;
  }

  lemma CrashStep(site: Site, w: World, id: int)
    requires id in w.writers
    ensures Apply(site, w, Crash(id)) == Some(DropWriter(w, id))
  {
  }

  lemma StartLiveStep(site: Site, w: World, id: int, chainID: string, m: Manifest, revision: string)
    requires id !in w.writers && StartsLive(site, w, chainID) == Some(Live(chainID, m, revision, Idle))
    ensures Apply(site, w, StartLive(id, chainID)) == Some(SetWriter(w, id, Live(chainID, m, revision, Idle)))
  {
  }

  lemma StartsValid(site: Site, w: World, chainID: string)
    ensures var x := StartsLive(site, w, chainID); x.Some? ==> x.value.Live? && ValidManifest(x.value.manifest)
  {
  }

  /** One more published segment. */
  lemma GrowsByOne(w: World, v: World, reader: Reader, n: int, from: Manifest, m: Manifest, s: Segment, g: Manifest, start: int, height: int, final: int)
    requires Append(m, s) == Some(g) && s.first == height && s.last == Min(height + n - 1, final) && SuppliedBy(w, reader, s) && Later(w, v) && g in v.history
    requires if height == start then m == from else Reached(v, reader, n, from, m, start, height - 1, final)
    ensures Reached(v, reader, n, from, g, start, s.last, final)
  {
    SuppliedLater(w, v, reader, s);
  }

  class Archive {
    const site: Site
    const store: LocalObjectStore
    const land: (string, Bytes) -> Option<Bytes>
    ghost var trace: seq<World>
    ghost var steps: seq<Event>
    ghost var jobs: map<int, Migration>

    /** The trace is a run of the protocol that ends in what is stored, and migrators do their job. */
    ghost predicate Valid()
      reads this, store
    {
      && trace != [] && |trace| == |steps| + 1 && Run(site, trace, steps) && Obeys(jobs, trace, steps)
      && store.sha == site.env.sha && store.objects == trace[|trace| - 1].objects
    }

    ghost function Now(): World
      reads this
      requires trace != []
    {
      trace[|trace| - 1]
    }

    constructor (site: Site, store: LocalObjectStore, land: (string, Bytes) -> Option<Bytes>, ghost w: World)
      requires store.sha == site.env.sha && w.objects == store.objects
      ensures this.site == site && this.store == store && Valid() && Now() == w && |trace| == 1
    {
      this.site, this.store, this.land := site, store, land;
      trace, steps, jobs := [w], [], map[];
    }

    /** The error has a cause, in the source from `first` to `last` or since step `lo` in the store. */
    ghost predicate Excused(reader: Reader, chainID: string, first: int, last: int, cancelled: int -> bool, lo: nat, id: int, e: ArchiveError)
      reads this
      requires |trace| == |steps| + 1
    {
      SourceToBlame(site.env, reader, chainID, first, last, cancelled, e) || StoreToBlame(site, land, trace, steps, lo, id, e)
    }

    /** Records one step of the protocol. */
    ghost method Take(e: Event)
      requires trace != [] && |trace| == |steps| + 1 && Run(site, trace, steps) && Apply(site, Now(), e).Some?
      requires Obeys(jobs, trace, steps) && (e.id in jobs ==> CarriesOut(jobs[e.id], Now(), e))
      modifies `trace, `steps
      ensures Run(site, trace, steps) && trace == old(trace) + [Apply(site, old(Now()), e).value] && steps == old(steps) + [e]
      ensures Obeys(jobs, trace, steps)
    {
      hide Apply;
      var v := Apply(site, Now(), e).value;
      trace, steps := trace + [v], steps + [e];
    }

    /** Other writers may take any steps of theirs here; callers know no more than this. */
    method Others(id: int)
      requires Valid()
      modifies `trace, `steps, store`objects
      ensures Valid() && old(trace) <= trace && old(steps) <= steps && Later(old(Now()), Now())
      ensures id in old(Now()).writers <==> id in Now().writers
      ensures id in Now().writers ==> Now().writers[id] == old(Now()).writers[id]
      ensures forall i :: |old(steps)| <= i < |steps| ==> steps[i].id != id
    {
    }

    method GiveUp(id: int)
      requires Valid() && id in Now().writers
      modifies `trace, `steps
      ensures Valid() && old(trace) <= trace && old(steps) <= steps && Later(old(Now()), Now()) && id !in Now().writers
    {
      hide Apply;
      CrashStep(site, Now(), id);
      Take(Crash(id));
    }

    /** Uploads unless the key is taken, and reads back what is stored in either case. */
    method PutImmutableSegment(id: int, s: Segment, data: Bytes) returns (r: Result<bool, ArchiveError>)
      requires Valid() && id in Now().writers && Now().writers[id].job == Built(s, data)
      modifies `trace, `steps, store`objects
      ensures Valid() && old(trace) <= trace && old(steps) <= steps && Later(old(Now()), Now())
      ensures SameBut(old(Now()), Now(), id, if r.Ok? then Confirmed(s) else Built(s, data))
      ensures r.Ok? ==> Stored(site.env, store.objects, s)
      ensures r.Err? ==> StoreToBlame(site, land, trace, steps, |old(steps)|, id, r.error)
    {
      hide Apply, Run, Stored, StoreToBlame;
      Others(id);
      var uploaded := s.key !in store.objects;
      if uploaded {
        var put := UploadNew(id, s, data);
        if put.Err? {
          BlameUpload(site, land, trace, steps, |old(steps)|, id, s.key, data);
          return put;
        }
        uploaded := put.value;
      }
      var good := ReadBack(id, s, data);
      if !good {
        assert WasDamaged(site, trace[|steps|], id);
        BlameStore(site, land, trace, steps, |old(steps)|, |steps|, id, NotAsSent);
        return Err(NotAsSent);
      }
      return Ok(uploaded);
    }

    /** Creates the object, unless somebody else just did. */
    method UploadNew(id: int, s: Segment, data: Bytes) returns (r: Result<bool, ArchiveError>)
      requires Valid() && id in Now().writers && Now().writers[id].job == Built(s, data)
      modifies `trace, `steps, store`objects
      ensures Valid() && old(trace) <= trace && old(steps) <= steps && Later(old(Now()), Now())
      ensures SameBut(old(Now()), Now(), id, Built(s, data))
      ensures r.Err? ==> r.error == UploadFailed && land(s.key, data).None?
    {
      hide Apply, Run, Create;
      Others(id);
      var landed := land(s.key, data);
      var e := store.PutIfAbsent(s.key, landed);
      if landed.None? { return Err(UploadFailed); }
      UploadStep(site, Now(), id, landed.value);
      Take(Upload(id, landed.value));
      return Ok(e.None?);
    }

    method ReadBack(id: int, s: Segment, data: Bytes) returns (good: bool)
      requires Valid() && id in Now().writers && Now().writers[id].job == Built(s, data)
      modifies `trace, `steps, store`objects
      ensures Valid() && old(trace) <= trace && old(steps) <= steps && Later(old(Now()), Now())
      ensures SameBut(old(Now()), Now(), id, if good then Confirmed(s) else Built(s, data))
      ensures good <==> Stored(site.env, store.objects, s)
    {
      hide Apply, Run, Stored;
      Others(id);
      if !Stored(site.env, store.objects, s) { return false; }
      ConfirmStep(site, Now(), id);
      Take(Confirm(id));
      return true;
    }

    /** Reads the blocks of one segment, encodes them, and uploads the result. */
    method BuildAndUpload(id: int, reader: Reader, chainID: string, comp: Compression, first: int, last: int, cancelled: int -> bool)
      returns (r: Result<Segment, ArchiveError>)
      requires !comp.Unknown? && first <= last
      requires Valid() && GoodReader(reader) && id in Now().writers && Now().writers[id].job.Idle? && Now().writers[id].chainID == chainID
      requires id in jobs ==> Now().writers[id].Migrator? ==> OnJob(jobs[id], Now().writers[id].state, reader, comp, first, last)
      modifies `trace, `steps, store`objects
      ensures Valid() && old(trace) <= trace && old(steps) <= steps && Later(old(Now()), Now()) && id in Now().writers
      ensures r.Ok? ==> SameBut(old(Now()), Now(), id, Confirmed(r.value))
      ensures r.Ok? ==> r.value.first == first && r.value.last == last && SuppliedBy(Now(), reader, r.value)
      ensures r.Ok? ==> IsBuilt(site, chainID, Slice(reader.load, first, last), comp, r.value) && Uncancelled(cancelled, first, last)
      ensures r.Err? ==> Excused(reader, chainID, first, last, cancelled, |old(steps)|, id, r.error)
    {
      hide Apply, Run, Slice, StoreToBlame, SourceToBlame, BuildSegment;
      var made := Prepare(reader, chainID, comp, first, last, cancelled);
      if made.Err? { return Err(made.error); }
      var (s, data, blocks) := made.value;
      Others(id);
      BuildStep(site, Now(), id, blocks, comp);
      Take(Build(id, blocks, comp));
      ghost var lo := |steps|;
      var put := PutImmutableSegment(id, s, data);
      if put.Err? {
        StoreBlamedLater(site, land, trace, steps, trace, steps, |old(steps)|, lo, id, put.error);
        return Err(put.error);
      }
      return Ok(s);
    }

    /** Reads the blocks of one segment and encodes them. */
    method Prepare(reader: Reader, chainID: string, comp: Compression, first: int, last: int, cancelled: int -> bool)
      returns (r: Result<(Segment, Bytes, seq<Block>), ArchiveError>)
      requires GoodReader(reader) && !comp.Unknown? && first <= last
      ensures r.Ok? ==> Slice(reader.load, first, last) == Some(r.value.2) && BuildSegment(site, chainID, r.value.2, comp) == Some((r.value.0, r.value.1))
      ensures r.Ok? ==> r.value.0.first == first && r.value.0.last == last && Uncancelled(cancelled, first, last)
      ensures r.Err? ==> SourceToBlame(site.env, reader, chainID, first, last, cancelled, r.error)
    {
      hide Slice, RecordsOf, Accepts, EncodedData, EncodedSegment, SourceToBlame, Unbuildable, BuildSegment;
      var collected := Collect(site.env, reader, chainID, first, last, cancelled);
      if collected.Err? { return Err(collected.error); }
      var (blocks, records) := collected.value;
      assert forall i :: 0 <= i < |records| ==> records[i].height == first + i;
      var out := EncodeSegment(site.env, records, comp);
      if out.None? {
        BlameEncoder(site.env, reader, chainID, first, last, cancelled, blocks, records);
        return Err(Unencodable);
      }
      var (data, plain) := out.value;
      EncodedIsBuilt(site, chainID, reader, blocks, records, comp, data, plain, first, last);
      return Ok((plain.(key := site.segmentKey(chainID, plain)), data, blocks));
    }

    /** Loads the published manifest and joins the protocol as a live archiver. */
    method OpenLive(id: int, chainID: string) returns (r: Result<(Manifest, string), ArchiveError>)
      requires Valid() && id !in Now().writers
      modifies `trace, `steps, store`objects
      ensures Valid() && old(trace) <= trace && old(steps) <= steps && Later(old(Now()), Now())
      ensures r.Ok? ==> id in Now().writers && Now().writers[id] == Live(chainID, r.value.0, r.value.1, Idle)
      ensures r.Ok? ==> |trace| > 1 && StartsLive(site, trace[|trace| - 2], chainID) == Some(Live(chainID, r.value.0, r.value.1, Idle))
      ensures r.Ok? ==> Joined(trace, steps, |old(steps)|, id, r.value.0)
      ensures r.Err? ==> id !in Now().writers && StartsLive(site, Now(), chainID).None?
    {
      hide Apply, Run, ValidManifest, StartsLive;
      Others(id);
      r := ReadManifest(chainID);
      if r.Err? { return; }
      StartLiveStep(site, Now(), id, chainID, r.value.0, r.value.1);
      Take(StartLive(id, chainID));
      assert JoinedAt(steps[|steps| - 1], trace[|steps|], id, r.value.0);
    }

    /** What a live archiver of `chainID` starts from. */
    method ReadManifest(chainID: string) returns (r: Result<(Manifest, string), ArchiveError>)
      requires Valid()
      ensures var x := StartsLive(site, Now(), chainID);
              if r.Ok? then x == Some(Live(chainID, r.value.0, r.value.1, Idle)) else x.None?
    {
      hide Run, ValidManifest;
      var found := store.GetVersioned(site.manifestKey);
      match found {
        case Err(e) =>
          if e != NotFound { return Err(ManifestUnreadable); }
          if !ValidChainID(chainID) { return Err(BadOptions); }
          return Ok((EmptyManifest(chainID), ""));
        case Ok(p) =>
          var parsed := site.parse(p.0);
          if parsed.None? { return Err(ManifestUnreadable); }
          var ok := Validate(parsed.value);
          if !ok { return Err(ManifestUnreadable); }
          if parsed.value.chainID != chainID { return Err(WrongChain); }
          return Ok((parsed.value, p.1));
      }
    }

    /** Appends the confirmed segment and publishes by compare-and-swap against the loaded revision. */
    method SaveManifest(id: int, chainID: string, m: Manifest, revision: string, s: Segment) returns (r: Result<(Manifest, string), ArchiveError>)
      requires Valid() && id in Now().writers && Now().writers[id] == Live(chainID, m, revision, Confirmed(s))
      modifies `trace, `steps, store`objects
      ensures Valid() && old(trace) <= trace && old(steps) <= steps && Later(old(Now()), Now())
      ensures r.Ok? ==> id in Now().writers && Now().writers[id] == Live(chainID, r.value.0, r.value.1, Idle)
      ensures r.Ok? ==> Append(m, s) == Some(r.value.0) && r.value.0 in Now().history
      ensures r.Ok? ==> |trace| > 1 && Apply(site, trace[|trace| - 2], Publish(id)) == Some(Now())
      ensures r.Err? ==> id !in Now().writers && StoreToBlame(site, land, trace, steps, |old(steps)|, id, r.error)
    {
      hide Apply, Run, CanPublish, StoreToBlame, NextManifest, CanSave, CanCheck, Obeys, Append, AfterPublish, Swap;
      var next := Extended(chainID, m, revision, s);
      if next.Err? {
        ghost var at := |steps|;
        assert WasBarred(site, trace[at], id, next.error);
        GiveUp(id);
        BlameStore(site, land, trace, steps, |old(steps)|, at, id, next.error);
        return Err(next.error);
      }
      var swapped := SwapManifest(id, Now().writers[id], revision, next.value.0, next.value.1);
      return if swapped.Some? then Ok((next.value.0, swapped.value)) else Err(PublishConflict);
    }

    /** The compare-and-swap of a manifest, as a publication step of the protocol; answers with the new revision. */
    method SwapManifest(id: int, ghost x: Writer, revision: string, m: Manifest, data: Bytes) returns (r: Option<string>)
      requires Valid() && id in Now().writers && Now().writers[id] == x && x.revision == revision
      requires CanPublish(site, x) && NextManifest(x) == Some(m) && data == site.render(m)
      modifies `trace, `steps, store`objects
      ensures Valid() && old(trace) <= trace && old(steps) <= steps && Later(old(Now()), Now())
      ensures |steps| > |old(steps)| && steps[|steps| - 1] == Publish(id) && id in trace[|steps| - 1].writers && trace[|steps| - 1].writers[id] == x
      ensures Apply(site, trace[|steps| - 1], Publish(id)) == Some(Now())
      ensures r.Some? ==> Now().history == trace[|steps| - 1].history + [m]
      ensures r.Some? && x.Live? ==> id in Now().writers && Now().writers[id] == Live(x.chainID, m, r.value, Idle)
      ensures r.None? || x.Migrator? ==> id !in Now().writers
      ensures r.None? ==> StoreToBlame(site, land, trace, steps, |old(steps)|, id, PublishConflict)
    {
      hide Apply, Run, Obeys, StoreToBlame, CanPublish, NextManifest, AfterPublish, Swap;
      Others(id);
      PublishStep(site, Now(), id);
      PublishOutcome(site, Now(), id, x);
      Take(Publish(id));
      var swapped := store.CompareAndSwap(site.manifestKey, data, revision);
      if swapped.Ok? { return Some(swapped.value); }
      BlameLastStep(site, land, trace, steps, |old(steps)|, id, PublishConflict);
      return None;
    }

    /** The manifest with one more segment, if it may be published, and how it is stored. */
    method Extended(chainID: string, m: Manifest, revision: string, s: Segment) returns (r: Result<(Manifest, Bytes), ArchiveError>)
      ensures r.Ok? <==> CanPublish(site, Live(chainID, m, revision, Confirmed(s)))
      ensures r.Ok? ==> Append(m, s) == Some(r.value.0) && NextManifest(Live(chainID, m, revision, Confirmed(s))) == Some(r.value.0) && r.value.1 == site.render(r.value.0)
      ensures r.Err? ==> r.error.BadSegment? || r.error.BadManifest?
    {
      hide Append, ValidManifest;
      var next := Append(m, s);
      if next.None? { return Err(BadSegment); }
      var ok := Validate(next.value);
      var data := site.render(next.value);
      if !ok || |data| > MAX_READ { return Err(BadManifest); }
      return Ok((next.value, data));
    }

    /** Archives everything that is ready, one segment and one publication at a time. */
    method ArchiveReady(id: int, reader: Reader, o: LiveOptions, cancelled: int -> bool)
      returns (r: Result<Manifest, ArchiveError>, ghost from: Manifest)
      requires Valid() && GoodReader(reader) && id !in Now().writers
      modifies `trace, `steps, store`objects
      ensures Valid() && old(trace) <= trace && old(steps) <= steps && Later(old(Now()), Now()) && id !in Now().writers
      ensures r.Ok? ==> Joined(trace, steps, |old(steps)|, id, from)
      ensures r.Ok? ==> GoodLive(o) && CaughtUp(reader, o.start, o.ready, from, r.value)
      ensures r.Ok? ==> forall h :: InRange(r.value, h) && !InRange(from, h) ==> !cancelled(h)
      ensures r.Ok? && r.value != from ==> r.value in Now().history && AllSupplied(Now(), reader, BlocksPerSegment(o.segmentBlocks), from, r.value, r.value.last)
      ensures r.Err? ==>
                || !GoodLive(o)
                || NoStart(reader, o.start, from)
                || CannotJoin(site, trace, |old(steps)|, o.chainID)
                || Excused(reader, o.chainID, 1, Min(o.ready, reader.height), cancelled, |old(steps)|, id, r.error)
    {
      hide Apply, Run, Reached, Joined, StoreToBlame, SourceToBlame, CannotJoin, CaughtUp, AllSupplied, ValidManifest, StartsLive, NextToArchive, LastToArchive;
      from := EmptyManifest(o.chainID);
      var n, comp := BlocksPerSegment(o.segmentBlocks), WithDefault(o.compression);
      if o.chainID == "" || o.ready <= 0 || n > MAX_SEGMENT_BLOCKS || comp.Unknown? { return Err(BadOptions), from; }
      var joined := OpenLive(id, o.chainID);
      if joined.Err? {
        Unjoinable(site, trace, |old(steps)|, |trace| - 1, o.chainID);
        return Err(joined.error), from;
      }
      var (m, revision) := joined.value;
      from := m;
      var height, end := NextToArchive(m, reader, o), LastToArchive(reader, o);
      StartsValid(site, trace[|trace| - 2], o.chainID);
      if height <= 0 || reader.height == 0 {
        GiveUp(id);
        NothingToStart(reader, o, from);
        return Err(EmptySource), from;
      }
      ghost var ws, es := trace, steps;
      r := ArchiveRange(id, reader, o.chainID, m, revision, comp, height, end, n, cancelled);
      JoinedLater(ws, es, trace, steps, |old(steps)|, id, from);
      if r.Err? {
        EndIsWithin(reader, o);
        WiderExcuse(site.env, reader, o.chainID, height, end, 1, Min(o.ready, reader.height), cancelled, r.error);
        StillExcused(site, land, trace, steps, trace, steps, |old(steps)|, |es|, id, r.error);
      }
      if r.Ok? {
        CaughtUpBy(Now(), reader, o, n, from, r.value);
        forall h | InRange(r.value, h) && !InRange(from, h) ensures !cancelled(h) { AddedWithin(reader, o, from, r.value, h); }
        if r.value != from { ReachedSupplies(Now(), reader, n, from, r.value, height, end); }
      }
    }

    /** Loads the manifest and leaves it at that. */
    method Peek(id: int, chainID: string) returns (r: Result<Manifest, ArchiveError>)
      requires Valid() && id !in Now().writers
      modifies `trace, `steps, store`objects
      ensures Valid() && old(trace) <= trace && old(steps) <= steps && Later(old(Now()), Now()) && id !in Now().writers
      ensures r.Ok? ==> Joined(trace, steps, |old(steps)|, id, r.value) && ValidManifest(r.value)
      ensures r.Err? ==> CannotJoin(site, trace, |old(steps)|, chainID)
    {
      hide Apply, Run, Joined, StartsLive, ValidManifest, CannotJoin;
      var joined := OpenLive(id, chainID);
      if joined.Err? {
        Unjoinable(site, trace, |old(steps)|, |trace| - 1, chainID);
        return Err(joined.error);
      }
      StartsValid(site, trace[|trace| - 2], chainID);
      ghost var ws, es := trace, steps;
      GiveUp(id);
      JoinedLater(ws, es, trace, steps, |old(steps)|, id, joined.value.0);
      return Ok(joined.value.0);
    }

    /** Archives up to the head less the safety window, and no further than the source lets it. */
    method ArchiveReadyFromHead(id: int, reader: Reader, o: LiveOptions, safetyWindow: int, cancelled: int -> bool)
      returns (r: Result<Manifest, ArchiveError>, ghost from: Manifest)
      requires Valid() && GoodReader(reader) && id !in Now().writers
      modifies `trace, `steps, store`objects
      ensures Valid() && old(trace) <= trace && old(steps) <= steps && Later(old(Now()), Now()) && id !in Now().writers
      ensures r.Ok? ==> Joined(trace, steps, |old(steps)|, id, from)
      ensures r.Ok? ==> CaughtUp(reader, o.start, reader.height - safetyWindow, from, r.value)
      ensures r.Ok? ==> forall h :: InRange(r.value, h) && !InRange(from, h) ==> !cancelled(h)
      ensures r.Ok? && r.value != from ==> r.value in Now().history && AllSupplied(Now(), reader, BlocksPerSegment(o.segmentBlocks), from, r.value, r.value.last)
      ensures r.Err? ==>
                || safetyWindow < 0 || !GoodLive(o.(ready := 1))
                || NoStart(reader, o.start, from)
                || CannotJoin(site, trace, |old(steps)|, o.chainID)
                || Excused(reader, o.chainID, 1, reader.height - safetyWindow, cancelled, |old(steps)|, id, r.error)
    {
      hide Apply, Run, Joined, CaughtUp, AllSupplied, ValidManifest, StoreToBlame, SourceToBlame, CannotJoin;
      from := EmptyManifest(o.chainID);
      if safetyWindow < 0 || o.chainID == "" || WithDefault(o.compression).Unknown? { return Err(BadOptions), from; }
      r := Peek(id, o.chainID);
      if r.Err? { return; }
      from := r.value;
      var head := reader.height;
      if head == 0 || head <= safetyWindow {
        CaughtUpAsIs(reader, o.start, head - safetyWindow, from);
        return;
      }
      var ready := head - safetyWindow;
      if reader.limit.Some? {
        ready := Min(ready, reader.limit.value);
        if ready <= 0 {
          CaughtUpAsIs(reader, o.start, head - safetyWindow, from);
          return;
        }
      }
      ghost var es := steps;
      r, from := ArchiveReady(id, reader, o.(ready := ready), cancelled);
      if r.Err? {
        WiderExcuse(site.env, reader, o.chainID, 1, Min(ready, head), 1, head - safetyWindow, cancelled, r.error);
        StillExcused(site, land, trace, steps, trace, steps, |old(steps)|, |es|, id, r.error);
        EarlierJoin(site, trace, |old(steps)|, |es|, o.chainID);
      }
      if r.Ok? {
        JoinedSooner(trace, steps, |old(steps)|, |es|, id, from);
        SameBounds(reader, o.start, ready, head - safetyWindow, from, r.value);
      }
    }

    /** The loop, from `start` to `end`. */
    method ArchiveRange(id: int, reader: Reader, chainID: string, from: Manifest, revision: string, comp: Compression,
                        start: int, end: int, n: int, cancelled: int -> bool)
      returns (r: Result<Manifest, ArchiveError>)
      requires Valid() && GoodReader(reader) && n > 0 && !comp.Unknown?
      requires id in Now().writers && Now().writers[id] == Live(chainID, from, revision, Idle)
      modifies `trace, `steps, store`objects
      ensures Valid() && old(trace) <= trace && old(steps) <= steps && Later(old(Now()), Now()) && id !in Now().writers
      ensures r.Ok? ==> if end < start then r.value == from else Reached(Now(), reader, n, from, r.value, start, end, end)
      ensures r.Ok? ==> Uncancelled(cancelled, start, end)
      ensures r.Err? ==> Excused(reader, chainID, start, end, cancelled, |old(steps)|, id, r.error)
    {
      hide Apply, Run, Append, Reached, StoreToBlame, SourceToBlame, Obeys, GoodReader;
      var m, rev, height := from, revision, start;
      while height <= end
        invariant Valid() && old(trace) <= trace && old(steps) <= steps && Later(old(Now()), Now())
        invariant id in Now().writers && Now().writers[id] == Live(chainID, m, rev, Idle)
        invariant start <= height <= Max(end + 1, start) && Uncancelled(cancelled, start, height - 1)
        invariant if height == start then m == from else Reached(Now(), reader, n, from, m, start, height - 1, end)
      {
        if cancelled(height) {
          GiveUp(id);
          BlameContext(site.env, reader, chainID, start, end, cancelled, height);
          return Err(Cancelled);
        }
        var last := Min(height + n - 1, end);
        ghost var es := steps;
        var next := ArchiveOne(id, reader, chainID, m, rev, comp, height, last, cancelled, from, n, start, end);
        if next.Err? {
          WiderExcuse(site.env, reader, chainID, height, last, start, end, cancelled, next.error);
          StillExcused(site, land, trace, steps, trace, steps, |old(steps)|, |es|, id, next.error);
          return Err(next.error);
        }
        m, rev := next.value.0, next.value.1;
        height := last + 1;
      }
      ghost var w := Now();
      GiveUp(id);
      if end >= start { ReachedLater(w, Now(), reader, n, from, m, start, end, end); }
      return Ok(m);
    }

    /** One round of the loop: a segment is built, uploaded, read back and published. */
    method ArchiveOne(id: int, reader: Reader, chainID: string, m: Manifest, revision: string, comp: Compression,
                      height: int, last: int, cancelled: int -> bool, ghost from: Manifest, ghost n: int, ghost start: int, ghost final: int)
      returns (r: Result<(Manifest, string), ArchiveError>)
      requires Valid() && GoodReader(reader) && start <= height <= last == Min(height + n - 1, final) && !comp.Unknown?
      requires id in Now().writers && Now().writers[id] == Live(chainID, m, revision, Idle)
      requires if height == start then m == from else Reached(Now(), reader, n, from, m, start, height - 1, final)
      modifies `trace, `steps, store`objects
      ensures Valid() && old(trace) <= trace && old(steps) <= steps && Later(old(Now()), Now())
      ensures r.Ok? ==> id in Now().writers && Now().writers[id] == Live(chainID, r.value.0, r.value.1, Idle)
      ensures r.Ok? ==> Reached(Now(), reader, n, from, r.value.0, start, last, final) && Uncancelled(cancelled, height, last)
      ensures r.Err? ==> id !in Now().writers && Excused(reader, chainID, height, last, cancelled, |old(steps)|, id, r.error)
    {
      hide Apply, Run, Append, Reached, SuppliedBy, IsBuilt, GoodReader, Later, StoreToBlame, SourceToBlame, Obeys;
      ghost var before := Now();
      var built := BuildAndUpload(id, reader, chainID, comp, height, last, cancelled);
      ghost var w, ws, es := Now(), trace, steps;
      if built.Err? {
        GiveUp(id);
        LaterStill(before, w, Now());
        StillExcused(site, land, ws, es, trace, steps, |old(steps)|, |old(steps)|, id, built.error);
        return Err(built.error);
      }
      var saved := SaveManifest(id, chainID, m, revision, built.value);
      LaterStill(before, w, Now());
      if saved.Err? {
        StillExcused(site, land, trace, steps, trace, steps, |old(steps)|, |es|, id, saved.error);
        return Err(saved.error);
      }
      if height != start { ReachedLater(before, Now(), reader, n, from, m, start, height - 1, final); }
      GrowsByOne(w, Now(), reader, n, from, m, built.value, saved.value.0, start, height, final);
      return Ok(saved.value);
    }
  }

  /** The block-reading loop. */
  method Collect(env: Env, reader: Reader, chainID: string, first: int, last: int, cancelled: int -> bool)
    returns (r: Result<(seq<Block>, seq<Record>), ArchiveError>)
    ensures r.Ok? ==> Slice(reader.load, first, last) == Some(r.value.0) && OfChain(r.value.0, chainID)
    ensures r.Ok? ==> RecordsOf(env, r.value.0) == Some(r.value.1) && Uncancelled(cancelled, first, last)
    ensures r.Err? ==> SourceToBlame(env, reader, chainID, first, last, cancelled, r.error)
  {
    hide Accepts;
    var blocks, records, h := [], [], first;
    while h <= last
      invariant first <= h <= Max(first, last + 1)
      invariant Slice(reader.load, first, h - 1) == Some(blocks) && OfChain(blocks, chainID)
      invariant RecordsOf(env, blocks) == Some(records) && Uncancelled(cancelled, first, h - 1)
    {
      if cancelled(h) { return Err(Cancelled); }
      var b := reader.load(h);
      if b.None? { return Err(MissingBlock); }
      if b.value.header.chainID != chainID { return Err(WrongChain); }
      var record := BlockToRecord(env, b.value);
      if record.None? {
        NoRecord(env, reader, h);
        return Err(Unencodable);
      }
      assert (blocks + [b.value])[..|blocks|] == blocks;
      blocks, records, h := blocks + [b.value], records + [record.value], h + 1;
    }
    return Ok((blocks, records));
  }

  lemma NoRecord(env: Env, reader: Reader, h: int)
    requires reader.load(h).Some? && BlockToRecord(env, reader.load(h).value).None?
    ensures Unbuildable(env, Slice(reader.load, h, h))
  {
    hide Accepts;
    var b := reader.load(h).value;
    assert Slice(reader.load, h, h - 1) == Some([]);
    assert Slice(reader.load, h, h) == Some([] + [b]);
    assert [] + [b] == [b];
  }
}
