/**
 The publication protocol: any number of live archivers and migrators build segments,
 upload them, read them back and publish manifests by compare-and-swap, while crashing
 at any point and with fresh uploads that may land corrupted.
 */
module Publication {
  import opened Common
  import opened Chain
  import opened Manifests
  import opened Segments
  import opened ObjectStores

  datatype MigrationState = MigrationState(chainID: string, start: int, end: int, next: int, segments: seq<Segment>)

  /** One archive: its keys, and the foreign encodings of what is stored under them. */
  datatype Site = Site(
    env: Env,
    manifestKey: string,
    stateKey: string,
    legacyKey: string,
    segmentKey: (string, Segment) -> string,
    render: Manifest -> Bytes,
    parse: Bytes -> Option<Manifest>,
    renderState: MigrationState -> Bytes,
    parseState: Bytes -> Option<MigrationState>)

  predicate Reserved(site: Site, key: string) { key == site.manifestKey || key == site.stateKey || key == site.legacyKey }

  ghost predicate GoodEnv(env: Env) {
    && ShaIsHex(env) && MarshalInverts(env)
    && (forall p :: ZipInverts(env, p))
  }

  /** No segment of any chain is named like the metadata; see `Keys` for the names in use. */
  ghost predicate GoodKeys(site: Site) {
    && (forall chain, s :: ValidChainID(chain) ==> !Reserved(site, site.segmentKey(chain, s)))
    && site.manifestKey != site.stateKey && site.manifestKey != site.legacyKey
  }

  /** What is small enough to be saved reads back. */
  ghost predicate GoodSite(site: Site) {
    && GoodEnv(site.env) && GoodKeys(site)
    && (forall m :: |site.render(m)| <= MAX_READ ==> site.parse(site.render(m)) == Some(m))
    && (forall st :: |site.renderState(st)| <= MAX_READ ==> site.parseState(site.renderState(st)) == Some(st))
  }

  // ---------------------------------------------------------------- segments from blocks

  function RecordsOf(env: Env, bs: seq<Block>): (r: Option<seq<Record>>)
    ensures r.Some? ==> |r.value| == |bs|
    ensures r.Some? ==> forall i :: 0 <= i < |bs| ==> BlockToRecord(env, bs[i]) == Some(r.value[i])
  {
    if bs == [] then Some([])
    else
      var init, last := RecordsOf(env, bs[..|bs| - 1]), BlockToRecord(env, bs[|bs| - 1]);
      if init.None? || last.None? then None else Some(init.value + [last.value])
  }

  /** `s` describes the encoding of the blocks `bs`. */
  ghost predicate Describes(env: Env, s: Segment, bs: seq<Block>) {
    var rs := RecordsOf(env, bs);
    && rs.Some? && Accepts(rs.value) && !s.compression.Unknown?
    && s == EncodedSegment(env, rs.value, s.compression).(key := s.key)
  }

  ghost function DataOf(env: Env, s: Segment, bs: seq<Block>): Bytes
    requires Describes(env, s, bs)
  {
    EncodedData(env, RecordsOf(env, bs).value, s.compression)
  }

  /** The read-back check: the stored object has the described size and digest. */
  predicate Stored(env: Env, objects: Objects, s: Segment) {
    var got := Get(objects, s.key);
    got.Ok? && |got.value| == s.size && env.sha(got.value) == s.sha
  }

  /** A full decode: every record must also be a block with the recorded hash and height. */
  function DecodeChecked(env: Env, data: Bytes, s: Segment): Option<seq<Record>> {
    var rs := DecodeSegmentRecords(env, data, s);
    if rs.Some? && forall i :: 0 <= i < |rs.value| ==> RecordToBlock(env, rs.value[i]).Some? then rs else None
  }

  /** The check of one segment that verification and the end of a migration make. */
  predicate Verifies(env: Env, objects: Objects, s: Segment) {
    Stored(env, objects, s) && DecodeChecked(env, objects[s.key], s).Some?
  }

  /** What a cold read of height `h` gets out of the segment `s`, with nothing cached. */
  function ReadSegment(env: Env, objects: Objects, s: Segment, h: int): Option<Block> {
    var got := Get(objects, s.key);
    if got.Err? then None
    else
      var rs := DecodeChecked(env, got.value, s);
      if rs.None? || !(0 <= h - s.first < |rs.value|) then None else RecordToBlock(env, rs.value[h - s.first])
  }

  /** What a cold read of height `h` answers under manifest `m`. */
  function ReadArchive(env: Env, objects: Objects, m: Manifest, h: int): Option<Block> {
    var s := Lookup(m.segments, h);
    if s.None? then None else ReadSegment(env, objects, s.value, h)
  }

  /** Height `h` reads as a block of that height with the hash that the index of `s` has for it. */
  ghost predicate ReadsIndexed(env: Env, objects: Objects, s: Segment, h: int) {
    var b := ReadSegment(env, objects, s, h);
    && b.Some? && b.value.header.height == h
    && 0 <= h - s.first < |s.blocks| && env.blockHash(b.value) == s.blocks[h - s.first].hash
  }

  ghost predicate SegmentReadable(env: Env, objects: Objects, s: Segment) { forall h :: Covers(s, h) ==> ReadsIndexed(env, objects, s, h) }

  /**
   The check decides what readers get: a segment passes if and only if every height of it
   reads as the indexed block.  A missing or damaged object, and a record that does not match
   its index entry or its block, make it fail.
   */
  lemma VerifiesIffReadable(env: Env, objects: Objects, s: Segment)
    requires ValidSegment(s)
    ensures Verifies(env, objects, s) <==> SegmentReadable(env, objects, s)
  {
    if Verifies(env, objects, s) {
      forall h | Covers(s, h) ensures ReadsIndexed(env, objects, s, h) { VerifiedReads(env, objects, s, h); }
    }
    if SegmentReadable(env, objects, s) {
      assert ReadsIndexed(env, objects, s, s.first);
      ReadIsVerified(env, objects, s, s.first);
    }
  }

  lemma VerifiedReads(env: Env, objects: Objects, s: Segment, h: int)
    requires ValidSegment(s) && Verifies(env, objects, s) && Covers(s, h)
    ensures ReadsIndexed(env, objects, s, h)
  {
    hide Decompress, DecodeRecords;
    var rs := DecodeChecked(env, objects[s.key], s).value;
    assert RecordToBlock(env, rs[h - s.first]).Some?;
  }

  /** One successful read shows that the whole segment is in order. */
  lemma ReadIsVerified(env: Env, objects: Objects, s: Segment, h: int)
    requires ReadSegment(env, objects, s, h).Some?
    ensures Verifies(env, objects, s)
  {
    hide Decompress, DecodeRecords;
  }

  // ---------------------------------------------------------------- metadata

  /** The checks on a migration state, made before every save and after every load. */
  ghost predicate ValidState(st: MigrationState) {
    && st.chainID != "" && 0 < st.start <= st.end && st.start <= st.next <= st.end + 1
    && (st.segments == [] ==> st.next == st.start)
    && (st.segments != [] ==>
          && Contiguous(st.segments) && DistinctKeys(st.segments)
          && st.segments[0].first == st.start && st.segments[|st.segments| - 1].last + 1 == st.next)
  }

  datatype Loaded<T> = Missing | Unreadable | Found(value: T, revision: string)

  ghost function LoadManifest(site: Site, objects: Objects): Loaded<Manifest> {
    match Get(objects, site.manifestKey)
    case Err(e) => if e == NotFound then Missing else Unreadable
    case Ok(d) =>
      var m := site.parse(d);
      if m.None? || !ValidManifest(m.value) then Unreadable else Found(m.value, site.env.sha(d))
  }

  ghost function LoadState(site: Site, objects: Objects, key: string): Loaded<MigrationState> {
    match Get(objects, key)
    case Err(e) => if e == NotFound then Missing else Unreadable
    case Ok(d) =>
      var st := site.parseState(d);
      if st.None? || !ValidState(st.value) then Unreadable else Found(st.value, site.env.sha(d))
  }

  function EmptyManifest(chainID: string): Manifest { Manifest(VERSION, chainID, 0, 0, []) }

  /** A segment with the same range is replaced; otherwise the new one goes last. */
  function AppendSegment(segs: seq<Segment>, s: Segment): seq<Segment> {
    if segs == [] then [s]
    else if segs[0].first == s.first && segs[0].last == s.last then [s] + segs[1..]
    else [segs[0]] + AppendSegment(segs[1..], s)
  }

  // ---------------------------------------------------------------- the protocol

  datatype Job = Opening | Idle | Built(segment: Segment, data: Bytes) | Confirmed(segment: Segment) | Checked

  datatype Writer =
    | Live(chainID: string, manifest: Manifest, revision: string, job: Job)
    | Migrator(chainID: string, existing: Option<Manifest>, revision: string, state: MigrationState, stateRevision: string, job: Job)

  /**
   The world: what is stored, what every writer remembers, and for the record every
   manifest ever published, every segment ever built with the blocks it was built from,
   and every byte string that ever occurred.
   */
  datatype World = World(
    objects: Objects,
    writers: map<int, Writer>,
    history: seq<Manifest>,
    built: set<(Segment, seq<Block>)>,
    bytes: set<Bytes>)

  datatype Event =
    | StartLive(id: int, chainID: string)
    | StartMigration(id: int, chainID: string, start: int, end: int)
    | OpenState(id: int, legacy: bool)
    | Build(id: int, blocks: seq<Block>, compression: Compression)
    | Upload(id: int, landed: Bytes)
    | Confirm(id: int)
    | SaveState(id: int)
    | CheckAll(id: int)
    | Publish(id: int)
    | Crash(id: int)

  function SetWriter(w: World, id: int, x: Writer): World { w.(writers := w.writers[id := x]) }

  function DropWriter(w: World, id: int): World { w.(writers := w.writers - {id}) }

  ghost function StartsLive(site: Site, w: World, chainID: string): Option<Writer> {
    match LoadManifest(site, w.objects)
    case Unreadable => None
    case Missing => if ValidChainID(chainID) then Some(Live(chainID, EmptyManifest(chainID), "", Idle)) else None
    case Found(m, rev) => if m.chainID == chainID then Some(Live(chainID, m, rev, Idle)) else None
  }

  /** A migration goes ahead only over a missing or empty manifest, or one of exactly its range. */
  ghost function StartsMigration(site: Site, w: World, chainID: string, start: int, end: int): Option<Writer> {
    var state := MigrationState(chainID, start, end, start, []);
    if !(0 < start <= end) || !ValidChainID(chainID) then None
    else
      match LoadManifest(site, w.objects)
      case Unreadable => None
      case Missing => Some(Migrator(chainID, None, "", state, "", Opening))
      case Found(m, rev) =>
        if m.chainID != chainID || (m.last != 0 && (m.first != start || m.last != end)) then None
        else Some(Migrator(chainID, Some(m), rev, state, "", Opening))
  }

  /** Resumes from the saved state, or from a legacy one, which is then saved under the new key. */
  ghost function OpensState(site: Site, w: World, x: Writer, legacy: bool): Option<Writer>
    requires x.Migrator?
  {
    match LoadState(site, w.objects, if legacy then site.legacyKey else site.stateKey)
    case Unreadable => None
    case Missing => Some(x.(job := Idle))
    case Found(st, rev) =>
      if st.chainID != x.chainID || st.start != x.state.start || st.end != x.state.end then None
      else Some(x.(state := st, stateRevision := if legacy then "" else rev, job := Idle))
  }

  ghost function BuildSegment(site: Site, chainID: string, bs: seq<Block>, comp: Compression): Option<(Segment, Bytes)> {
    var rs := RecordsOf(site.env, bs);
    if (forall b :: b in bs ==> b.header.chainID == chainID) && rs.Some? && Accepts(rs.value) && !comp.Unknown? then
      var s := EncodedSegment(site.env, rs.value, comp);
      Some((s.(key := site.segmentKey(chainID, s)), EncodedData(site.env, rs.value, comp)))
    else None
  }

  /** The next state to save: with the confirmed segment if there is one. */
  function NextState(x: Writer): MigrationState
    requires x.Migrator?
  {
    if x.job.Confirmed? then x.state.(segments := AppendSegment(x.state.segments, x.job.segment), next := x.job.segment.last + 1)
    else x.state
  }

  /** The manifest a writer is about to publish. */
  function NextManifest(x: Writer): Option<Manifest> {
    if x.Live? && x.job.Confirmed? then Append(x.manifest, x.job.segment)
    else if x.Migrator? && x.job.Checked? then Some(NewManifest(x.chainID, x.state.segments))
    else None
  }

  ghost predicate CanSave(site: Site, x: Writer) {
    && x.Migrator? && (x.job.Idle? || x.job.Confirmed?)
    && ValidState(NextState(x)) && |site.renderState(NextState(x))| <= MAX_READ
  }

  ghost predicate CanPublish(site: Site, x: Writer) {
    var m := NextManifest(x);
    m.Some? && ValidManifest(m.value) && |site.render(m.value)| <= MAX_READ
  }

  function Published(w: World, objects: Objects, m: Manifest, data: Bytes): World {
    w.(objects := objects, history := w.history + [m], bytes := w.bytes + {data})
  }

  function AfterBuild(w: World, id: int, x: Writer, s: Segment, data: Bytes, bs: seq<Block>): World {
    SetWriter(w, id, x.(job := Built(s, data))).(built := w.built + {(s, bs)}, bytes := w.bytes + {data})
  }

  function AfterUpload(w: World, key: string, landed: Bytes): World {
    w.(objects := Create(w.objects, key, landed), bytes := w.bytes + {landed})
  }

  /** Saves the next state; a writer that meets a conflict gives up. */
  function AfterSave(site: Site, w: World, id: int, x: Writer): World
    requires x.Migrator?
  {
    var st, data := NextState(x), site.renderState(NextState(x));
    var swapped := Swap(site.env.sha, w.objects, site.stateKey, data, x.stateRevision);
    if swapped.None? then DropWriter(w, id)
    else
      SetWriter(w, id, x.(state := st, stateRevision := site.env.sha(data), job := Idle))
      .(objects := swapped.value, bytes := w.bytes + {data})
  }

  /** Publishes the next manifest; a live archiver goes on from it, a migrator is done. */
  function AfterPublish(site: Site, w: World, id: int, x: Writer): World
    requires NextManifest(x).Some?
  {
    var m, data := NextManifest(x).value, site.render(NextManifest(x).value);
    var swapped := Swap(site.env.sha, w.objects, site.manifestKey, data, x.revision);
    if swapped.None? then DropWriter(w, id)
    else if x.Migrator? then DropWriter(Published(w, swapped.value, m, data), id)
    else SetWriter(Published(w, swapped.value, m, data), id, Live(x.chainID, m, site.env.sha(data), Idle))
  }

  ghost predicate CanCheck(site: Site, w: World, x: Writer) {
    && x.Migrator? && x.job.Idle? && x.state.next > x.state.end
    && forall s :: s in x.state.segments ==> Verifies(site.env, w.objects, s)
  }

  /** What a writer's private step makes of it. */
  ghost function Privately(site: Site, w: World, x: Writer, e: Event): Option<Writer> {
    match e
    case OpenState(_, legacy) => if x.Migrator? && x.job.Opening? then OpensState(site, w, x, legacy) else None
    case Confirm(_) =>
      if x.job.Built? && Stored(site.env, w.objects, x.job.segment) then Some(x.(job := Confirmed(x.job.segment))) else None
    case CheckAll(_) => if CanCheck(site, w, x) then Some(x.(job := Checked)) else None
    case _ => None
  }

  ghost function Starts(site: Site, w: World, e: Event): Option<Writer> {
    match e
    case StartLive(_, chainID) => StartsLive(site, w, chainID)
    case StartMigration(_, chainID, start, end) => StartsMigration(site, w, chainID, start, end)
    case _ => None
  }

  /** One step; nothing when the step is not possible. */
  ghost function Apply(site: Site, w: World, e: Event): Option<World> {
    if e.id !in w.writers then Moved(w, e.id, Starts(site, w, e))
    else
      var x := w.writers[e.id];
      match e
      case Build(id, bs, comp) =>
        var p := BuildSegment(site, x.chainID, bs, comp);
        if x.job.Idle? && p.Some? then Some(AfterBuild(w, id, x, p.value.0, p.value.1, bs)) else None
      case Upload(id, landed) => if x.job.Built? then Some(AfterUpload(w, x.job.segment.key, landed)) else None
      case SaveState(id) => if CanSave(site, x) then Some(AfterSave(site, w, id, x)) else None
      case Publish(id) => if CanPublish(site, x) then Some(AfterPublish(site, w, id, x)) else None
      case Crash(id) => Some(DropWriter(w, id))
      case _ => Moved(w, e.id, Privately(site, w, x, e))
  }

  function Moved(w: World, id: int, x: Option<Writer>): Option<World> {
    if x.None? then None else Some(SetWriter(w, id, x.value))
  }

  ghost predicate Run(site: Site, ws: seq<World>, es: seq<Event>) {
    && |ws| == |es| + 1
    && forall i :: 0 <= i < |es| ==> Apply(site, ws[i], es[i]) == Some(ws[i + 1])
  }

  // ---------------------------------------------------------------- what every step keeps

  ghost predicate HasOrigin(w: World, s: Segment) { exists bs :: (s, bs) in w.built }

  ghost predicate AllOrigin(w: World, segs: seq<Segment>) { forall s :: s in segs ==> HasOrigin(w, s) }

  /** Built by some writer, and stored with the described size and digest. */
  ghost predicate Kept(site: Site, w: World, s: Segment) { HasOrigin(w, s) && Stored(site.env, w.objects, s) }

  ghost predicate AllKept(site: Site, w: World, segs: seq<Segment>) { forall s :: s in segs ==> Kept(site, w, s) }

  ghost predicate BuiltOk(site: Site, w: World) {
    forall s, bs :: (s, bs) in w.built ==>
      Describes(site.env, s, bs) && !Reserved(site, s.key) && DataOf(site.env, s, bs) in w.bytes
  }

  ghost predicate ObjectsOk(site: Site, w: World) {
    && (forall k :: k in w.objects ==> w.objects[k] in w.bytes)
    && StateOriginOk(site, w, site.stateKey) && StateOriginOk(site, w, site.legacyKey)
  }

  ghost predicate StateOriginOk(site: Site, w: World, key: string) {
    var st := LoadState(site, w.objects, key);
    st.Found? ==> AllOrigin(w, st.value.segments)
  }

  ghost predicate PublishedOk(site: Site, w: World, m: Manifest) {
    ValidManifest(m) && AllKept(site, w, m.segments) && site.render(m) in w.bytes && |site.render(m)| <= MAX_READ
  }

  /** Same chain, and the covered range is kept or extended at its end. */
  ghost predicate Extends(a: Manifest, b: Manifest) {
    b.chainID == a.chainID && (a.segments != [] ==> b.segments != [] && b.first == a.first && b.last >= a.last)
  }

  ghost predicate HistoryOk(site: Site, w: World) {
    && (forall m :: m in w.history ==> PublishedOk(site, w, m))
    && (forall i, j :: 0 <= i < j < |w.history| && j == i + 1 ==> Extends(w.history[i], w.history[j]))
  }

  ghost predicate CurrentOk(site: Site, w: World) {
    if w.history == [] then site.manifestKey !in w.objects
    else site.manifestKey in w.objects && w.objects[site.manifestKey] == site.render(w.history[|w.history| - 1])
  }

  /** The manifest a writer started from is one that was published, or nothing. */
  ghost predicate Backed(site: Site, w: World, m: Option<Manifest>, revision: string) {
    if m.None? then revision == "" else m.value in w.history && revision == site.env.sha(site.render(m.value))
  }

  ghost predicate JobOk(site: Site, w: World, job: Job) {
    && (job.Built? ==> HasOrigin(w, job.segment))
    && (job.Confirmed? ==> Kept(site, w, job.segment))
  }

  ghost predicate LiveOk(site: Site, w: World, x: Writer)
    requires x.Live?
  {
    && ValidManifest(x.manifest) && x.manifest.chainID == x.chainID
    && (if x.revision == "" then x.manifest == EmptyManifest(x.chainID) else Backed(site, w, Some(x.manifest), x.revision))
    && !x.job.Opening? && !x.job.Checked?
  }

  ghost predicate MigratorOk(site: Site, w: World, x: Writer)
    requires x.Migrator?
  {
    && Backed(site, w, x.existing, x.revision) && x.state.chainID == x.chainID
    && (x.existing.Some? ==>
          && x.existing.value.chainID == x.chainID
          && (x.existing.value.last != 0 ==> x.existing.value.first == x.state.start && x.existing.value.last == x.state.end))
    && ValidState(x.state) && AllOrigin(w, x.state.segments)
    && (x.job.Checked? ==> x.state.next == x.state.end + 1 && AllKept(site, w, x.state.segments))
  }

  ghost predicate WriterOk(site: Site, w: World, x: Writer) {
    ValidChainID(x.chainID) && JobOk(site, w, x.job) && (x.Live? ==> LiveOk(site, w, x)) && (x.Migrator? ==> MigratorOk(site, w, x))
  }

  ghost predicate SharedOk(site: Site, w: World) {
    BuiltOk(site, w) && ObjectsOk(site, w) && HistoryOk(site, w) && CurrentOk(site, w)
  }

  ghost predicate Inv(site: Site, w: World) {
    SharedOk(site, w) && forall id :: id in w.writers ==> WriterOk(site, w, w.writers[id])
  }

  function EmptyWorld(): World { World(map[], map[], [], {}, {}) }

  lemma EmptyIsGood(site: Site)
    ensures Inv(site, EmptyWorld())
  {
  }

  /** The record only grows, and stored segments are never touched again. */
  ghost predicate Grows(site: Site, w: World, v: World) {
    && (forall k :: k in w.objects && !Reserved(site, k) ==> k in v.objects && v.objects[k] == w.objects[k])
    && w.built <= v.built && w.bytes <= v.bytes && w.history <= v.history
  }

  lemma KeptGrows(site: Site, w: World, v: World, s: Segment)
    requires BuiltOk(site, w) && Grows(site, w, v)
    ensures HasOrigin(w, s) ==> HasOrigin(v, s)
    ensures Kept(site, w, s) ==> Kept(site, v, s)
  {
    if HasOrigin(w, s) {
      var bs :| (s, bs) in w.built;
      assert (s, bs) in v.built;
    }
  }

  lemma AllGrow(site: Site, w: World, v: World, segs: seq<Segment>)
    requires BuiltOk(site, w) && Grows(site, w, v)
    ensures AllOrigin(w, segs) ==> AllOrigin(v, segs)
    ensures AllKept(site, w, segs) ==> AllKept(site, v, segs)
  {
    forall s | s in segs ensures (HasOrigin(w, s) ==> HasOrigin(v, s)) && (Kept(site, w, s) ==> Kept(site, v, s)) {
      KeptGrows(site, w, v, s);
    }
  }

  lemma BackedGrows(site: Site, w: World, v: World, m: Option<Manifest>, revision: string)
    requires Backed(site, w, m, revision) && Grows(site, w, v)
    ensures Backed(site, v, m, revision)
  {
    if m.Some? {
      var i :| 0 <= i < |w.history| && w.history[i] == m.value;
      assert v.history[i] == m.value;
    }
  }

  lemma WriterGrows(site: Site, w: World, v: World, x: Writer)
    requires BuiltOk(site, w) && Grows(site, w, v) && WriterOk(site, w, x)
    ensures WriterOk(site, v, x)
  {
    hide Kept, HasOrigin, Grows, Backed, ValidState, ValidManifest;
    if x.job.Built? || x.job.Confirmed? { KeptGrows(site, w, v, x.job.segment); }
    if x.Live? {
      if x.revision != "" { BackedGrows(site, w, v, Some(x.manifest), x.revision); }
    } else {
      BackedGrows(site, w, v, x.existing, x.revision);
      AllGrow(site, w, v, x.state.segments);
    }
  }

  lemma HistoryGrows(site: Site, w: World, v: World, m: Manifest)
    requires BuiltOk(site, w) && Grows(site, w, v) && PublishedOk(site, w, m)
    ensures PublishedOk(site, v, m)
  {
    AllGrow(site, w, v, m.segments);
  }

  /** Every other writer stands still while `id` moves. */
  ghost predicate OnlyMoves(w: World, v: World, id: int) {
    forall i :: i in v.writers && i != id ==> i in w.writers && v.writers[i] == w.writers[i]
  }

  lemma InvBy(site: Site, w: World, v: World, id: int)
    requires Inv(site, w) && Grows(site, w, v) && SharedOk(site, v) && OnlyMoves(w, v, id)
    requires id in v.writers ==> WriterOk(site, v, v.writers[id])
    ensures Inv(site, v)
  {
    forall i | i in v.writers ensures WriterOk(site, v, v.writers[i]) {
      if i != id { WriterGrows(site, w, v, w.writers[i]); }
    }
  }

  lemma PrivateStep(site: Site, w: World, v: World, id: int)
    requires Inv(site, w) && v == w.(writers := v.writers) && OnlyMoves(w, v, id)
    requires id in v.writers ==> WriterOk(site, w, v.writers[id])
    ensures Inv(site, v)
  {
    SharedSame(site, w, v);
    if id in v.writers { WriterGrows(site, w, v, v.writers[id]); }
    InvBy(site, w, v, id);
  }

  lemma SharedSame(site: Site, w: World, v: World)
    requires SharedOk(site, w) && v == w.(writers := v.writers)
    ensures SharedOk(site, v) && Grows(site, w, v)
  {
    SharedBy(site, w, v);
  }

  /** Built segments, published manifests and saved states that were there before stay good. */
  lemma SharedBy(site: Site, w: World, v: World)
    requires SharedOk(site, w) && Grows(site, w, v) && BuiltOk(site, v)
    requires v.history == w.history
    requires forall k :: k in v.objects ==> v.objects[k] in v.bytes
    requires forall k :: Reserved(site, k) ==> (k in v.objects <==> k in w.objects) && (k in w.objects ==> v.objects[k] == w.objects[k])
    ensures SharedOk(site, v)
  {
    forall m | m in v.history ensures PublishedOk(site, v, m) { HistoryGrows(site, w, v, m); }
    StateStays(site, w, v, site.stateKey);
    StateStays(site, w, v, site.legacyKey);
  }

  lemma StateStays(site: Site, w: World, v: World, key: string)
    requires BuiltOk(site, w) && Grows(site, w, v) && StateOriginOk(site, w, key)
    requires (key in v.objects <==> key in w.objects) && (key in w.objects ==> v.objects[key] == w.objects[key])
    ensures StateOriginOk(site, v, key)
  {
    var st := LoadState(site, w.objects, key);
    if st.Found? { AllGrow(site, w, v, st.value.segments); }
  }

  // ---------------------------------------------------------------- one step at a time

  lemma LoadedIsLatest(site: Site, w: World)
    requires GoodSite(site) && SharedOk(site, w)
    ensures match LoadManifest(site, w.objects)
            case Missing => w.history == []
            case Unreadable => false
            case Found(m, rev) => w.history != [] && m == w.history[|w.history| - 1] && Backed(site, w, Some(m), rev) && rev != ""
  {
    if w.history != [] {
      var m := w.history[|w.history| - 1];
      assert PublishedOk(site, w, m);
      assert site.parse(site.render(m)) == Some(m);
      assert IsHash(site.env.sha(site.render(m)));
    }
  }

  lemma StartIsOk(site: Site, w: World, e: Event)
    requires GoodSite(site) && SharedOk(site, w) && Starts(site, w, e).Some?
    ensures WriterOk(site, w, Starts(site, w, e).value)
  {
    LoadedIsLatest(site, w);
    var x := Starts(site, w, e).value;
    if x.Live? { assert ValidManifest(x.manifest); }
  }

  lemma PrivatelyIsOk(site: Site, w: World, x: Writer, e: Event)
    requires SharedOk(site, w) && WriterOk(site, w, x) && Privately(site, w, x, e).Some?
    ensures WriterOk(site, w, Privately(site, w, x, e).value)
  {
    hide ValidManifest, ValidChainID, ValidSegment, DecodeChecked, BuiltOk, HistoryOk, CurrentOk;
  }

  lemma BuildKeepsInv(site: Site, w: World, e: Event, x: Writer, v: World)
    requires GoodSite(site) && Inv(site, w) && e.Build? && e.id in w.writers && x == w.writers[e.id]
    requires var p := BuildSegment(site, x.chainID, e.blocks, e.compression);
             p.Some? && x.job.Idle? && v == AfterBuild(w, e.id, x, p.value.0, p.value.1, e.blocks)
    ensures Inv(site, v) && Grows(site, w, v)
  {
    hide ValidChainID, BuildSegment, ValidManifest, ValidState, GoodSite, BuiltOk, ObjectsOk, HistoryOk, CurrentOk, JobOk, Grows;
    assert WriterOk(site, w, x);
    BuildGrows(site, w, e, x, v);
    WriterGrows(site, w, v, x);
    assert JobOk(site, v, v.writers[e.id].job) by { FreshJob(site, v, v.writers[e.id].job, e.blocks); }
    InvBy(site, w, v, e.id);
  }

  lemma FreshJob(site: Site, v: World, job: Job, bs: seq<Block>)
    requires job.Built? && (job.segment, bs) in v.built
    ensures JobOk(site, v, job)
  {
  }

  lemma BuildGrows(site: Site, w: World, e: Event, x: Writer, v: World)
    requires GoodSite(site) && SharedOk(site, w) && e.Build? && ValidChainID(x.chainID)
    requires var p := BuildSegment(site, x.chainID, e.blocks, e.compression);
             p.Some? && v == AfterBuild(w, e.id, x, p.value.0, p.value.1, e.blocks)
    ensures SharedOk(site, v) && Grows(site, w, v)
  {
    hide ValidChainID, ShaIsHex, MarshalInverts, Accepts;
    var p := BuildSegment(site, x.chainID, e.blocks, e.compression).value;
    assert Describes(site.env, p.0, e.blocks) && DataOf(site.env, p.0, e.blocks) == p.1;
    assert !Reserved(site, p.0.key);
    SharedBy(site, w, v);
  }

  lemma UploadKeepsInv(site: Site, w: World, e: Event, x: Writer, v: World)
    requires Inv(site, w) && e.Upload? && e.id in w.writers && x == w.writers[e.id] && x.job.Built?
    requires v == AfterUpload(w, x.job.segment.key, e.landed)
    ensures Inv(site, v) && Grows(site, w, v)
  {
    hide ValidChainID, ValidManifest, ValidState, Describes, Stored;
    assert WriterOk(site, w, x);
    var bs :| (x.job.segment, bs) in w.built;
    assert !Reserved(site, x.job.segment.key);
    SharedBy(site, w, v);
    WriterGrows(site, w, v, x);
    InvBy(site, w, v, e.id);
  }

  lemma {:induction false} AppendedAreOld(segs: seq<Segment>, s: Segment)
    ensures forall t :: t in AppendSegment(segs, s) ==> t in segs || t == s
  {
    if segs != [] { AppendedAreOld(segs[1..], s); }
  }

  lemma StateWritten(site: Site, w: World, v: World, st: MigrationState)
    requires GoodSite(site) && ObjectsOk(site, w) && BuiltOk(site, w) && Grows(site, w, v)
    requires v.objects == w.objects[site.stateKey := site.renderState(st)] && AllOrigin(v, st.segments)
    requires |site.renderState(st)| <= MAX_READ
    ensures StateOriginOk(site, v, site.stateKey) && StateOriginOk(site, v, site.legacyKey)
  {
    assert site.parseState(site.renderState(st)) == Some(st);
    if site.legacyKey != site.stateKey { StateStays(site, w, v, site.legacyKey); }
  }

  lemma SaveKeepsInv(site: Site, w: World, e: Event, x: Writer, v: World)
    requires GoodSite(site) && Inv(site, w) && e.SaveState? && e.id in w.writers && x == w.writers[e.id]
    requires CanSave(site, x) && v == AfterSave(site, w, e.id, x)
    ensures Inv(site, v) && Grows(site, w, v)
  {
    hide ValidChainID, ValidManifest, ValidState, Describes, Stored;
    assert WriterOk(site, w, x);
    if e.id !in v.writers {
      PrivateStep(site, w, v, e.id);
      SharedSame(site, w, v);
    } else {
      var st := NextState(x);
      if x.job.Confirmed? { AppendedAreOld(x.state.segments, x.job.segment); }
      assert AllOrigin(w, st.segments);
      AllGrow(site, w, v, st.segments);
      StateWritten(site, w, v, st);
      forall m | m in v.history ensures PublishedOk(site, v, m) { HistoryGrows(site, w, v, m); }
      WriterGrows(site, w, v, x);
      InvBy(site, w, v, e.id);
    }
  }

  /** A publication that goes through started from the manifest that is still there. */
  lemma SwapSeesLatest(site: Site, w: World, m: Option<Manifest>, revision: string, data: Bytes)
    requires GoodSite(site) && SharedOk(site, w) && CollisionFree(site.env.sha, w.bytes)
    requires Backed(site, w, m, revision)
    ensures Swap(site.env.sha, w.objects, site.manifestKey, data, revision).Some? <==>
              (if m.None? then w.history == [] else w.history != [] && w.history[|w.history| - 1] == m.value)
  {
    forall d ensures site.env.sha(d) != "" { assert IsHash(site.env.sha(d)); }
    if m.Some? { assert PublishedOk(site, w, m.value); }
    if w.history != [] {
      var last := w.history[|w.history| - 1];
      assert PublishedOk(site, w, last);
      assert site.parse(site.render(last)) == Some(last);
      if m.Some? { assert site.parse(site.render(m.value)) == Some(m.value); }
    }
    SwapSucceedsIff(site.env.sha, w.objects, site.manifestKey, if m.Some? then Some(site.render(m.value)) else None, data, w.bytes);
  }

  /** What a live archiver publishes: everything it loaded, and one more segment. */
  lemma LiveManifest(site: Site, w: World, x: Writer)
    requires BuiltOk(site, w) && HistoryOk(site, w) && WriterOk(site, w, x) && x.Live? && CanPublish(site, x)
    ensures var m := NextManifest(x).value;
            && m.segments == x.manifest.segments + [x.job.segment] && Extends(x.manifest, m)
            && AllKept(site, w, m.segments) && m.chainID == x.chainID
  {
    AppendIsValidIff(x.manifest, x.job.segment);
    if x.revision != "" { assert PublishedOk(site, w, x.manifest); }
  }

  lemma {:induction false} FirstsAscend(segs: seq<Segment>)
    requires Contiguous(segs)
    ensures forall i, j :: 0 <= i < j < |segs| ==> segs[i].first <= segs[j].first
  {
    forall i, j | 0 <= i < j < |segs| ensures segs[i].first <= segs[j].first {
      Ascending(segs, i, j);
      assert ValidSegment(segs[i]);
    }
  }

  /** What a migrator publishes: its saved segments, over exactly its range. */
  lemma MigratorManifest(site: Site, w: World, x: Writer)
    requires HistoryOk(site, w) && WriterOk(site, w, x) && x.Migrator? && CanPublish(site, x)
    ensures var m := NextManifest(x).value;
            && m.segments == x.state.segments && m.first == x.state.start && m.last == x.state.end
            && m.chainID == x.chainID && AllKept(site, w, m.segments)
            && (x.existing.Some? ==> Extends(x.existing.value, m))
  {
    FirstsAscend(x.state.segments);
    SortedStays(x.state.segments);
    if x.existing.Some? {
      assert PublishedOk(site, w, x.existing.value);
      if x.existing.value.segments != [] { ValidRange(x.existing.value); }
    }
  }

  function Basis(x: Writer): Option<Manifest> {
    if x.Migrator? then x.existing else if x.revision == "" then None else Some(x.manifest)
  }

  lemma NextIsGood(site: Site, w: World, x: Writer)
    requires SharedOk(site, w) && WriterOk(site, w, x) && CanPublish(site, x)
    ensures NextManifest(x).Some?
    ensures var m := NextManifest(x).value;
            && Backed(site, w, Basis(x), x.revision)
            && ValidManifest(m) && |site.render(m)| <= MAX_READ && AllKept(site, w, m.segments) && m.chainID == x.chainID
            && (Basis(x).Some? ==> Extends(Basis(x).value, m))
  {
    if x.Live? { LiveManifest(site, w, x); } else { MigratorManifest(site, w, x); }
  }

  lemma PublishedKeepsShared(site: Site, w: World, m: Manifest, data: Bytes, v: World)
    requires GoodSite(site) && SharedOk(site, w) && data == site.render(m)
    requires v == Published(w, w.objects[site.manifestKey := data], m, data).(writers := v.writers)
    requires ValidManifest(m) && |data| <= MAX_READ && AllKept(site, w, m.segments)
    requires w.history != [] ==> Extends(w.history[|w.history| - 1], m)
    ensures SharedOk(site, v) && Grows(site, w, v)
  {
    forall k | k in w.history ensures PublishedOk(site, v, k) { HistoryGrows(site, w, v, k); }
    AllGrow(site, w, v, m.segments);
    assert PublishedOk(site, v, m);
    StateStays(site, w, v, site.stateKey);
    StateStays(site, w, v, site.legacyKey);
  }

  lemma PublishKeepsInv(site: Site, w: World, e: Event, x: Writer, v: World)
    requires GoodSite(site) && Inv(site, w) && e.Publish? && e.id in w.writers && x == w.writers[e.id]
    requires CanPublish(site, x) && v == AfterPublish(site, w, e.id, x)
    requires CollisionFree(site.env.sha, w.bytes)
    ensures Inv(site, v) && Grows(site, w, v)
  {
    hide ValidChainID, SharedOk, WriterOk, CanPublish, GoodSite, CollisionFree, Grows, ValidManifest, NextManifest, AllKept, Backed;
    NextIsGood(site, w, x);
    var m := NextManifest(x).value;
    if Swap(site.env.sha, w.objects, site.manifestKey, site.render(m), x.revision).None? {
      PrivateStep(site, w, v, e.id);
      SharedSame(site, w, v);
    } else {
      SwapSeesLatest(site, w, Basis(x), x.revision, site.render(m));
      PublishedKeepsInv(site, w, e.id, x.chainID, m, v);
    }
  }

  lemma ChainIsValid(m: Manifest)
    requires ValidManifest(m)
    ensures ValidChainID(m.chainID)
  {
  }

  lemma PublishedKeepsInv(site: Site, w: World, id: int, chainID: string, m: Manifest, v: World)
    requires GoodSite(site) && Inv(site, w) && OnlyMoves(w, v, id) && m.chainID == chainID
    requires ValidManifest(m) && |site.render(m)| <= MAX_READ && AllKept(site, w, m.segments)
    requires w.history != [] ==> Extends(w.history[|w.history| - 1], m)
    requires v == Published(w, w.objects[site.manifestKey := site.render(m)], m, site.render(m)).(writers := v.writers)
    requires id in v.writers ==> v.writers[id] == Live(chainID, m, site.env.sha(site.render(m)), Idle)
    ensures Inv(site, v) && Grows(site, w, v)
  {
    hide ValidManifest, AllKept, ValidChainID;
    ChainIsValid(m);
    PublishedKeepsShared(site, w, m, site.render(m), v);
    assert v.history[|w.history|] == m;
    assert IsHash(site.env.sha(site.render(m)));
    hide SharedOk;
    InvBy(site, w, v, id);
  }

  lemma StepKeepsInv(site: Site, w: World, e: Event, v: World)
    requires GoodSite(site) && Inv(site, w) && Apply(site, w, e) == Some(v) && CollisionFree(site.env.sha, w.bytes)
    ensures Inv(site, v) && Grows(site, w, v)
  {
    hide SharedOk, WriterOk, Grows, GoodSite, CollisionFree, Starts, Privately, CanPublish, CanSave, AfterSave, AfterPublish, BuildSegment;
    if e.id !in w.writers {
      StartIsOk(site, w, e);
      PrivateStep(site, w, v, e.id);
      SharedSame(site, w, v);
    } else {
      var x := w.writers[e.id];
      assert WriterOk(site, w, x);
      match e
      case Build(_, _, _) => BuildKeepsInv(site, w, e, x, v);
      case Upload(_, _) => UploadKeepsInv(site, w, e, x, v);
      case SaveState(_) => SaveKeepsInv(site, w, e, x, v);
      case Publish(_) => PublishKeepsInv(site, w, e, x, v);
      case _ =>
        if !e.Crash? { PrivatelyIsOk(site, w, x, e); }
        PrivateStep(site, w, v, e.id);
        SharedSame(site, w, v);
    }
  }

  lemma {:induction false} RunKeepsInv(site: Site, ws: seq<World>, es: seq<Event>, k: nat)
    requires GoodSite(site) && Run(site, ws, es) && Inv(site, ws[0]) && k < |ws|
    requires CollisionFree(site.env.sha, ws[k].bytes)
    ensures Inv(site, ws[k]) && Grows(site, ws[0], ws[k])
    decreases k
  {
    if k > 0 {
      BytesOnlyGrow(site, ws[k - 1], es[k - 1], ws[k]);
      RunKeepsInv(site, ws, es, k - 1);
      StepKeepsInv(site, ws[k - 1], es[k - 1], ws[k]);
    }
  }

  lemma BytesOnlyGrow(site: Site, w: World, e: Event, v: World)
    requires Apply(site, w, e) == Some(v)
    ensures w.bytes <= v.bytes
  {
  }

  // ---------------------------------------------------------------- everything published reads back

  lemma StoredIsTheEncoding(site: Site, w: World, s: Segment, bs: seq<Block>)
    requires SharedOk(site, w) && CollisionFree(site.env.sha, w.bytes)
    requires Stored(site.env, w.objects, s) && (s, bs) in w.built
    ensures w.objects[s.key] == DataOf(site.env, s, bs)
  {
  }

  /** A described segment decodes to the blocks it was built from. */
  lemma DescribedDecodes(env: Env, s: Segment, bs: seq<Block>)
    requires GoodEnv(env) && Describes(env, s, bs) && ValidSegment(s)
    ensures DecodeChecked(env, DataOf(env, s, bs), s) == RecordsOf(env, bs)
    ensures |bs| == s.last - s.first + 1
    ensures forall i :: 0 <= i < |bs| ==> RecordToBlock(env, RecordsOf(env, bs).value[i]) == Some(bs[i])
  {
    var rs, data := RecordsOf(env, bs).value, DataOf(env, s, bs);
    assert Encodes(env, rs, s.compression, s.key, data, s);
    assert ZipInverts(env, Payload(rs));
    SegmentRoundTrip(env, rs, s.compression, s.key, data, s);
    EncodedRange(env, rs, s.compression, s.key, data, s);
    forall i | 0 <= i < |bs| ensures RecordToBlock(env, rs[i]) == Some(bs[i]) { BlockRoundTrip(env, bs[i]); }
  }

  /** Every segment with its origin and its digest intact verifies in full. */
  lemma KeptVerifies(site: Site, w: World, s: Segment)
    requires GoodSite(site) && SharedOk(site, w) && CollisionFree(site.env.sha, w.bytes)
    requires Kept(site, w, s) && ValidSegment(s)
    ensures Verifies(site.env, w.objects, s)
  {
    var bs :| (s, bs) in w.built;
    StoredIsTheEncoding(site, w, s, bs);
    DescribedDecodes(site.env, s, bs);
  }

  lemma PublishedSegment(site: Site, w: World, m: Manifest, i: nat)
    requires PublishedOk(site, w, m) && i < |m.segments|
    ensures Contiguous(m.segments) && ValidSegment(m.segments[i]) && Kept(site, w, m.segments[i])
  {
  }

  lemma KeptReads(site: Site, w: World, m: Manifest, h: int, i: nat, bs: seq<Block>)
    requires GoodSite(site) && SharedOk(site, w) && CollisionFree(site.env.sha, w.bytes)
    requires PublishedOk(site, w, m) && i < |m.segments| && Covers(m.segments[i], h) && (m.segments[i], bs) in w.built
    ensures h - m.segments[i].first < |bs| && ReadArchive(site.env, w.objects, m, h) == Some(bs[h - m.segments[i].first])
  {
    hide Lookup, DecodeChecked, RecordToBlock, Contiguous, ValidSegment, HistoryOk, ObjectsOk, CurrentOk, PublishedOk, RecordsOf;
    var s := m.segments[i];
    PublishedSegment(site, w, m, i);
    LookupFinds(m.segments, h, i);
    StoredIsTheEncoding(site, w, s, bs);
    DescribedDecodes(site.env, s, bs);
  }

  ghost predicate ReadsAs(site: Site, w: World, m: Manifest, h: int, s: Segment, bs: seq<Block>) {
    0 <= h - s.first < |bs| && ReadArchive(site.env, w.objects, m, h) == Some(bs[h - s.first])
  }

  lemma ReadsBack(site: Site, w: World, m: Manifest, h: int) returns (s: Segment, bs: seq<Block>)
    requires GoodSite(site) && SharedOk(site, w) && CollisionFree(site.env.sha, w.bytes)
    requires m in w.history && InRange(m, h)
    ensures Lookup(m.segments, h) == Some(s) && (s, bs) in w.built
    ensures forall cs :: (s, cs) in w.built ==> ReadsAs(site, w, m, h, s, cs)
  {
    hide ReadArchive, Lookup, ValidSegment, GoodSite, CollisionFree, Stored, BuiltOk, ObjectsOk, CurrentOk;
    assert PublishedOk(site, w, m);
    var i := FindSegment(m.segments, h);
    LookupFinds(m.segments, h, i);
    s := m.segments[i];
    PublishedSegment(site, w, m, i);
    bs :| (s, bs) in w.built;
    forall cs | (s, cs) in w.built ensures ReadsAs(site, w, m, h, s, cs) { KeptReads(site, w, m, h, i, cs); }
  }

  /**
   In every reachable world, under every manifest that was ever published, every height of
   its range reads back as a block some writer was given for it, and as the block that
   anyone who built the covering segment was given.
   */
  lemma PublishedReadsBack(site: Site, ws: seq<World>, es: seq<Event>, k: nat, m: Manifest, h: int) returns (s: Segment, bs: seq<Block>)
    requires GoodSite(site) && Run(site, ws, es) && Inv(site, ws[0]) && k < |ws|
    requires CollisionFree(site.env.sha, ws[k].bytes)
    requires m in ws[k].history && InRange(m, h)
    ensures Lookup(m.segments, h) == Some(s) && (s, bs) in ws[k].built
    ensures forall cs :: (s, cs) in ws[k].built ==> ReadsAs(site, ws[k], m, h, s, cs)
  {
    hide ReadsAs, Lookup, GoodSite, CollisionFree, SharedOk;
    RunKeepsInv(site, ws, es, k);
    s, bs := ReadsBack(site, ws[k], m, h);
  }

  // ---------------------------------------------------------------- publications only extend

  function Latest(w: World): Option<Manifest> {
    if w.history == [] then None else Some(w.history[|w.history| - 1])
  }

  /**
   One publication step.  It goes through if and only if the manifest the writer started
   from is still the latest one.  A live archiver then publishes the stored segments and
   one more; a migrator publishes exactly its own range.  A stale writer changes nothing.
   */
  lemma PublicationStep(site: Site, w: World, e: Event, v: World)
    requires GoodSite(site) && Inv(site, w) && CollisionFree(site.env.sha, w.bytes)
    requires e.Publish? && Apply(site, w, e) == Some(v)
    ensures var x := w.writers[e.id];
            if Basis(x) != Latest(w) then v == DropWriter(w, e.id)
            else
              && v.history == w.history + [NextManifest(x).value]
              && LoadManifest(site, v.objects) == Found(NextManifest(x).value, site.env.sha(site.render(NextManifest(x).value)))
              && (x.Live? ==> Latest(v).value.segments == (if w.history == [] then [] else Latest(w).value.segments) + [x.job.segment])
              && (x.Migrator? ==> Latest(v).value.first == x.state.start && Latest(v).value.last == x.state.end)
  {
    hide ValidChainID, ValidSegment;
    var x := w.writers[e.id];
    NextIsGood(site, w, x);
    var m := NextManifest(x).value;
    SwapSeesLatest(site, w, Basis(x), x.revision, site.render(m));
    StepKeepsInv(site, w, e, v);
    if Basis(x) == Latest(w) {
      LoadedIsLatest(site, v);
      if x.Live? { LiveManifest(site, w, x); } else { MigratorManifest(site, w, x); }
    }
  }

  lemma {:induction false} LaterExtends(site: Site, w: World, i: nat, j: nat)
    requires HistoryOk(site, w) && i <= j < |w.history|
    ensures Extends(w.history[i], w.history[j])
  {
    if i < j {
      LaterExtends(site, w, i, j - 1);
      assert Extends(w.history[j - 1], w.history[j]);
    }
  }

  /** Whatever the interleaving, each published range contains every range published before it. */
  lemma RangesOnlyExtend(site: Site, ws: seq<World>, es: seq<Event>, k: nat, i: nat, j: nat)
    requires GoodSite(site) && Run(site, ws, es) && Inv(site, ws[0]) && k < |ws|
    requires CollisionFree(site.env.sha, ws[k].bytes) && i <= j < |ws[k].history|
    ensures Extends(ws[k].history[i], ws[k].history[j])
  {
    RunKeepsInv(site, ws, es, k);
    LaterExtends(site, ws[k], i, j);
  }

  // ---------------------------------------------------------------- who may join, and what may be published

  /** A migration may start when there is no manifest, or one of its chain that is empty or of exactly its range. */
  lemma StartsMigrationIff(site: Site, w: World, chainID: string, start: int, end: int)
    ensures var (x, stored) := (StartsMigration(site, w, chainID, start, end), LoadManifest(site, w.objects));
            && (x.Some? <==>
                  && 0 < start <= end && ValidChainID(chainID) && !stored.Unreadable?
                  && (stored.Found? ==> stored.value.chainID == chainID && (stored.value.segments == [] || (stored.value.first == start && stored.value.last == end))))
            && (x.Some? ==> x.value.Migrator? && x.value.state.next == start && x.value.state.segments == [])
  {
    hide ValidChainID, ValidSegment;
    var stored := LoadManifest(site, w.objects);
    if stored.Found? && stored.value.segments != [] { ValidRange(stored.value); }
  }

  /** What a migrator saves is what a later one of the same chain and range goes on from, and nobody else. */
  lemma SavedIsResumed(site: Site, w: World, e: Event, v: World, y: Writer)
    requires GoodSite(site) && e.SaveState? && e.id in w.writers && Apply(site, w, e) == Some(v) && e.id in v.writers && y.Migrator?
    ensures var (saved, z) := (NextState(w.writers[e.id]), OpensState(site, v, y, false));
            && (z.Some? <==> saved.chainID == y.chainID && saved.start == y.state.start && saved.end == y.state.end)
            && (z.Some? ==> z.value.state == saved && z.value.job.Idle?
                            && forall data :: Swap(site.env.sha, v.objects, site.stateKey, data, z.value.stateRevision).Some?)
  {
    hide ValidState;
  }

  /** `g` is a valid manifest of exactly `segments`, and can be stored. */
  ghost predicate Storable(site: Site, g: Manifest, chainID: string, segments: seq<Segment>) {
    ValidManifest(g) && g.chainID == chainID && g.segments == segments && |site.render(g)| <= MAX_READ
  }

  /** A live archiver may publish exactly when some valid manifest has its segments and one more, and can be stored. */
  lemma PublishesLiveIff(site: Site, x: Writer)
    requires x.Live? && x.job.Confirmed? && ValidManifest(x.manifest) && x.manifest.chainID == x.chainID
    ensures CanPublish(site, x) <==> exists g :: Storable(site, g, x.chainID, x.manifest.segments + [x.job.segment])
  {
    hide ValidManifest;
    if CanPublish(site, x) {
      AppendIsValidIff(x.manifest, x.job.segment);
      assert Storable(site, NextManifest(x).value, x.chainID, x.manifest.segments + [x.job.segment]);
    }
    if g :| Storable(site, g, x.chainID, x.manifest.segments + [x.job.segment]) {
      AppendIsComplete(x.manifest, x.job.segment, g);
    }
  }

  /** A migrator that has checked its segments may publish exactly when some valid manifest has them, and can be stored. */
  lemma PublishesMigrationIff(site: Site, x: Writer)
    requires x.Migrator? && x.job.Checked? && ValidState(x.state) && x.state.segments != []
    ensures CanPublish(site, x) <==> exists g :: Storable(site, g, x.chainID, x.state.segments)
  {
    hide ValidSegment, ValidChainID;
    FirstsAscend(x.state.segments);
    SortedStays(x.state.segments);
    if CanPublish(site, x) { assert Storable(site, NextManifest(x).value, x.chainID, x.state.segments); }
    if g :| Storable(site, g, x.chainID, x.state.segments) { assert g == NewManifest(x.chainID, x.state.segments); }
  }

  // ---------------------------------------------------------------- checks one by one

  lemma VerifiesLater(site: Site, w: World, v: World, s: Segment)
    requires BuiltOk(site, w) && Grows(site, w, v) && HasOrigin(w, s) && Verifies(site.env, w.objects, s)
    ensures Verifies(site.env, v.objects, s)
  {
    hide DecodeChecked, Describes, DataOf;
    var bs :| (s, bs) in w.built;
    assert !Reserved(site, s.key);
  }

  /**
   Checking segments one by one, each at its own moment of a run while other writers go on,
   is as good as checking them all at the end.
   */
  lemma OneByOneIsAtOnce(site: Site, ws: seq<World>, es: seq<Event>, segs: seq<Segment>, moments: seq<nat>, j: nat)
    requires GoodSite(site) && Run(site, ws, es) && Inv(site, ws[0]) && j < |ws| && CollisionFree(site.env.sha, ws[j].bytes)
    requires |moments| == |segs|
    requires forall k :: 0 <= k < |segs| ==> moments[k] <= j && HasOrigin(ws[moments[k]], segs[k]) && Verifies(site.env, ws[moments[k]].objects, segs[k])
    ensures forall s :: s in segs ==> Verifies(site.env, ws[j].objects, s)
  {
    hide GoodSite, Inv, CollisionFree, Apply, Verifies, HasOrigin, Grows;
    forall k | 0 <= k < |segs| ensures Verifies(site.env, ws[j].objects, segs[k]) {
      var i := moments[k];
      BytesOnlyGrowAlong(site, ws, es, i, j);
      RunKeepsInv(site, ws, es, i);
      var vs, fs := ws[i..], es[i..];
      assert vs[j - i] == ws[j] && vs[0] == ws[i];
      forall x | 0 <= x < |fs| ensures Apply(site, vs[x], fs[x]) == Some(vs[x + 1]) { assert fs[x] == es[i + x]; }
      RunKeepsInv(site, vs, fs, j - i);
      assert BuiltOk(site, ws[i]) by { InvHasBuilt(site, ws[i]); }
      VerifiesLater(site, ws[i], ws[j], segs[k]);
    }
  }

  lemma InvHasBuilt(site: Site, w: World)
    requires Inv(site, w)
    ensures BuiltOk(site, w)
  {
  }

  lemma {:induction false} BytesOnlyGrowAlong(site: Site, ws: seq<World>, es: seq<Event>, i: nat, j: nat)
    requires Run(site, ws, es) && i <= j < |ws| && CollisionFree(site.env.sha, ws[j].bytes)
    ensures CollisionFree(site.env.sha, ws[i].bytes)
    decreases j
  {
    hide Apply;
    if i < j {
      BytesOnlyGrow(site, ws[j - 1], es[j - 1], ws[j]);
      BytesOnlyGrowAlong(site, ws, es, i, j - 1);
    }
  }
}
