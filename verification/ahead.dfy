/**
 A concrete run in which a node loses a block.  Its archive, published through the protocol
 and verified, is one height ahead of its hot store; the node then ingests another block at
 that height, archives what follows, and prunes.
 */
module ArchiveAhead {
  import opened Common
  import opened Chain
  import opened Manifests
  import opened Segments
  import opened ObjectStores
  import opened Publication
  import opened Pruning
  import opened Nodes
  import opened Losses
  import A = Archiver
  import I = Ingest
  import K = Checkpoints
  import V = Verification

  // ---------------------------------------------------------------- the blocks

  function Crypt(): Crypto { K.DemoCrypto() }

  /** Heights 1 and 2 as archived. */
  function X1(): Block { K.DemoBlock(1, 'a', '0') }

  function X2(): Block { K.DemoBlock(2, 'b', 'a') }

  /** Heights 2 to 5 as ingested. */
  function Y(h: int): Block {
    K.DemoBlock(h, if h == 2 then 'c' else if h == 3 then 'd' else if h == 4 then 'e' else 'f',
                if h == 2 then 'a' else if h == 3 then 'c' else if h == 4 then 'd' else 'e')
  }

  function Marshal(b: Block): Option<Bytes> {
    if b == X1() then Some([1]) else if b == X2() then Some([2]) else if b == Y(3) then Some([3]) else None
  }

  function Unmarshal(d: Bytes): Option<Block> {
    if d == [1] then Some(X1()) else if d == [2] then Some(X2()) else if d == [3] then Some(Y(3)) else None
  }

  function BlockHash(b: Block): string { if Marshal(b).Some? then Hash(Crypt(), b) else "" }

  function Sha(d: Bytes): string {
    if |d| > 15 && d[0] == 67 then K.Hex(if d[15] == 1 then '1' else if d[15] == 3 then '3' else '2')
    else if d == [1] then K.Hex('4')
    else if d == [2] then K.Hex('5')
    else K.Hex('6')
  }

  function DemoEnv(): Env { Env(Sha, (p: Bytes) => p, (p: Bytes) => Some(p), Marshal, Unmarshal, BlockHash) }

  lemma Hexes(c: char)
    requires '0' <= c <= '9' || 'a' <= c <= 'f'
    ensures IsHash(K.Hex(c)) && K.Hex(c)[0] == c
  {
    assert forall x :: x in K.Hex(c) ==> x == c;
  }

  lemma Different(a: char, b: char)
    requires a != b
    ensures K.Hex(a) != K.Hex(b)
  {
    assert K.Hex(a)[0] == a && K.Hex(b)[0] == b;
  }

  lemma BlocksDiffer()
    ensures X1() != X2() && X1() != Y(3) && X2() != Y(3) && X2().header != Y(2).header
    ensures Hash(Crypt(), X1()) == K.Hex('a') && Hash(Crypt(), X2()) == K.Hex('b') && Hash(Crypt(), Y(3)) == K.Hex('d')
  {
    Different('b', 'c');
  }

  lemma EnvIsGood()
    ensures GoodEnv(DemoEnv())
  {
    var env := DemoEnv();
    BlocksDiffer();
    forall d ensures IsHash(env.sha(d)) {
      Hexes('1'); Hexes('2'); Hexes('3'); Hexes('4'); Hexes('5'); Hexes('6');
    }
    hide K.Hex, X1, X2, Y, Sha;
  }

  lemma NamesTell()
    ensures HashesTell(Crypt(), DemoEnv())
  {
    BlocksDiffer();
    forall a, b | IsHash(BlockHash(b)) && EqualFold(BlockHash(a), BlockHash(b)) ensures Hash(Crypt(), a) == Hash(Crypt(), b) {
      assert |BlockHash(a)| == |BlockHash(b)| == 64;
      assert Lower(BlockHash(a)[0]) == Lower(BlockHash(b)[0]);
    }
  }

  // ---------------------------------------------------------------- the segments

  function R(h: int): Record {
    if h == 1 then Record(1, K.Hex('a'), [1]) else if h == 2 then Record(2, K.Hex('b'), [2]) else Record(3, K.Hex('d'), [3])
  }

  function Old(): seq<Record> { [R(1), R(2)] }

  function New(): seq<Record> { [R(3)] }

  lemma RecordsAreGood(h: int)
    requires 1 <= h <= 3
    ensures GoodRecord(R(h)) && Framable(R(h)) && |Frame(R(h))| == 78
  {
    Hexes('a'); Hexes('b'); Hexes('d');
    GoodIsFramable(R(h));
  }

  lemma OldIsAccepted()
    ensures Accepts(Old())
  {
    var rs := Old();
    RecordsAreGood(1);
    RecordsAreGood(2);
    assert rs[..0] == [];
    IndexOneMore(rs, 0);
    hide Frame, GoodRecord;
    assert Fits(rs, 0) && Fits(rs, 1);
    assert AcceptsTo(rs, 0) && AcceptsTo(rs, 1) && AcceptsTo(rs, 2);
  }

  lemma NewIsAccepted()
    ensures Accepts(New())
  {
    var rs := New();
    RecordsAreGood(3);
    assert rs[..0] == [];
    hide Frame, GoodRecord;
    assert Fits(rs, 0);
    assert AcceptsTo(rs, 0) && AcceptsTo(rs, 1);
  }

  ghost function Data(rs: seq<Record>): Bytes { EncodedData(DemoEnv(), rs, Plain) }

  ghost function Described(rs: seq<Record>, key: string): Segment
    requires rs != []
  {
    EncodedSegment(DemoEnv(), rs, Plain).(key := key)
  }

  ghost function S1(): Segment { Described(Old(), "s1") }

  ghost function S3(): Segment { Described(New(), "s3") }

  /** The digest of a segment shows its first height. */
  lemma DataShowsHeight(rs: seq<Record>)
    requires rs != [] && Framable(rs[0]) && 0 <= rs[0].height < 256
    ensures |Data(rs)| > 15 && Data(rs)[0] == 67 && Data(rs)[15] == rs[0].height
  {
    assert rs == [rs[0]] + rs[1..];
    PayloadCons(rs[0], rs[1..]);
    var data, frame := Data(rs), Frame(rs[0]);
    assert data[15] == frame[7];
    LowByte(rs[0].height);
    assert frame[7] == BigEndian(ToUint64(rs[0].height), 8)[7];
  }

  lemma LowByte(n: nat)
    requires n < 256
    ensures BigEndian(n, 8)[7] == n
  {
  }

  lemma DescribedIsValid(rs: seq<Record>, key: string)
    requires Accepts(rs) && ValidKey(key) && rs[|rs| - 1].height < MAX_INT64
    ensures ValidSegment(Described(rs, key))
  {
    hide AcceptsTo, ValidKey;
    EnvIsGood();
    EncodedIsValid(DemoEnv(), rs, Plain, key, Data(rs), Described(rs, key));
  }

  lemma NamesAreValid()
    ensures ValidChainID("demo") && ValidKey("s1") && ValidKey("s3")
  {
    hide ValidKey, ValidChainID;
    PlainName("demo");
    PlainName("s1");
    PlainName("s3");
  }

  // ---------------------------------------------------------------- the site

  ghost function M1(): Manifest { Manifest(VERSION, "demo", 1, 2, [S1()]) }

  ghost function M2(): Manifest { Manifest(VERSION, "demo", 1, 3, [S1(), S3()]) }

  function Huge(): (d: Bytes)
    ensures |d| > MAX_READ
  {
    seq(MAX_READ + 1, i => 0)
  }

  ghost function Render(m: Manifest): Bytes { if m == M1() then [1] else if m == M2() then [2] else Huge() }

  ghost function Parse(d: Bytes): Option<Manifest> { if d == [1] then Some(M1()) else if d == [2] then Some(M2()) else None }

  /** A site that can save these two manifests and nothing else. */
  ghost function DemoSite(): Site {
    Site(DemoEnv(), "m", "t", "l", (chain, s: Segment) => if s.first == 1 then "s1" else "s3",
         m => Render(m), d => Parse(d), (st: MigrationState) => Huge(), (d: Bytes) => None)
  }

  lemma SiteIsGood()
    ensures GoodSite(DemoSite())
  {
    hide GoodEnv, M1, M2, Huge;
    EnvIsGood();
    var site := DemoSite();
    assert M1() != M2() by { TwoManifests(); }
    assert "s1" != "m" && "s1" != "t" && "s1" != "l" && "s3" != "m" && "s3" != "t" && "s3" != "l" && "m" != "t" && "m" != "l";
  }

  lemma TwoManifests()
    ensures M1() != M2() && Render(M1()) == [1] && Render(M2()) == [2] && M1().chainID == "demo"
  {
    assert M1().last == 2 && M2().last == 3;
  }

  lemma SegmentsAreValid()
    ensures ValidSegment(S1()) && S1().first == 1 && S1().last == 2 && S1().key == "s1"
    ensures ValidSegment(S3()) && S3().first == S3().last == 3 && S3().key == "s3"
  {
    hide ValidSegment, ValidKey;
    NamesAreValid();
    OldIsAccepted();
    NewIsAccepted();
    DescribedIsValid(Old(), "s1");
    DescribedIsValid(New(), "s3");
  }

  lemma PairIsValid(a: Segment, b: Segment)
    requires ValidSegment(a) && a.first == 1 && a.last == 2 && ValidSegment(b) && b.first == b.last == 3 && a.key != b.key && ValidChainID("demo")
    ensures var m, g := Manifest(VERSION, "demo", 1, 2, [a]), Manifest(VERSION, "demo", 1, 3, [a, b]);
            && ValidManifest(m) && ValidManifest(g)
            && Append(EmptyManifest("demo"), a) == Some(m) && Append(m, b) == Some(g)
  {
    hide ValidSegment, ValidChainID;
    assert [a] + [b] == [a, b];
  }

  lemma ManifestsAreValid()
    ensures ValidManifest(M1()) && ValidManifest(M2())
    ensures Append(EmptyManifest("demo"), S1()) == Some(M1()) && Append(M1(), S3()) == Some(M2())
  {
    hide S1, S3, ValidSegment, ValidChainID, Append, ValidManifest;
    NamesAreValid();
    SegmentsAreValid();
    assert "s1"[1] != "s3"[1];
    PairIsValid(S1(), S3());
  }

  lemma Sizes()
    ensures |Data(Old())| <= MAX_READ && |Data(New())| <= MAX_READ
  {
    OldIsAccepted();
    NewIsAccepted();
    hide Accepts, Payload;
    EncodedFitsDecoder(Old());
    EncodedFitsDecoder(New());
  }

  lemma Digests()
    ensures Sha(Data(Old())) == K.Hex('1') && Sha(Data(New())) == K.Hex('3') && Sha([1]) == K.Hex('4') && Sha([2]) == K.Hex('5')
  {
    RecordsAreGood(1);
    RecordsAreGood(3);
    DataShowsHeight(Old());
    DataShowsHeight(New());
    hide Data, K.Hex;
  }

  lemma Apart(sha: Bytes -> string, a: Bytes, b: Bytes, c: Bytes, d: Bytes)
    requires sha(a) != sha(b) && sha(a) != sha(c) && sha(a) != sha(d) && sha(b) != sha(c) && sha(b) != sha(d) && sha(c) != sha(d)
    ensures CollisionFree(sha, {a, b, c, d})
  {
  }

  lemma NoCollisions()
    ensures CollisionFree(Sha, {Data(Old()), Data(New()), [1], [2]})
  {
    Digests();
    Different('1', '3'); Different('1', '4'); Different('1', '5'); Different('3', '4'); Different('3', '5'); Different('4', '5');
    hide Data, K.Hex, Sha, CollisionFree;
    Apart(Sha, Data(Old()), Data(New()), [1], [2]);
  }

  // ---------------------------------------------------------------- publishing heights 1 and 2

  lemma BlocksToRecords()
    ensures BlockToRecord(DemoEnv(), X1()) == Some(R(1)) && BlockToRecord(DemoEnv(), X2()) == Some(R(2)) && BlockToRecord(DemoEnv(), Y(3)) == Some(R(3))
  {
    BlocksDiffer();
    hide K.Hex;
  }

  lemma AsRecords()
    ensures RecordsOf(DemoEnv(), [X1(), X2()]) == Some(Old()) && RecordsOf(DemoEnv(), [Y(3)]) == Some(New())
  {
    hide X1, X2, Y, R, BlockToRecord, DemoEnv, RecordsOf;
    BlocksToRecords();
    TwoRecords(DemoEnv(), X1(), X2());
    TwoRecords(DemoEnv(), Y(3), Y(3));
  }

  lemma TwoRecords(env: Env, a: Block, b: Block)
    requires BlockToRecord(env, a).Some? && BlockToRecord(env, b).Some?
    ensures RecordsOf(env, [a]) == Some([BlockToRecord(env, a).value])
    ensures RecordsOf(env, [a, b]) == Some([BlockToRecord(env, a).value, BlockToRecord(env, b).value])
  {
    hide BlockToRecord;
    OneMoreRecord(env, [], a);
    OneMoreRecord(env, [a], b);
    var x, y := BlockToRecord(env, a).value, BlockToRecord(env, b).value;
    assert [] + [a] == [a] && [a] + [b] == [a, b] && [] + [x] == [x] && [x] + [y] == [x, y];
  }

  lemma BuildsAs(site: Site, chain: string, bs: seq<Block>, rs: seq<Record>, s: Segment)
    requires (forall b :: b in bs ==> b.header.chainID == chain) && RecordsOf(site.env, bs) == Some(rs) && Accepts(rs)
    requires s == EncodedSegment(site.env, rs, Plain).(key := s.key) && s.key == site.segmentKey(chain, EncodedSegment(site.env, rs, Plain))
    ensures BuildSegment(site, chain, bs, Plain) == Some((s, EncodedData(site.env, rs, Plain)))
  {
    hide RecordsOf, Accepts, EncodedData, EncodedSegment;
  }

  lemma Builds()
    ensures BuildSegment(DemoSite(), "demo", [X1(), X2()], Plain) == Some((S1(), Data(Old())))
    ensures BuildSegment(DemoSite(), "demo", [Y(3)], Plain) == Some((S3(), Data(New())))
  {
    AsRecords();
    OldIsAccepted();
    NewIsAccepted();
    hide Accepts, K.Hex, EncodedData, RecordsOf, BuildSegment;
    BuildsAs(DemoSite(), "demo", [X1(), X2()], Old(), S1());
    BuildsAs(DemoSite(), "demo", [Y(3)], New(), S3());
  }

  lemma OneMoreRecord(env: Env, bs: seq<Block>, b: Block)
    requires RecordsOf(env, bs).Some? && BlockToRecord(env, b).Some?
    ensures RecordsOf(env, bs + [b]) == Some(RecordsOf(env, bs).value + [BlockToRecord(env, b).value])
  {
    hide BlockToRecord;
    assert (bs + [b])[..|bs|] == bs;
  }

  /** One archiver's way from an idle state to the next published manifest. */
  function Publishing(id: int, bs: seq<Block>, data: Bytes): seq<Event> { [Build(id, bs, Plain), Upload(id, data), Confirm(id), Publish(id)] }

  lemma Publishes(site: Site, w: World, id: int, chain: string, m: Manifest, revision: string, s: Segment, data: Bytes, bs: seq<Block>, g: Manifest) returns (ws: seq<World>)
    requires id in w.writers && w.writers[id] == Live(chain, m, revision, Idle) && BuildSegment(site, chain, bs, Plain) == Some((s, data))
    requires s.key !in w.objects && s.key != site.manifestKey && |data| <= MAX_READ && |data| == s.size && site.env.sha(data) == s.sha
    requires Append(m, s) == Some(g) && ValidManifest(g) && |site.render(g)| <= MAX_READ
    requires Swap(site.env.sha, w.objects, site.manifestKey, site.render(g), revision).Some?
    ensures Run(site, ws, Publishing(id, bs, data)) && |ws| == 5 && ws[0] == w
    ensures ws[4] == Extended(site, w, id, chain, s, data, bs, g)
  {
    hide BuildSegment, Apply, Append, ValidManifest;
    var built := AfterBuild(w, id, w.writers[id], s, data, bs);
    var up := AfterUpload(built, s.key, data);
    var ok := SetWriter(up, id, Live(chain, m, revision, Confirmed(s)));
    var out := AfterPublish(site, ok, id, ok.writers[id]);
    ws := [w, built, up, ok, out];
    A.BuildStep(site, w, id, bs, Plain);
    A.UploadStep(site, built, id, data);
    A.ConfirmStep(site, up, id);
    A.PublishStep(site, ok, id);
    assert Get(ok.objects, site.manifestKey) == Get(w.objects, site.manifestKey);
    assert out.bytes == w.bytes + {data, site.render(g)};
    assert out.writers == w.writers[id := Live(chain, g, site.env.sha(site.render(g)), Idle)];
    RunsFour(site, ws, Publishing(id, bs, data));
  }

  /** The world after that. */
  function Extended(site: Site, w: World, id: int, chain: string, s: Segment, data: Bytes, bs: seq<Block>, g: Manifest): World {
    World(w.objects[s.key := data][site.manifestKey := site.render(g)], w.writers[id := Live(chain, g, site.env.sha(site.render(g)), Idle)],
          w.history + [g], w.built + {(s, bs)}, w.bytes + {data, site.render(g)})
  }

  lemma RunsFour(site: Site, ws: seq<World>, es: seq<Event>)
    requires |ws| == 5 && |es| == 4
    requires Apply(site, ws[0], es[0]) == Some(ws[1]) && Apply(site, ws[1], es[1]) == Some(ws[2])
    requires Apply(site, ws[2], es[2]) == Some(ws[3]) && Apply(site, ws[3], es[3]) == Some(ws[4])
    ensures Run(site, ws, es)
  {
    hide Apply;
  }

  lemma SegmentSums()
    ensures |Data(Old())| == S1().size && Sha(Data(Old())) == S1().sha && |Data(New())| == S3().size && Sha(Data(New())) == S3().sha
  {
  }

  /** An archiver joins the empty site, publishes heights 1 and 2, and leaves. */
  const FIRST: int := 7

  lemma JoinsAndPublishes(s: Segment, data: Bytes, bs: seq<Block>, g: Manifest) returns (ws: seq<World>, es: seq<Event>)
    requires BuildSegment(DemoSite(), "demo", bs, Plain) == Some((s, data)) && s.key != "m" && |data| <= MAX_READ && |data| == s.size && Sha(data) == s.sha
    requires Append(EmptyManifest("demo"), s) == Some(g) && ValidManifest(g) && |Render(g)| <= MAX_READ && ValidChainID("demo")
    ensures Run(DemoSite(), ws, es) && ws[0] == EmptyWorld() && |ws| == 7
    ensures ws[6].objects == map[s.key := data, "m" := Render(g)] && ws[6].history == [g] && ws[6].built == {(s, bs)}
    ensures ws[6].bytes == {data, Render(g)} && forall id :: id !in ws[6].writers
  {
    var site, w, m := DemoSite(), SetWriter(EmptyWorld(), FIRST, Live("demo", EmptyManifest("demo"), "", Idle)), EmptyManifest("demo");
    hide BuildSegment, ValidManifest, Run, Apply, ValidChainID, Append, Sha, Render;
    A.StartLiveStep(site, EmptyWorld(), FIRST, "demo", m, "");
    var mid := Publishes(site, w, FIRST, "demo", m, "", s, data, bs, g);
    A.CrashStep(site, mid[4], FIRST);
    var acts := Publishing(FIRST, bs, data);
    ws, es := [EmptyWorld()] + mid + [DropWriter(mid[4], FIRST)], [StartLive(FIRST, "demo")] + acts + [Crash(FIRST)];
    assert ws[1..6] == mid && es[1..5] == acts;
    RunsAround(site, ws, es, mid, acts);
  }

  lemma FirstPublishes() returns (ws: seq<World>, es: seq<Event>)
    ensures Run(DemoSite(), ws, es) && ws[0] == EmptyWorld() && |ws| == 7
    ensures ws[6].objects == map["s1" := Data(Old()), "m" := [1]] && ws[6].history == [M1()] && ws[6].built == {(S1(), [X1(), X2()])}
    ensures ws[6].bytes == {Data(Old()), [1]} && forall id :: id !in ws[6].writers
  {
    Builds();
    Sizes();
    SegmentSums();
    SegmentsAreValid();
    ManifestsAreValid();
    NamesAreValid();
    hide BuildSegment, S1, S3, Data, ValidSegment, ValidManifest, Run, M1, M2, ValidChainID, Append, Sha;
    ws, es := JoinsAndPublishes(S1(), Data(Old()), [X1(), X2()], M1());
  }

  lemma RunsAround(site: Site, ws: seq<World>, es: seq<Event>, mid: seq<World>, acts: seq<Event>)
    requires Run(site, mid, acts) && |ws| == |mid| + 2 && |es| == |acts| + 2 && ws[1..|mid| + 1] == mid && es[1..|acts| + 1] == acts
    requires Apply(site, ws[0], es[0]) == Some(ws[1]) && Apply(site, ws[|mid|], es[|mid|]) == Some(ws[|mid| + 1])
    ensures Run(site, ws, es)
  {
    hide Apply;
    forall i | 0 <= i < |es| ensures Apply(site, ws[i], es[i]) == Some(ws[i + 1]) {
      if 0 < i <= |acts| {
        assert es[i] == acts[i - 1] && ws[i] == mid[i - 1] && ws[i + 1] == mid[i];
      }
    }
  }

  // ---------------------------------------------------------------- the node

  function Opts(): I.Options { I.Options("demo", 1, 0, I.StorageOnly, map[], map[], None) }

  /** Persisted by the time block `h` is pending. */
  function Held(h: int): seq<Block> { if h <= 2 then [X1()] else Held(h - 1) + [Y(h - 1)] }

  function PersistedBy(h: int): map<int, Block> { if h <= 2 then map[1 := X1()] else PersistedBy(h - 1)[h - 1 := Y(h - 1)] }

  function Fresh(w: World): Node { Node(Opts(), I.State(Store(1, [X1()]), None, 0), w, None, map[1 := X1()]) }

  function Ingested(w: World, h: int): Node { Node(Opts(), I.State(Store(1, Held(h)), Some(Y(h)), 0), w, None, PersistedBy(h)) }

  lemma HashOfY(h: int)
    requires 2 <= h <= 5
    ensures Hash(Crypt(), Y(h)) == K.Hex(if h == 2 then 'c' else if h == 3 then 'd' else if h == 4 then 'e' else 'f') && |Hash(Crypt(), Y(h))| == 64
  {
  }

  lemma Passes(h: int)
    requires 2 <= h <= 5
    ensures I.Validate(Crypt(), Opts(), Y(h)).None?
    ensures h > 2 ==> I.Commits(Crypt(), Opts(), Y(h - 1), Y(h)).None?
  {
    HashOfY(h);
    if h > 2 { HashOfY(h - 1); }
    hide K.Hex;
  }

  lemma FirstArrival(w: World)
    ensures Step(DemoSite(), Crypt(), Fresh(w), Arrive(Some(Y(2))), Ingested(w, 2))
  {
    Passes(2);
    BlocksDiffer();
    hide K.Hex, I.Validate;
  }

  lemma LaterArrival(w: World, h: int)
    requires 3 <= h <= 5
    ensures Step(DemoSite(), Crypt(), Ingested(w, h - 1), Arrive(Some(Y(h))), Ingested(w, h))
  {
    Passes(h);
    hide K.Hex, I.Validate, I.Commits, Held;
    assert Held(h) == Held(h - 1) + [Y(h - 1)] && Held(h - 1) != [] by { Later(h); }
  }

  lemma Later(h: int)
    requires 3 <= h <= 5
    ensures Held(h) == Held(h - 1) + [Y(h - 1)] && Held(h - 1) != []
  {
  }

  // ---------------------------------------------------------------- the start

  /** The archive of heights 1 and 2, as published. */
  ghost predicate Archives12(w: World) {
    && w.objects == map["s1" := Data(Old()), "m" := [1]] && w.history == [M1()] && w.built == {(S1(), [X1(), X2()])}
    && w.bytes == {Data(Old()), [1]} && (forall id :: id !in w.writers) && Inv(DemoSite(), w)
  }

  lemma TwoOfFour(w: World)
    requires w.bytes == {Data(Old()), [1]}
    ensures CollisionFree(DemoSite().env.sha, w.bytes)
  {
    NoCollisions();
    hide Data, Sha;
    FewerCollide(Sha, w.bytes, {Data(Old()), Data(New()), [1], [2]});
  }

  lemma ArchiveIsPublished() returns (ws: seq<World>, es: seq<Event>)
    ensures Run(DemoSite(), ws, es) && ws[0] == EmptyWorld() && Archives12(ws[|es|])
  {
    ws, es := FirstPublishes();
    SiteIsGood();
    hide GoodSite, Inv, CollisionFree, Data, S1, M1, Apply;
    EmptyIsGood(DemoSite());
    TwoOfFour(ws[6]);
    RunKeepsInv(DemoSite(), ws, es, 6);
  }

  /** A height of the first segment reads as the block it was built from. */
  lemma FirstSegmentReads(site: Site, w: World, s: Segment, bs: seq<Block>, h: int)
    requires GoodSite(site) && SharedOk(site, w) && CollisionFree(site.env.sha, w.bytes)
    requires Latest(w).Some? && Latest(w).value.segments != [] && Latest(w).value.segments[0] == s && (s, bs) in w.built && s.first <= h <= s.last
    ensures h - s.first < |bs| && Reading(site, w, h) == Some(bs[h - s.first])
  {
    hide GoodSite, SharedOk, CollisionFree, ReadArchive, PublishedOk, ValidManifest;
    LatestIsOk(site, w);
    KeptReads(site, w, Latest(w).value, h, 0, bs);
  }

  lemma Answers(w: World)
    requires GoodSite(DemoSite()) && SharedOk(DemoSite(), w) && CollisionFree(DemoSite().env.sha, w.bytes)
    requires Latest(w).Some? && Latest(w).value.segments != [] && Latest(w).value.segments[0] == S1() && (S1(), [X1(), X2()]) in w.built
    ensures Reading(DemoSite(), w, 1) == Some(X1()) && Reading(DemoSite(), w, 2) == Some(X2())
  {
    SegmentsAreValid();
    hide GoodSite, SharedOk, CollisionFree, S1, ValidSegment, Reading;
    FirstSegmentReads(DemoSite(), w, S1(), [X1(), X2()], 1);
    FirstSegmentReads(DemoSite(), w, S1(), [X1(), X2()], 2);
  }

  lemma TwoAreLinked(site: Site, c: Crypto, w: World, a: Block, b: Block)
    requires forall h :: Archived(w, h) ==> h == 1 || h == 2
    requires Reading(site, w, 1) == Some(a) && Reading(site, w, 2) == Some(b) && Linked(c, a, b) && Hash(c, a) != "" && Hash(c, b) != ""
    ensures LinkedArchive(site, c, w)
  {
    hide Archived, Reading, Linked, Hash;
  }

  lemma ArchiveIsLinked(w: World)
    requires Archives12(w)
    ensures LinkedArchive(DemoSite(), Crypt(), w)
  {
    hide GoodSite, Inv, SharedOk, CollisionFree, S1, Data, Reading, Linked, Hash, X1, X2, LinkedArchive, DemoSite;
    SiteIsGood();
    TwoOfFour(w);
    InvShares(w);
    assert Latest(w) == Some(M1()) && M1().segments == [S1()];
    Answers(w);
    BlocksLink();
    TwoAreLinked(DemoSite(), Crypt(), w, X1(), X2());
  }

  lemma InvShares(w: World)
    requires Inv(DemoSite(), w)
    ensures SharedOk(DemoSite(), w)
  {
  }

  lemma BlocksLink()
    ensures Linked(Crypt(), X1(), X2()) && Hash(Crypt(), X1()) != "" && Hash(Crypt(), X2()) != ""
  {
    BlocksDiffer();
    assert |K.Hex('a')| == |K.Hex('b')| == 64;
  }

  lemma NodeStarts(w: World)
    requires Archives12(w)
    ensures StartsIdle(DemoSite(), Crypt(), Fresh(w))
  {
    BlocksLink();
    hide Inv, S1, Data, M1, K.Hex;
  }

  // ---------------------------------------------------------------- the run

  lemma Joins(site: Site, c: Crypto, ns: seq<Node>, acts: seq<Action>, ms: seq<Node>, bcts: seq<Action>)
    requires NodeRun(site, c, ns, acts) && NodeRun(site, c, ms, bcts) && ns[|acts|] == ms[0]
    ensures NodeRun(site, c, ns + ms[1..], acts + bcts)
  {
    hide Step;
    var all, steps := ns + ms[1..], acts + bcts;
    forall i | 0 <= i < |steps| ensures Step(site, c, all[i], steps[i], all[i + 1]) {
      if i >= |acts| {
        assert all[i] == ms[i - |acts|] && all[i + 1] == ms[i - |acts| + 1];
      }
    }
  }

  lemma Arrivals(w: World) returns (ns: seq<Node>, acts: seq<Action>)
    ensures NodeRun(DemoSite(), Crypt(), ns, acts) && ns[0] == Fresh(w) && ns[|acts|] == Ingested(w, 5)
  {
    hide Step, Ingested, Fresh, Y;
    FirstArrival(w);
    LaterArrival(w, 3);
    LaterArrival(w, 4);
    LaterArrival(w, 5);
    ns := [Fresh(w), Ingested(w, 2), Ingested(w, 3), Ingested(w, 4), Ingested(w, 5)];
    acts := [Arrive(Some(Y(2))), Arrive(Some(Y(3))), Arrive(Some(Y(4))), Arrive(Some(Y(5)))];
  }

  /** The node's own archiver at work is a run of the node. */
  lemma ArchiverRuns(site: Site, c: Crypto, n: Node, ws: seq<World>, es: seq<Event>) returns (ns: seq<Node>, acts: seq<Action>)
    requires Run(site, ws, es) && ws[0] == n.world
    requires forall e :: e in es ==> e.id == NODE && !e.StartMigration? && (e.StartLive? ==> e.chainID == n.o.chainID) && (e.Build? ==> FromHot(n, e.blocks))
    ensures NodeRun(site, c, ns, acts) && ns[0] == n && ns[|acts|] == n.(world := ws[|es|])
  {
    hide Apply, FromHot;
    ns, acts := seq(|ws|, i requires 0 <= i < |ws| => n.(world := ws[i])), seq(|es|, i requires 0 <= i < |es| => Archive(es[i]));
    forall i | 0 <= i < |acts| ensures Step(site, c, ns[i], acts[i], ns[i + 1]) {
      assert es[i] in es;
      assert es[i].Build? ==> FromHot(ns[i], es[i].blocks) by { SameHot(n, ns[i]); }
    }
  }

  lemma SameHot(n: Node, t: Node)
    requires t.hot == n.hot && t.o == n.o
    ensures forall bs :: FromHot(n, bs) ==> FromHot(t, bs)
  {
  }

  /** The archive of heights 1 to 3. */
  ghost predicate Archives123(w: World) {
    && Latest(w) == Some(M2()) && (S1(), [X1(), X2()]) in w.built
    && w.bytes == {Data(Old()), Data(New()), [1], [2]} && Inv(DemoSite(), w)
  }

  lemma LoadsFirst(w: World)
    requires Archives12(w)
    ensures LoadManifest(DemoSite(), w.objects) == Found(M1(), Sha([1]))
  {
    ManifestsAreValid();
    hide Inv, S1, Data, M1, M2, Sha, ValidManifest, Append;
  }

  lemma RunsAfter(site: Site, w: World, e: Event, ws: seq<World>, es: seq<Event>)
    requires Run(site, ws, es) && Apply(site, w, e) == Some(ws[0])
    ensures Run(site, [w] + ws, [e] + es)
  {
    hide Apply;
    var all, steps := [w] + ws, [e] + es;
    forall i | 0 <= i < |steps| ensures Apply(site, all[i], steps[i]) == Some(all[i + 1]) {
      if i > 0 { assert steps[i] == es[i - 1] && all[i] == ws[i - 1] && all[i + 1] == ws[i]; }
    }
  }

  lemma LoadedSwaps(site: Site, objects: Objects, data: Bytes)
    ensures var m := LoadManifest(site, objects); m.Found? ==> Swap(site.env.sha, objects, site.manifestKey, data, m.revision).Some?
  {
  }

  lemma JoinsAndExtends(site: Site, w: World, id: int, chain: string, m: Manifest, revision: string, s: Segment, data: Bytes, bs: seq<Block>, g: Manifest)
    returns (ws: seq<World>, es: seq<Event>)
    requires id !in w.writers && LoadManifest(site, w.objects) == Found(m, revision) && m.chainID == chain
    requires BuildSegment(site, chain, bs, Plain) == Some((s, data)) && s.key !in w.objects && s.key != site.manifestKey
    requires |data| <= MAX_READ && |data| == s.size && site.env.sha(data) == s.sha
    requires Append(m, s) == Some(g) && ValidManifest(g) && |site.render(g)| <= MAX_READ
    ensures Run(site, ws, es) && ws[0] == w && es == [StartLive(id, chain)] + Publishing(id, bs, data)
    ensures ws[5].history == w.history + [g] && ws[5].built == w.built + {(s, bs)} && ws[5].bytes == w.bytes + {data, site.render(g)}
  {
    hide BuildSegment, Run, Apply, ValidManifest, Append, LoadManifest, Swap;
    LoadedSwaps(site, w.objects, site.render(g));
    var joined := SetWriter(w, id, Live(chain, m, revision, Idle));
    A.StartLiveStep(site, w, id, chain, m, revision);
    var mid := Publishes(site, joined, id, chain, m, revision, s, data, bs, g);
    RunsAfter(site, w, StartLive(id, chain), mid, Publishing(id, bs, data));
    ws, es := [w] + mid, [StartLive(id, chain)] + Publishing(id, bs, data);
  }

  lemma NodePublishes(w: World) returns (ws: seq<World>, es: seq<Event>)
    requires Archives12(w)
    ensures Run(DemoSite(), ws, es) && ws[0] == w && es == [StartLive(NODE, "demo")] + Publishing(NODE, [Y(3)], Data(New()))
    ensures Latest(ws[5]) == Some(M2()) && (S1(), [X1(), X2()]) in ws[5].built
    ensures ws[5].bytes == {Data(Old()), Data(New()), [1], [2]}
  {
    hide Inv, BuildSegment, S1, S3, Data, ValidSegment, ValidManifest, Run, M1, M2, Append, Sha, LoadManifest, Y, X1, X2, Render;
    LoadsFirst(w);
    Builds();
    Sizes();
    SegmentSums();
    SegmentsAreValid();
    ManifestsAreValid();
    TwoManifests();
    assert S3().key !in w.objects by { assert "s3" != "s1" && "s3" != "m"; }
    ws, es := JoinsAndExtends(DemoSite(), w, NODE, "demo", M1(), Sha([1]), S3(), Data(New()), [Y(3)], M2());
  }

  lemma HotHas()
    ensures Held(5) == [X1(), Y(2), Y(3), Y(4)] && 1 in PersistedBy(5) && PersistedBy(5)[1] == X1() && 2 in PersistedBy(5) && PersistedBy(5)[2] == Y(2)
  {
    hide X1, Y;
    assert Held(3) == [X1(), Y(2)] && Held(4) == [X1(), Y(2), Y(3)];
    assert PersistedBy(3)[2] == Y(2) && PersistedBy(4)[2] == Y(2) && PersistedBy(3)[1] == PersistedBy(4)[1] == X1();
  }

  /** Whatever is published in a good world verifies, so a snapshot can be taken. */
  lemma SnapshotStep(site: Site, c: Crypto, n: Node)
    requires GoodSite(site) && Inv(site, n.world) && CollisionFree(site.env.sha, n.world.bytes) && Latest(n.world).Some?
    ensures Step(site, c, n, TakeSnapshot, n.(snapshot := Latest(n.world)))
  {
    hide GoodSite, SharedOk, CollisionFree, LoadManifest, Verifies, ValidManifest;
    LoadedIsLatest(site, n.world);
    LatestIsOk(site, n.world);
    var m := Latest(n.world).value;
    forall s | s in m.segments ensures Verifies(site.env, n.world.objects, s) {
      var i :| 0 <= i < |m.segments| && m.segments[i] == s;
      PublishedSegment(site, n.world, m, i);
      KeptVerifies(site, n.world, s);
    }
  }

  /** The archiver's way as steps of the node that has ingested up to height 4. */
  lemma NodeArchives(w: World) returns (ns: seq<Node>, acts: seq<Action>, v: World)
    requires Archives12(w)
    ensures NodeRun(DemoSite(), Crypt(), ns, acts) && ns[0] == Ingested(w, 5) && ns[|acts|] == Ingested(v, 5)
    ensures Archives123(v)
  {
    hide Inv, Run, S1, Data, M1, M2, GoodSite, CollisionFree, Sha, X1, Y, Held, PersistedBy, FromHot, DemoSite, Crypt;
    var ws, es := NodePublishes(w);
    HotOffersY3(w);
    assert es == [StartLive(NODE, "demo"), Build(NODE, [Y(3)], Plain), Upload(NODE, Data(New())), Confirm(NODE), Publish(NODE)];
    ns, acts := ArchiverRuns(DemoSite(), Crypt(), Ingested(w, 5), ws, es);
    assert |ws| == 6 by { RunLength(DemoSite(), ws, es); }
    v := ws[5];
    EndIsGood(ws, es);
  }

  lemma RunLength(site: Site, ws: seq<World>, es: seq<Event>)
    requires Run(site, ws, es)
    ensures |ws| == |es| + 1
  {
  }

  lemma EndIsGood(ws: seq<World>, es: seq<Event>)
    requires Run(DemoSite(), ws, es) && |ws| == 6 && Inv(DemoSite(), ws[0]) && ws[5].bytes == {Data(Old()), Data(New()), [1], [2]}
    ensures Inv(DemoSite(), ws[5])
  {
    hide Inv, Run, Data, GoodSite, CollisionFree, Sha;
    SiteIsGood();
    NoCollisions();
    RunKeepsInv(DemoSite(), ws, es, 5);
  }

  lemma HotOffersY3(w: World)
    ensures FromHot(Ingested(w, 5), [Y(3)])
  {
    HotHas();
    hide Held, X1, PersistedBy, K.Hex;
    assert Store(1, Held(5)).Load(3) == Some(Y(3));
  }

  lemma BoundaryHolds(env: Env, st: Store, m: Manifest, h: int, s: Segment)
    requires st.Has(st.Height()) && st.Load(st.Height()).value.header.chainID == m.chainID && m.first <= h <= m.last && st.Has(h)
    requires Lookup(m.segments, h) == Some(s) && 0 <= h - s.first < |s.blocks| && env.blockHash(st.Load(h).value) == s.blocks[h - s.first].hash
    ensures BoundaryMatches(env, st, m, h)
  {
    hide Lookup;
  }

  /** Block 3 carries the hash that the archive has for it, and so the prune goes through. */
  lemma PruneGoesThrough()
    ensures Pruned(DemoEnv(), Store(1, Held(5)), M2(), 1) == Some(Store(4, [Y(4)]))
  {
    var st, m := Store(1, Held(5)), M2();
    hide S1, S3, K.Hex, Held, Lookup, BoundaryMatches, X1, DemoEnv;
    HotHas();
    LooksUp();
    BoundaryHolds(DemoEnv(), st, m, 3, S3());
    assert st.blocks[3..] == [Y(4)];
  }

  lemma LooksUp()
    ensures Lookup(M2().segments, 3) == Some(S3()) && S3().first == 3 && |S3().blocks| == 1 && S3().blocks[0].hash == DemoEnv().blockHash(Y(3))
  {
    BlocksDiffer();
    assert S3().blocks[0].hash == K.Hex('d') && S3().first == S3().last == 3;
    LastIsFound([S1()], S3(), 3);
    assert [S1()] + [S3()] == M2().segments;
  }

  lemma LastIsFound(segs: seq<Segment>, s: Segment, h: int)
    requires Covers(s, h)
    ensures Lookup(segs + [s], h) == Some(s)
  {
  }

  lemma Ending(v: World) returns (ns: seq<Node>, acts: seq<Action>)
    requires Archives123(v)
    ensures NodeRun(DemoSite(), Crypt(), ns, acts) && ns[0] == Ingested(v, 5)
    ensures ns[|acts|] == Ingested(v, 5).(hot := I.State(Store(4, [Y(4)]), Some(Y(5)), 0))
  {
    hide Inv, GoodSite, CollisionFree, S1, Data, M2, Held, PersistedBy, Y, Pruned, Sha;
    SiteIsGood();
    NoCollisions();
    PruneGoesThrough();
    var n := Ingested(v, 5);
    SnapshotStep(DemoSite(), Crypt(), n);
    var m, t := n.(snapshot := Some(M2())), n.(hot := I.State(Store(4, [Y(4)]), Some(Y(5)), 0));
    assert Step(DemoSite(), Crypt(), m, PruneHot(1), t);
    ns, acts := [n, m, t], [TakeSnapshot, PruneHot(1)];
  }

  /** Block 2 as persisted is neither hot nor archived. */
  lemma BlockTwoIsGone(v: World, n: Node, whole: bool)
    requires Archives123(v) && n == Ingested(v, 5).(hot := I.State(Store(4, [Y(4)]), Some(Y(5)), 0))
    ensures 2 in n.persisted && n.persisted[2] == Y(2) && !Available(DemoSite(), n, 2, whole)
  {
    hide GoodSite, SharedOk, CollisionFree, S1, Data, Reading, K.Hex, PersistedBy, Held;
    HotHas();
    SiteIsGood();
    NoCollisions();
    assert Latest(v).value.segments == [S1(), S3()];
    Answers(v);
    BlocksDiffer();
  }

  /** Ingestion from nothing persists `st` once it has taken `a` and `b`. */
  ghost predicate IngestsAs(c: Crypto, o: I.Options, a: Block, b: Block, st: Store) {
    var first := I.Submit(c, o, I.State(EmptyStore(), None, 0), Some(a));
    first.Ok? && I.Submit(c, o, first.value, Some(b)).Ok? && I.Submit(c, o, first.value, Some(b)).value.store == st
  }

  lemma StartIsIngested()
    ensures I.Startable(Crypt(), Opts()) && IngestsAs(Crypt(), Opts(), X1(), X2(), Store(1, [X1()]))
  {
    BlocksLink();
    BlocksDiffer();
    hide K.Hex;
    assert [] + [X1()] == [X1()];
  }

  lemma ArchiveAnswers(w: World)
    requires Archives12(w)
    ensures Latest(w) == Some(M1()) && Reading(DemoSite(), w, 1) == Some(X1()) && Reading(DemoSite(), w, 2) == Some(X2())
  {
    hide GoodSite, SharedOk, CollisionFree, S1, Data, Reading, DemoSite;
    SiteIsGood();
    TwoOfFour(w);
    Answers(w);
  }

  lemma NothingIsForged(w: World, n: Node, whole: bool)
    requires Archives12(w) && n.persisted == PersistedBy(5)
    ensures NoForgery(DemoSite(), Crypt(), w, n, whole)
  {
    hide Inv, Data, S1, Reading, PersistedBy, Held, K.Hex, DemoSite;
    ArchiveAnswers(w);
    HotHas();
    HashOfY(2);
    BlocksDiffer();
    Different('b', 'c');
    assert forall h :: Archived(w, h) ==> h == 1 || h == 2;
  }

  /**
   A node can lose a block.  Its archive was published through the protocol, verifies, and is
   a linked chain; its hot store was ingested and agrees with the archive; but the archive is
   one height ahead.  The node ingests another block at that height, publishes the next one
   and prunes, and the block it had persisted is gone.
   */
  lemma AheadLosesABlock(whole: bool) returns (ws: seq<World>, es: seq<Event>, ns: seq<Node>, acts: seq<Action>)
    ensures GoodSite(DemoSite()) && HashesTell(Crypt(), DemoEnv())
    ensures Run(DemoSite(), ws, es) && ws[0] == EmptyWorld() && LinkedArchive(DemoSite(), Crypt(), ws[|es|])
    ensures Reading(DemoSite(), ws[|es|], 1) == Some(X1()) && Reading(DemoSite(), ws[|es|], 2) == Some(X2())
    ensures I.Startable(Crypt(), Opts()) && IngestsAs(Crypt(), Opts(), X1(), X2(), Store(1, [X1()]))
    ensures NodeRun(DemoSite(), Crypt(), ns, acts) && ns[0] == Fresh(ws[|es|]) && StartsIdle(DemoSite(), Crypt(), ns[0])
    ensures CollisionFree(Sha, ns[|acts|].world.bytes) && NoForgery(DemoSite(), Crypt(), ws[|es|], ns[|acts|], whole)
    ensures !NothingLost(DemoSite(), ns[|acts|], whole)
  {
    hide Archives12, Archives123, GoodSite, HashesTell, LinkedArchive, Step, StartsIdle, Available, Run, Sha, Y, Held, PersistedBy, X1, X2, IngestsAs, Reading, CollisionFree, DemoSite, DemoEnv, NoForgery, I.Startable;
    SiteIsGood();
    NamesTell();
    StartIsIngested();
    ws, es := ArchiveIsPublished();
    RunLength(DemoSite(), ws, es);
    var w := ws[|es|];
    ArchiveIsLinked(w);
    ArchiveAnswers(w);
    NodeStarts(w);
    var bs, b := Arrivals(w);
    var cs, c, v := NodeArchives(w);
    var ds, d := Ending(v);
    Joins(DemoSite(), Crypt(), bs, b, cs, c);
    Joins(DemoSite(), Crypt(), bs + cs[1..], b + c, ds, d);
    ns, acts := bs + cs[1..] + ds[1..], b + c + d;
    BlockTwoIsGone(v, ns[|acts|], whole);
    AllApart(v);
    NothingIsForged(w, ns[|acts|], whole);
  }

  lemma AllApart(v: World)
    requires Archives123(v)
    ensures CollisionFree(Sha, v.bytes)
  {
    hide CollisionFree, Sha, Data;
    NoCollisions();
  }
}
