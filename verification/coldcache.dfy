/**
 The cold read cache: decoded segments in a byte-bounded LRU list, one fetch per segment
 at a time, and at most four fetches in all.
 */
module ColdCaches {
  import opened Common
  import opened Manifests
  import opened Segments
  import opened ObjectStores
  import opened Chain
  import opened Publication
  import V = Verification

  const MAX_FETCHES: int := 4

  type Records = seq<Record>

  datatype Entry = Entry(key: string, records: Records, bytes: int)

  function RecordsSize(rs: Records): nat {
    if rs == [] then 0 else RecordsSize(rs[..|rs| - 1]) + |rs[|rs| - 1].bytes| + |rs[|rs| - 1].hash| + 64
  }

  function Size(key: string, rs: Records): nat { |key| + RecordsSize(rs) }

  function Sum(lru: seq<Entry>): int { if lru == [] then 0 else Sum(lru[..|lru| - 1]) + lru[|lru| - 1].bytes }

  lemma {:induction false} SumConcat(a: seq<Entry>, b: seq<Entry>)
    ensures Sum(a + b) == Sum(a) + Sum(b)
    decreases |b|
  {
    if b == [] {
      assert a + b == a;
    } else {
      assert (a + b)[..|a + b| - 1] == a + b[..|b| - 1];
      SumConcat(a, b[..|b| - 1]);
    }
  }

  ghost predicate Distinct(lru: seq<Entry>) { forall i, j :: 0 <= i < j < |lru| ==> lru[i].key != lru[j].key }

  /** The cache under the lock; a flight names the call that leads it. */
  datatype Cache = Cache(lru: seq<Entry>, segments: map<string, Entry>, bytes: int, flights: map<string, int>)

  /** List and map hold the same entries. */
  ghost predicate Matches(lru: seq<Entry>, segments: map<string, Entry>) {
    && (forall k :: k in segments ==> segments[k].key == k && segments[k] in lru)
    && (forall e :: e in lru ==> e.key in segments && segments[e.key] == e)
  }

  ghost predicate Sized(lru: seq<Entry>) { forall e :: e in lru ==> e.bytes == Size(e.key, e.records) }

  /** List and map in bijection, the byte count exact and within the limit, nothing both cached and in flight. */
  ghost predicate CacheOk(c: Cache, limit: int) {
    && Distinct(c.lru) && Matches(c.lru, c.segments) && Sized(c.lru)
    && c.bytes == Sum(c.lru) <= limit
    && (forall k :: k in c.flights ==> k !in c.segments)
  }

  function Position(lru: seq<Entry>, key: string): (i: nat)
    ensures i <= |lru| && (i < |lru| ==> lru[i].key == key)
    ensures forall k :: 0 <= k < i ==> lru[k].key != key
  {
    if lru == [] || lru[0].key == key then 0 else 1 + Position(lru[1..], key)
  }

  /** The list with the entry of `key` moved to the front. */
  function Touched(lru: seq<Entry>, key: string): seq<Entry> {
    var i := Position(lru, key);
    if i == |lru| then lru else [lru[i]] + lru[..i] + lru[i + 1..]
  }

  /** What is left after evicting from the back until `size` more bytes fit. */
  function Evicted(lru: seq<Entry>, size: int, limit: int): seq<Entry> {
    if lru == [] || Sum(lru) + size <= limit then lru else Evicted(lru[..|lru| - 1], size, limit)
  }

  /** Eviction keeps the longest run of most recently used entries that leaves room. */
  lemma {:induction false} EvictionIsExact(lru: seq<Entry>, size: int, limit: int)
    requires size <= limit && forall i :: 0 <= i < |lru| ==> lru[i].bytes >= 0
    ensures var kept := Evicted(lru, size, limit);
            && kept <= lru && Sum(kept) + size <= limit
            && (kept != lru ==> Sum(lru[..|kept| + 1]) + size > limit)
  {
    var n := |lru| - 1;
    if lru != [] && Sum(lru) + size > limit {
      EvictionIsExact(lru[..n], size, limit);
      var kept := Evicted(lru[..n], size, limit);
      if kept == lru[..n] { assert lru[..n + 1] == lru; } else { assert lru[..n][..|kept| + 1] == lru[..|kept| + 1]; }
    }
  }

  datatype Found = Hit(records: Records) | Join(leader: int) | Lead | Full

  /** The decision made under the lock when a call looks for `key`. */
  function Decide(c: Cache, key: string, taken: nat): Found {
    if key in c.segments then Hit(c.segments[key].records)
    else if key in c.flights then Join(c.flights[key])
    else if taken < MAX_FETCHES then Lead
    else Full
  }

  function AfterDecision(c: Cache, key: string, call: int, found: Found): Cache {
    if found.Hit? then c.(lru := Touched(c.lru, key))
    else if found.Lead? then c.(flights := c.flights[key := call])
    else c
  }

  function Keep(segments: map<string, Entry>, lru: seq<Entry>): map<string, Entry> {
    map k | k in segments && segments[k] in lru :: segments[k]
  }

  /** The fetch is over: the result is cached if it is good and not too large, and the flight ends. */
  function AfterFetch(c: Cache, key: string, result: Option<Records>, limit: int): Cache {
    var landed := c.(flights := c.flights - {key});
    if result.None? || Size(key, result.value) > limit then landed
    else
      var e := Entry(key, result.value, Size(key, result.value));
      var kept := Evicted(c.lru, e.bytes, limit);
      Cache([e] + kept, Keep(c.segments, kept)[key := e], Sum(kept) + e.bytes, c.flights - {key})
  }

  lemma DistinctMoved(a: seq<Entry>, e: Entry, b: seq<Entry>)
    requires Distinct(a + [e] + b)
    ensures Distinct([e] + a + b)
  {
    var s, t := a + [e] + b, [e] + a + b;
    forall i, j | 0 <= i < j < |t| ensures t[i].key != t[j].key {
      var x := if i == 0 then |a| else if i <= |a| then i - 1 else i;
      var y := if j <= |a| then j - 1 else j;
      assert t[i] == s[x] && t[j] == s[y] && x != y;
    }
  }

  lemma SumMoved(a: seq<Entry>, e: Entry, b: seq<Entry>)
    ensures Sum([e] + a + b) == Sum(a + [e] + b)
  {
    SumConcat(a + [e], b);
    SumConcat(a, [e]);
    SumConcat([e] + a, b);
    SumConcat([e], a);
  }

  lemma TouchMoves(lru: seq<Entry>, key: string) returns (a: seq<Entry>, e: Entry, b: seq<Entry>)
    requires exists x :: x in lru && x.key == key
    ensures lru == a + [e] + b && Touched(lru, key) == [e] + a + b && e.key == key
  {
    var i := Position(lru, key);
    var x :| x in lru && x.key == key;
    a, e, b := lru[..i], lru[i], lru[i + 1..];
  }

  /** A hit moves its entry to the front and changes nothing else. */
  lemma TouchKeepsCache(c: Cache, key: string, limit: int)
    requires CacheOk(c, limit) && key in c.segments
    ensures CacheOk(c.(lru := Touched(c.lru, key)), limit)
    ensures Touched(c.lru, key) != [] && Touched(c.lru, key)[0] == c.segments[key]
  {
    hide Touched, Distinct, Sum, Size, Matches, Sized;
    Cached(c.lru, c.segments, key);
    var a, e, b := TouchMoves(c.lru, key);
    DistinctMoved(a, e, b);
    SumMoved(a, e, b);
    MembersMoved(a, e, b);
    SameMatches(c.lru, [e] + a + b, c.segments, e);
  }

  lemma Cached(lru: seq<Entry>, segments: map<string, Entry>, key: string)
    requires Matches(lru, segments) && key in segments
    ensures exists x :: x in lru && x.key == key
  {
    assert segments[key] in lru;
  }

  lemma MembersMoved(a: seq<Entry>, e: Entry, b: seq<Entry>)
    ensures forall x :: x in [e] + a + b <==> x in a + [e] + b
    ensures e in a + [e] + b
  {
  }

  lemma SameMatches(lru: seq<Entry>, moved: seq<Entry>, segments: map<string, Entry>, e: Entry)
    requires Matches(lru, segments) && Sized(lru) && (forall x :: x in moved <==> x in lru) && e in lru
    ensures Matches(moved, segments) && Sized(moved) && e.key in segments && segments[e.key] == e
  {
  }

  lemma {:induction false} NonNegative(lru: seq<Entry>)
    requires Sized(lru)
    ensures forall i :: 0 <= i < |lru| ==> lru[i].bytes >= 0
  {
    forall i | 0 <= i < |lru| ensures lru[i].bytes >= 0 { assert lru[i] in lru; }
  }

  lemma KeptMatches(lru: seq<Entry>, kept: seq<Entry>, segments: map<string, Entry>, e: Entry)
    requires Distinct(lru) && Matches(lru, segments) && kept <= lru && e.key !in segments
    ensures Distinct([e] + kept) && Matches([e] + kept, Keep(segments, kept)[e.key := e])
  {
    var t, m := [e] + kept, Keep(segments, kept)[e.key := e];
    assert forall x :: x in kept ==> x in lru;
    assert forall x :: x in t <==> x == e || x in kept;
    forall i, j | 0 <= i < j < |t| ensures t[i].key != t[j].key {
      assert t[j] == kept[j - 1] == lru[j - 1] && t[j] in lru;
      if i > 0 { assert t[i] == lru[i - 1]; }
    }
  }

  /** A fetched segment goes to the front, after as many of the oldest entries have left as it takes. */
  lemma InsertKeepsCache(c: Cache, key: string, rs: Records, limit: int)
    requires CacheOk(c, limit) && key !in c.segments && Size(key, rs) <= limit
    ensures CacheOk(AfterFetch(c, key, Some(rs), limit), limit)
  {
    hide Distinct, Matches, Size, Keep;
    var e := Entry(key, rs, Size(key, rs));
    var kept := Evicted(c.lru, e.bytes, limit);
    NonNegative(c.lru);
    EvictionIsExact(c.lru, e.bytes, limit);
    KeptMatches(c.lru, kept, c.segments, e);
    SumConcat([e], kept);
    assert [e][..0] == [];
    KeptSized(c.lru, kept, e);
    hide Sized;
    forall k | k in c.flights - {key} ensures k !in Keep(c.segments, kept)[key := e] { KeepIsWithin(c.segments, kept, k); }
  }

  lemma KeptSized(lru: seq<Entry>, kept: seq<Entry>, e: Entry)
    requires Sized(lru) && kept <= lru && e.bytes == Size(e.key, e.records)
    ensures Sized([e] + kept)
  {
    assert forall x :: x in kept ==> x in lru;
  }

  lemma KeepIsWithin(segments: map<string, Entry>, kept: seq<Entry>, k: string)
    ensures k in Keep(segments, kept) ==> k in segments
  {
  }

  lemma FetchKeepsCache(c: Cache, key: string, result: Option<Records>, limit: int)
    requires CacheOk(c, limit) && key !in c.segments
    ensures CacheOk(AfterFetch(c, key, result, limit), limit)
  {
    hide Distinct, Matches, Sized, Size;
    if result.Some? && Size(key, result.value) <= limit { InsertKeepsCache(c, key, result.value, limit); }
  }

  // ---------------------------------------------------------------- the object

  lemma KeepLess(lru: seq<Entry>, segments: map<string, Entry>, n: nat)
    requires Distinct(lru) && Matches(lru, segments) && n < |lru|
    ensures Keep(segments, lru[..n]) == Keep(segments, lru[..n + 1]) - {lru[n].key}
  {
    hide Distinct, Matches;
    forall k | k in segments ensures segments[k] in lru[..n] <==> segments[k] in lru[..n + 1] && k != lru[n].key {
      InPrefix(lru, segments, n, k);
    }
  }

  lemma InPrefix(lru: seq<Entry>, segments: map<string, Entry>, n: nat, k: string)
    requires Distinct(lru) && Matches(lru, segments) && n < |lru| && k in segments
    ensures segments[k] in lru[..n] <==> segments[k] in lru[..n + 1] && k != lru[n].key
  {
    assert lru[..n + 1] == lru[..n] + [lru[n]];
    assert lru[n] in lru;
    if segments[k] in lru[..n] {
      var i :| 0 <= i < n && lru[..n][i] == segments[k];
      assert lru[i].key == k;
    }
  }

  lemma KeepAll(lru: seq<Entry>, segments: map<string, Entry>)
    requires Matches(lru, segments)
    ensures Keep(segments, lru) == segments
  {
  }

  class ArchiveBlockSource {
    var segments: map<string, Entry>
    var segmentLRU: seq<Entry>
    var segmentBytes: int
    var flights: map<string, int>
    var fetchSlots: nat
    const segmentCacheLimit: int

    ghost function View(): Cache
      reads this
    {
      Cache(segmentLRU, segments, segmentBytes, flights)
    }

    constructor ()
      ensures View() == Cache([], map[], 0, map[]) && fetchSlots == 0 && segmentCacheLimit == 0x400_0000
      ensures CacheOk(View(), segmentCacheLimit)
    {
      segments, segmentLRU, segmentBytes, flights, fetchSlots, segmentCacheLimit := map[], [], 0, map[], 0, 0x400_0000;
    }

    /** What happens under the lock when call `id` looks for `key`. */
    method Look(key: string, id: int) returns (found: Found)
      requires CacheOk(View(), segmentCacheLimit)
      modifies this
      ensures found == Decide(old(View()), key, old(fetchSlots))
      ensures View() == AfterDecision(old(View()), key, id, found)
      ensures fetchSlots == old(fetchSlots) + if found.Lead? then 1 else 0
    {
      if key in segments {
        Cached(segmentLRU, segments, key);
        var i := Position(segmentLRU, key);
        segmentLRU := [segmentLRU[i]] + segmentLRU[..i] + segmentLRU[i + 1..];
        return Hit(segments[key].records);
      }
      if key in flights { return Join(flights[key]); }
      if fetchSlots < MAX_FETCHES {
        fetchSlots := fetchSlots + 1;
        flights := flights[key := id];
        return Lead;
      }
      return Full;
    }

    /** What happens under the lock when the fetch of `key` is over.  The loop never meets an empty list. */
    method Land(key: string, result: Option<Records>)
      requires CacheOk(View(), segmentCacheLimit) && key !in segments
      modifies this
      ensures View() == AfterFetch(old(View()), key, result, segmentCacheLimit)
      ensures fetchSlots == old(fetchSlots)
    {
      hide Size, Matches, Distinct;
      if result.Some? {
        var size := Size(key, result.value);
        if size <= segmentCacheLimit {
          ghost var lru := segmentLRU;
          KeepAll(lru, segments);
          assert lru[..|lru|] == lru;
          while segmentBytes + size > segmentCacheLimit
            invariant segmentLRU == lru[..|segmentLRU|] && |segmentLRU| <= |lru|
            invariant segmentBytes == Sum(segmentLRU)
            invariant segments == Keep(old(segments), segmentLRU)
            invariant Evicted(segmentLRU, size, segmentCacheLimit) == Evicted(lru, size, segmentCacheLimit)
            invariant flights == old(flights) && fetchSlots == old(fetchSlots)
            decreases |segmentLRU|
          {
            assert segmentLRU != [];
            var n := |segmentLRU| - 1;
            var oldest := segmentLRU[n];
            KeepLess(lru, old(segments), n);
            segments := segments - {oldest.key};
            segmentBytes := segmentBytes - oldest.bytes;
            segmentLRU := segmentLRU[..n];
            assert segmentLRU == lru[..n];
          }
          var e := Entry(key, result.value, size);
          segmentLRU := [e] + segmentLRU;
          segments := segments[key := e];
          segmentBytes := segmentBytes + size;
        }
      }
      flights := flights - {key};
    }
  }

  // ---------------------------------------------------------------- interleaved calls

  /** Fetch and decode with nothing cached. */
  function FetchAndDecode(env: Env, objects: Objects, s: Segment): Option<Records> {
    var got := Get(objects, s.key);
    if got.Err? then None else DecodeChecked(env, got.value, s)
  }

  /** Where a load of segment `s` stands.  A leader holds a slot until it has landed and left. */
  datatype Call =
    | Wanting(s: Segment) | Blocked(s: Segment) | Probing(s: Segment) | Waiting(s: Segment, leader: int)
    | Fetching(s: Segment) | Fetched(s: Segment, result: Option<Records>)
    | Leaving(s: Segment, result: Option<Records>) | Done(s: Segment, result: Option<Records>)

  predicate Leads(x: Call) { x.Fetching? || x.Fetched? }

  predicate HoldsSlot(x: Call) { Leads(x) || x.Probing? || x.Leaving? }

  datatype Sys = Sys(objects: Objects, cache: Cache, slots: set<int>, calls: map<int, Call>)

  datatype Step =
    | Spawn(id: int, s: Segment) | Look(id: int) | Probe(id: int) | Unprobe(id: int) | Fetch(id: int, works: bool)
    | Land(id: int) | Leave(id: int) | Receive(id: int) | Quit(id: int) | Grow(objects: Objects)

  function SetCall(p: Sys, id: int, x: Call): Sys { p.(calls := p.calls[id := x]) }

  function AfterLook(key: Segment -> string, p: Sys, id: int, s: Segment): Sys {
    var found := Decide(p.cache, key(s), |p.slots|);
    var q := p.(cache := AfterDecision(p.cache, key(s), id, found));
    match found
    case Hit(records) => SetCall(q, id, Done(s, Some(records)))
    case Join(leader) => SetCall(q, id, Waiting(s, leader))
    case Lead => SetCall(q, id, Fetching(s)).(slots := p.slots + {id})
    case Full => SetCall(q, id, Blocked(s))
  }

  /** What a manifest may list: a valid segment, not stored where the metadata is. */
  ghost predicate Askable(site: Site, s: Segment) { ValidSegment(s) && !Reserved(site, s.key) }

  /** The step of one call that is at `x`. */
  ghost predicate CallStep(site: Site, key: Segment -> string, limit: int, p: Sys, st: Step, x: Call, q: Sys) {
    match st
    case Look(id) => x.Wanting? && q == AfterLook(key, p, id, x.s)
    case Probe(id) => x.Blocked? && |p.slots| < MAX_FETCHES && q == SetCall(p, id, Probing(x.s)).(slots := p.slots + {id})
    case Unprobe(id) => x.Probing? && q == SetCall(p, id, Wanting(x.s)).(slots := p.slots - {id})
    case Fetch(id, works) =>
      x.Fetching? && q == SetCall(p, id, Fetched(x.s, if works then FetchAndDecode(site.env, p.objects, x.s) else None))
    case Land(id) =>
      x.Fetched? && q == SetCall(p, id, Leaving(x.s, x.result)).(cache := AfterFetch(p.cache, key(x.s), x.result, limit))
    case Leave(id) => x.Leaving? && q == SetCall(p, id, Done(x.s, x.result)).(slots := p.slots - {id})
    case Receive(id) =>
      && x.Waiting? && x.leader in p.calls && (p.calls[x.leader].Leaving? || p.calls[x.leader].Done?)
      && q == SetCall(p, id, Done(x.s, p.calls[x.leader].result))
    case Quit(id) => (x.Waiting? || x.Blocked?) && q == SetCall(p, id, Done(x.s, None))
    case _ => false
  }

  /** One step of a call, or of the store, where segments only appear and the metadata may change. */
  ghost predicate Next(site: Site, key: Segment -> string, limit: int, p: Sys, st: Step, q: Sys) {
    if st.Spawn? then st.id !in p.calls && Askable(site, st.s) && q == SetCall(p, st.id, Wanting(st.s))
    else if st.Grow? then V.Immutable(site, p.objects, st.objects) && q == p.(objects := st.objects)
    else st.id in p.calls && CallStep(site, key, limit, p, st, p.calls[st.id], q)
  }

  /** The cache key of a valid segment shows every field of it. */
  ghost predicate Injective(key: Segment -> string) { forall s, t :: ValidSegment(s) && ValidSegment(t) && key(s) == key(t) ==> s == t }

  ghost predicate SlotsOk(p: Sys) {
    |p.slots| <= MAX_FETCHES && forall id :: id in p.slots <==> id in p.calls && HoldsSlot(p.calls[id])
  }

  ghost predicate FlightsOk(key: Segment -> string, p: Sys) {
    && (forall k :: k in p.cache.flights ==>
          var id := p.cache.flights[k]; id in p.calls && Leads(p.calls[id]) && key(p.calls[id].s) == k)
    && (forall id :: id in p.calls && Leads(p.calls[id]) ==>
          key(p.calls[id].s) in p.cache.flights && p.cache.flights[key(p.calls[id].s)] == id)
  }

  /** A successful answer is what an uncached load would give now. */
  ghost predicate Right(site: Site, objects: Objects, s: Segment, result: Option<Records>) {
    result.Some? ==> FetchAndDecode(site.env, objects, s) == result
  }

  ghost predicate CachedRight(site: Site, key: Segment -> string, p: Sys) {
    forall s :: Askable(site, s) && key(s) in p.cache.segments ==> Right(site, p.objects, s, Some(p.cache.segments[key(s)].records))
  }

  ghost predicate CallOk(site: Site, p: Sys, x: Call) {
    && Askable(site, x.s)
    && (x.Fetched? || x.Leaving? || x.Done? ==> Right(site, p.objects, x.s, x.result))
    && (x.Waiting? ==> x.leader in p.calls && Followed(p.calls[x.leader], x.s))
  }

  predicate Followed(y: Call, s: Segment) { (Leads(y) || y.Leaving? || y.Done?) && y.s == s }

  ghost predicate Inv(site: Site, key: Segment -> string, limit: int, p: Sys) {
    && CacheOk(p.cache, limit) && SlotsOk(p) && FlightsOk(key, p) && CachedRight(site, key, p)
    && forall id :: id in p.calls ==> CallOk(site, p, p.calls[id])
  }

  lemma RightLater(site: Site, before: Objects, after: Objects, s: Segment, result: Option<Records>)
    requires V.Immutable(site, before, after) && !Reserved(site, s.key) && Right(site, before, s, result)
    ensures Right(site, after, s, result)
  {
    hide DecodeChecked;
  }

  lemma LeaderIsUncached(site: Site, key: Segment -> string, limit: int, p: Sys, id: int)
    requires Inv(site, key, limit, p) && id in p.calls && Leads(p.calls[id])
    ensures key(p.calls[id].s) !in p.cache.segments
  {
    hide Distinct, Matches, Sized, Sum;
  }

  lemma StepKeepsCache(site: Site, key: Segment -> string, limit: int, p: Sys, st: Step, q: Sys)
    requires Inv(site, key, limit, p) && Next(site, key, limit, p, st, q)
    ensures CacheOk(q.cache, limit)
  {
    hide Distinct, Matches, Sized, Sum, AfterFetch, Touched, Right, FetchAndDecode;
    if st.Look? {
      var k := key(p.calls[st.id].s);
      if k in p.cache.segments { TouchKeepsCache(p.cache, k, limit); }
    } else if st.Land? {
      var x := p.calls[st.id];
      LeaderIsUncached(site, key, limit, p, st.id);
      FetchKeepsCache(p.cache, key(x.s), x.result, limit);
    }
  }

  lemma SlotTaken(p: Sys, q: Sys, id: int, x: Call)
    requires SlotsOk(p) && |p.slots| < MAX_FETCHES && HoldsSlot(x) && q.calls == p.calls[id := x] && q.slots == p.slots + {id}
    ensures SlotsOk(q)
  {
  }

  lemma SlotFreed(p: Sys, q: Sys, id: int, x: Call)
    requires SlotsOk(p) && !HoldsSlot(x) && q.calls == p.calls[id := x] && q.slots == p.slots - {id}
    ensures SlotsOk(q)
  {
    SubsetSize(q.slots, p.slots);
  }

  lemma SlotsStay(p: Sys, q: Sys, id: int, x: Call)
    requires SlotsOk(p) && q.slots == p.slots && q.calls == p.calls[id := x]
    requires HoldsSlot(x) <==> id in p.calls && HoldsSlot(p.calls[id])
    ensures SlotsOk(q)
  {
  }

  lemma SlotsSame(p: Sys, q: Sys)
    requires SlotsOk(p) && q.slots == p.slots && q.calls == p.calls
    ensures SlotsOk(q)
  {
  }

  lemma LookKeepsSlots(key: Segment -> string, p: Sys, id: int, s: Segment)
    requires SlotsOk(p) && id in p.calls && p.calls[id] == Wanting(s)
    ensures SlotsOk(AfterLook(key, p, id, s))
  {
    hide AfterDecision, SlotsOk;
    var q := AfterLook(key, p, id, s);
    if q.calls[id].Fetching? { SlotTaken(p, q, id, q.calls[id]); } else { SlotsStay(p, q, id, q.calls[id]); }
  }

  lemma StepKeepsSlots(site: Site, key: Segment -> string, limit: int, p: Sys, st: Step, q: Sys)
    requires SlotsOk(p) && Next(site, key, limit, p, st, q)
    ensures SlotsOk(q)
  {
    hide AfterFetch, AfterLook, FetchAndDecode, SlotsOk;
    if st.Grow? {
      SlotsSame(p, q);
    } else {
      if st.Look? {
        LookKeepsSlots(key, p, st.id, p.calls[st.id].s);
      } else if st.Probe? {
        SlotTaken(p, q, st.id, q.calls[st.id]);
      } else if st.Unprobe? || st.Leave? {
        SlotFreed(p, q, st.id, q.calls[st.id]);
      } else {
        SlotsStay(p, q, st.id, q.calls[st.id]);
      }
    }
  }

  /** Nobody takes off or lands. */
  lemma FlightsStay(key: Segment -> string, p: Sys, q: Sys, id: int, x: Call)
    requires FlightsOk(key, p) && q.cache.flights == p.cache.flights && q.calls == p.calls[id := x]
    requires Leads(x) || (id in p.calls && Leads(p.calls[id])) ==> Leads(x) && id in p.calls && Leads(p.calls[id]) && p.calls[id].s == x.s
    ensures FlightsOk(key, q)
  {
  }

  lemma FlightStarts(key: Segment -> string, p: Sys, q: Sys, id: int, s: Segment)
    requires FlightsOk(key, p) && key(s) !in p.cache.flights && id in p.calls && !Leads(p.calls[id])
    requires q.cache.flights == p.cache.flights[key(s) := id] && q.calls == p.calls[id := Fetching(s)]
    ensures FlightsOk(key, q)
  {
  }

  lemma FlightEnds(key: Segment -> string, p: Sys, q: Sys, id: int, s: Segment, result: Option<Records>)
    requires FlightsOk(key, p) && id in p.calls && Leads(p.calls[id]) && p.calls[id].s == s
    requires q.cache.flights == p.cache.flights - {key(s)} && q.calls == p.calls[id := Leaving(s, result)]
    ensures FlightsOk(key, q)
  {
  }

  lemma StepKeepsFlights(site: Site, key: Segment -> string, limit: int, p: Sys, st: Step, q: Sys)
    requires FlightsOk(key, p) && Next(site, key, limit, p, st, q)
    ensures FlightsOk(key, q)
  {
    hide Evicted, Keep, Size, Sum, Touched, FetchAndDecode, FlightsOk;
    if st.Grow? {
      FlightsSame(key, p, q);
    } else if st.Land? {
      FlightEnds(key, p, q, st.id, p.calls[st.id].s, p.calls[st.id].result);
    } else if st.Look? && q.calls[st.id].Fetching? {
      FlightStarts(key, p, q, st.id, p.calls[st.id].s);
    } else {
      FlightsStay(key, p, q, st.id, q.calls[st.id]);
    }
  }

  lemma FlightsSame(key: Segment -> string, p: Sys, q: Sys)
    requires FlightsOk(key, p) && q.cache == p.cache && q.calls == p.calls
    ensures FlightsOk(key, q)
  {
  }

  lemma LandingIsRight(site: Site, key: Segment -> string, limit: int, p: Sys, x: Call)
    requires CachedRight(site, key, p) && Injective(key) && x.Fetched? && Askable(site, x.s) && Right(site, p.objects, x.s, x.result)
    ensures CachedRight(site, key, p.(cache := AfterFetch(p.cache, key(x.s), x.result, limit)))
  {
    hide Evicted, Size, Sum, FetchAndDecode, ValidSegment, Reserved;
  }

  lemma StepKeepsRight(site: Site, key: Segment -> string, limit: int, p: Sys, st: Step, q: Sys)
    requires Inv(site, key, limit, p) && Injective(key) && Next(site, key, limit, p, st, q)
    ensures CachedRight(site, key, q)
  {
    hide CacheOk, SlotsOk, FlightsOk, AfterFetch, Touched, FetchAndDecode, Right;
    if st.Grow? {
      forall s | Askable(site, s) && key(s) in p.cache.segments ensures Right(site, q.objects, s, Some(p.cache.segments[key(s)].records)) {
        RightLater(site, p.objects, q.objects, s, Some(p.cache.segments[key(s)].records));
      }
    } else if st.Land? {
      LandingIsRight(site, key, limit, p, p.calls[st.id]);
    }
  }

  /** Whoever leads the flight for the key of `s` is loading `s`. */
  lemma LeaderLoadsTheSame(site: Site, key: Segment -> string, p: Sys, s: Segment)
    requires FlightsOk(key, p) && Injective(key) && Askable(site, s) && key(s) in p.cache.flights
    requires forall i :: i in p.calls ==> Askable(site, p.calls[i].s)
    ensures var leader := p.cache.flights[key(s)]; leader in p.calls && Leads(p.calls[leader]) && p.calls[leader].s == s
  {
    hide ValidSegment, Reserved;
  }

  lemma LookedIsOk(site: Site, key: Segment -> string, limit: int, p: Sys, id: int, s: Segment)
    requires FlightsOk(key, p) && CachedRight(site, key, p) && Injective(key) && id in p.calls && p.calls[id] == Wanting(s)
    requires forall i :: i in p.calls ==> Askable(site, p.calls[i].s)
    ensures var q := AfterLook(key, p, id, s); id in q.calls && CallOk(site, q, q.calls[id])
  {
    hide AfterDecision, FetchAndDecode, Right, Askable, Injective, FlightsOk;
    if key(s) in p.cache.flights { LeaderLoadsTheSame(site, key, p, s); }
    if key(s) in p.cache.segments { assert Right(site, p.objects, s, Some(p.cache.segments[key(s)].records)); }
  }

  lemma MovedCallIsOk(site: Site, key: Segment -> string, limit: int, p: Sys, st: Step, q: Sys)
    requires Inv(site, key, limit, p) && Injective(key) && Next(site, key, limit, p, st, q) && !st.Grow?
    ensures st.id in q.calls && CallOk(site, q, q.calls[st.id])
  {
    hide CacheOk, SlotsOk, FlightsOk, CachedRight, AfterFetch, AfterLook, FetchAndDecode, Injective;
    if st.Look? { LookedIsOk(site, key, limit, p, st.id, p.calls[st.id].s); }
    if st.Receive? { assert CallOk(site, p, p.calls[p.calls[st.id].leader]); }
  }

  /** Calls only come and move on: whoever led still leads, is leaving or is done. */
  lemma FollowedStays(site: Site, key: Segment -> string, limit: int, p: Sys, st: Step, q: Sys, id: int, s: Segment)
    requires Next(site, key, limit, p, st, q) && id in p.calls && Followed(p.calls[id], s)
    ensures id in q.calls && Followed(q.calls[id], s)
  {
    hide AfterFetch, AfterDecision, FetchAndDecode, Askable;
  }

  lemma OthersStand(site: Site, key: Segment -> string, limit: int, p: Sys, st: Step, q: Sys, id: int)
    requires Next(site, key, limit, p, st, q) && id in p.calls && (st.Grow? || id != st.id)
    ensures id in q.calls && q.calls[id] == p.calls[id] && (!st.Grow? ==> q.objects == p.objects)
    ensures V.Immutable(site, p.objects, q.objects)
  {
    hide AfterFetch, AfterDecision, FetchAndDecode, Askable;
  }

  lemma OtherCallIsOk(site: Site, key: Segment -> string, limit: int, p: Sys, st: Step, q: Sys, id: int)
    requires Next(site, key, limit, p, st, q) && id in p.calls && CallOk(site, p, p.calls[id])
    requires st.Grow? || id != st.id
    ensures id in q.calls && CallOk(site, q, q.calls[id])
  {
    hide Next, Followed, Right, FetchAndDecode, ValidSegment, V.Immutable;
    var x := p.calls[id];
    OthersStand(site, key, limit, p, st, q, id);
    if x.Fetched? || x.Leaving? || x.Done? { RightLater(site, p.objects, q.objects, x.s, x.result); }
    if x.Waiting? { FollowedStays(site, key, limit, p, st, q, x.leader, x.s); }
  }

  lemma StepKeepsInv(site: Site, key: Segment -> string, limit: int, p: Sys, st: Step, q: Sys)
    requires Inv(site, key, limit, p) && Injective(key) && Next(site, key, limit, p, st, q)
    ensures Inv(site, key, limit, q)
  {
    StepKeepsCache(site, key, limit, p, st, q);
    StepKeepsSlots(site, key, limit, p, st, q);
    StepKeepsFlights(site, key, limit, p, st, q);
    StepKeepsRight(site, key, limit, p, st, q);
    if !st.Grow? { MovedCallIsOk(site, key, limit, p, st, q); }
    OnlyOneMoves(site, key, limit, p, st, q);
    hide CacheOk, SlotsOk, FlightsOk, CachedRight, CallOk, Next;
    forall id | id in q.calls ensures CallOk(site, q, q.calls[id]) {
      if st.Grow? || id != st.id { OtherCallIsOk(site, key, limit, p, st, q, id); }
    }
  }

  lemma OnlyOneMoves(site: Site, key: Segment -> string, limit: int, p: Sys, st: Step, q: Sys)
    requires Next(site, key, limit, p, st, q)
    ensures forall id :: id in q.calls && (st.Grow? || id != st.id) ==> id in p.calls
  {
    hide AfterFetch, AfterDecision, FetchAndDecode;
  }

  ghost predicate Run(site: Site, key: Segment -> string, limit: int, ps: seq<Sys>, ss: seq<Step>) {
    && |ps| == |ss| + 1 && ps[0].cache == Cache([], map[], 0, map[]) && ps[0].slots == {} && ps[0].calls == map[]
    && forall i :: 0 <= i < |ss| ==> Next(site, key, limit, ps[i], ss[i], ps[i + 1])
  }

  lemma {:induction false} RunKeepsInv(site: Site, key: Segment -> string, limit: int, ps: seq<Sys>, ss: seq<Step>, k: nat)
    requires Run(site, key, limit, ps, ss) && Injective(key) && limit >= 0 && k < |ps|
    ensures Inv(site, key, limit, ps[k])
  {
    if k > 0 {
      hide Inv, Next;
      RunKeepsInv(site, key, limit, ps, ss, k - 1);
      StepKeepsInv(site, key, limit, ps[k - 1], ss[k - 1], ps[k]);
    }
  }

  lemma {:induction false} FlightsWithin(flights: map<string, int>, slots: set<int>)
    requires forall k :: k in flights ==> flights[k] in slots
    requires forall k, l :: k in flights && l in flights && flights[k] == flights[l] ==> k == l
    ensures |flights| <= |slots|
    decreases |flights|
  {
    if flights.Keys != {} {
      var k := Member(flights.Keys);
      FlightsWithin(flights - {k}, slots - {flights[k]});
      assert flights == (flights - {k})[k := flights[k]];
    }
  }

  /**
   Whatever the interleaving: the byte count is exact and within the limit, list and map are
   in bijection, no key is both cached and in flight, and at most four fetches are under way.
   */
  lemma CacheStaysSound(site: Site, key: Segment -> string, limit: int, ps: seq<Sys>, ss: seq<Step>, k: nat)
    requires Run(site, key, limit, ps, ss) && Injective(key) && limit >= 0 && k < |ps|
    ensures CacheOk(ps[k].cache, limit) && |ps[k].cache.flights| <= |ps[k].slots| <= MAX_FETCHES
  {
    RunKeepsInv(site, key, limit, ps, ss, k);
    hide CacheOk, CachedRight, CallOk;
    var p := ps[k];
    forall f | f in p.cache.flights ensures p.cache.flights[f] in p.slots {
      assert HoldsSlot(p.calls[p.cache.flights[f]]);
    }
    FlightsWithin(p.cache.flights, p.slots);
  }

  /** Every load that succeeds, from the cache, from a flight or on its own, equals an uncached load. */
  lemma LoadEqualsUncached(site: Site, key: Segment -> string, limit: int, ps: seq<Sys>, ss: seq<Step>, k: nat, id: int)
    requires Run(site, key, limit, ps, ss) && Injective(key) && limit >= 0 && k < |ps|
    requires id in ps[k].calls && ps[k].calls[id].Done? && ps[k].calls[id].result.Some?
    ensures FetchAndDecode(site.env, ps[k].objects, ps[k].calls[id].s) == ps[k].calls[id].result
  {
    hide FetchAndDecode, CacheOk, SlotsOk, FlightsOk, CachedRight;
    RunKeepsInv(site, key, limit, ps, ss, k);
    assert CallOk(site, ps[k], ps[k].calls[id]);
  }

  // ---------------------------------------------------------------- what the cache is good for

  /**
   A fetched segment that fits is a hit from then on, and costs no more of the older entries
   than it takes: the most recently used ones stay, as many as leave room.  A failed fetch and
   one too large for the cache change nothing but the flight.
   */
  lemma FetchedIsHit(c: Cache, key: string, result: Option<Records>, limit: int, taken: nat)
    requires CacheOk(c, limit) && key !in c.segments
    ensures var t := AfterFetch(c, key, result, limit);
            if result.Some? && Size(key, result.value) <= limit then
              && Decide(t, key, taken) == Hit(result.value)
              && t.lru != [] && t.lru[0].key == key && t.lru[1..] <= c.lru
              && (t.lru[1..] != c.lru ==> Sum(c.lru[..|t.lru|]) + Size(key, result.value) > limit)
            else t.lru == c.lru && t.segments == c.segments
    ensures key !in AfterFetch(c, key, result, limit).flights
  {
    hide Matches, Distinct, Keep, Size;
    if result.Some? && Size(key, result.value) <= limit {
      NonNegative(c.lru);
      EvictionIsExact(c.lru, Size(key, result.value), limit);
      var t := AfterFetch(c, key, result, limit);
      assert t.lru[1..] == Evicted(c.lru, Size(key, result.value), limit);
    }
  }

  /** What a call finds: what is cached is a hit, what is being fetched is shared, and only four fetches under way hold it up. */
  lemma LooksIff(c: Cache, key: string, taken: nat)
    ensures Decide(c, key, taken).Hit? <==> key in c.segments
    ensures Decide(c, key, taken).Hit? ==> Decide(c, key, taken).records == c.segments[key].records
    ensures Decide(c, key, taken).Join? <==> key !in c.segments && key in c.flights
    ensures Decide(c, key, taken).Full? <==> key !in c.segments && key !in c.flights && taken >= 4
  {
  }

  /** Two calls never fetch the same segment at the same time. */
  lemma OneFetchPerSegment(site: Site, key: Segment -> string, limit: int, ps: seq<Sys>, ss: seq<Step>, k: nat, id: int, other: int)
    requires Run(site, key, limit, ps, ss) && Injective(key) && limit >= 0 && k < |ps|
    requires id in ps[k].calls && other in ps[k].calls && Leads(ps[k].calls[id]) && Leads(ps[k].calls[other]) && id != other
    ensures ps[k].calls[id].s != ps[k].calls[other].s
  {
    hide Next, Injective, CacheOk, SlotsOk, CachedRight, CallOk;
    RunKeepsInv(site, key, limit, ps, ss, k);
  }

  /** A step of a call's own: not a new call, not the caller giving up, not the store. */
  predicate Own(st: Step) { !st.Spawn? && !st.Quit? && !st.Grow? }

  lemma HolderMoves(site: Site, key: Segment -> string, limit: int, p: Sys, id: int) returns (st: Step, q: Sys)
    requires id in p.calls && HoldsSlot(p.calls[id])
    ensures Own(st) && Next(site, key, limit, p, st, q)
  {
    hide FetchAndDecode, AfterFetch;
    var x := p.calls[id];
    match x
    case Probing(s) => st, q := Unprobe(id), SetCall(p, id, Wanting(s)).(slots := p.slots - {id});
    case Fetching(s) => st, q := Fetch(id, true), SetCall(p, id, Fetched(s, FetchAndDecode(site.env, p.objects, s)));
    case Fetched(s, r) => st, q := Land(id), SetCall(p, id, Leaving(s, r)).(cache := AfterFetch(p.cache, key(s), r, limit));
    case Leaving(s, r) => st, q := Leave(id), SetCall(p, id, Done(s, r)).(slots := p.slots - {id});
  }

  /** No deadlock: while any call is not done, some call can take a step of its own. */
  lemma SomeoneMoves(site: Site, key: Segment -> string, limit: int, ps: seq<Sys>, ss: seq<Step>, k: nat, id: int) returns (st: Step, q: Sys)
    requires Run(site, key, limit, ps, ss) && Injective(key) && limit >= 0 && k < |ps|
    requires id in ps[k].calls && !ps[k].calls[id].Done?
    ensures Own(st) && Next(site, key, limit, ps[k], st, q)
  {
    hide FetchAndDecode, AfterFetch, AfterLook, Injective, CacheOk, CachedRight, FlightsOk, Askable, Right;
    RunKeepsInv(site, key, limit, ps, ss, k);
    hide Run;
    var p := ps[k];
    var x := p.calls[id];
    if HoldsSlot(x) {
      st, q := HolderMoves(site, key, limit, p, id);
    } else if x.Wanting? {
      st, q := Look(id), AfterLook(key, p, id, x.s);
    } else if x.Blocked? {
      if |p.slots| < MAX_FETCHES {
        st, q := Probe(id), SetCall(p, id, Probing(x.s)).(slots := p.slots + {id});
      } else {
        var other := Member(p.slots);
        st, q := HolderMoves(site, key, limit, p, other);
      }
    } else {
      assert CallOk(site, p, x);
      var leader := p.calls[x.leader];
      if Leads(leader) {
        st, q := HolderMoves(site, key, limit, p, x.leader);
      } else {
        st, q := Receive(id), SetCall(p, id, Done(x.s, leader.result));
      }
    }
  }

  // ---------------------------------------------------------------- no needless failure

  predicate Smooth(st: Step) { !st.Quit? && !(st.Fetch? && !st.works) }

  /** A load of `s` that has its answer has the records. */
  ghost predicate Answered(p: Sys, s: Segment) {
    forall id :: id in p.calls && p.calls[id].s == s && (p.calls[id].Fetched? || p.calls[id].Leaving? || p.calls[id].Done?) ==> p.calls[id].result.Some?
  }

  lemma StepAnswers(site: Site, key: Segment -> string, limit: int, p: Sys, st: Step, q: Sys, s: Segment)
    requires Inv(site, key, limit, p) && Next(site, key, limit, p, st, q) && Smooth(st)
    requires FetchAndDecode(site.env, p.objects, s).Some? && Answered(p, s)
    ensures Answered(q, s)
  {
    hide FetchAndDecode, AfterFetch, AfterDecision, CacheOk, CachedRight, FlightsOk, SlotsOk, Askable, Right;
    if st.Receive? { assert CallOk(site, p, p.calls[st.id]); }
  }

  lemma StaysFetchable(site: Site, key: Segment -> string, limit: int, p: Sys, st: Step, q: Sys, s: Segment)
    requires Next(site, key, limit, p, st, q) && FetchAndDecode(site.env, p.objects, s).Some? && !Reserved(site, s.key)
    ensures FetchAndDecode(site.env, q.objects, s).Some?
  {
    hide DecodeChecked, AfterFetch, AfterDecision;
  }

  lemma {:induction false} RunAnswers(site: Site, key: Segment -> string, limit: int, ps: seq<Sys>, ss: seq<Step>, k: nat, s: Segment)
    requires Run(site, key, limit, ps, ss) && Injective(key) && limit >= 0 && k < |ps|
    requires forall i :: 0 <= i < k ==> Smooth(ss[i])
    requires FetchAndDecode(site.env, ps[0].objects, s).Some? && !Reserved(site, s.key)
    ensures FetchAndDecode(site.env, ps[k].objects, s).Some? && Answered(ps[k], s)
    decreases k
  {
    hide Inv, Next, FetchAndDecode, Injective, Smooth;
    if k > 0 {
      RunAnswers(site, key, limit, ps, ss, k - 1, s);
      RunKeepsInv(site, key, limit, ps, ss, k - 1);
      StepAnswers(site, key, limit, ps[k - 1], ss[k - 1], ps[k], s);
      StaysFetchable(site, key, limit, ps[k - 1], ss[k - 1], ps[k], s);
    }
  }

  /**
   Where the object is stored and in order, and nobody gives up and no request to the store
   fails, every load that ends has the records: neither waiting, nor sharing, nor eviction
   turns it into a failure.
   */
  lemma HealthyLoadsSucceed(site: Site, key: Segment -> string, limit: int, ps: seq<Sys>, ss: seq<Step>, k: nat, id: int)
    requires Run(site, key, limit, ps, ss) && Injective(key) && limit >= 0 && k < |ps| && forall i :: 0 <= i < k ==> Smooth(ss[i])
    requires id in ps[k].calls && ps[k].calls[id].Done? && FetchAndDecode(site.env, ps[0].objects, ps[k].calls[id].s).Some?
    ensures ps[k].calls[id].result.Some? && ps[k].calls[id].result == FetchAndDecode(site.env, ps[k].objects, ps[k].calls[id].s)
  {
    hide Next, FetchAndDecode, Injective, Smooth, CacheOk, SlotsOk, FlightsOk, CachedRight, Right;
    RunKeepsInv(site, key, limit, ps, ss, k);
    assert CallOk(site, ps[k], ps[k].calls[id]);
    RunAnswers(site, key, limit, ps, ss, k, ps[k].calls[id].s);
    LoadEqualsUncached(site, key, limit, ps, ss, k, id);
  }

  // ---------------------------------------------------------------- down to the supplied block

  lemma PublishedIsAskable(site: Site, w: World, m: Manifest, s: Segment)
    requires Publication.Inv(site, w) && m in w.history && s in m.segments
    ensures Askable(site, s)
  {
    assert PublishedOk(site, w, m) && Kept(site, w, s);
    var bs :| (s, bs) in w.built;
    var i :| 0 <= i < |m.segments| && m.segments[i] == s;
    PublishedSegment(site, w, m, i);
  }

  lemma ReadIsDecoded(env: Env, objects: Objects, m: Manifest, h: int, s: Segment, b: Block)
    requires Lookup(m.segments, h) == Some(s) && ReadArchive(env, objects, m, h) == Some(b)
    ensures var rs := FetchAndDecode(env, objects, s);
            rs.Some? && 0 <= h - s.first < |rs.value| && RecordToBlock(env, rs.value[h - s.first]) == Some(b)
  {
    hide DecodeChecked, RecordToBlock, Lookup;
  }

  /**
   From the cache down to the writer.  Publishers and cold reads run side by side on one
   store.  A load of the segment that any published manifest, however old, has for `h` may be
   asked for; and if it succeeds, cached, shared or fetched, the record at `h` is the block
   that whoever built that segment was given.
   */
  lemma ColdReadIsSupplied(site: Site, ws: seq<World>, es: seq<Event>, j: nat, key: Segment -> string, limit: int,
                           ps: seq<Sys>, ss: seq<Step>, k: nat, id: int, m: Manifest, h: int) returns (s: Segment, bs: seq<Block>)
    requires GoodSite(site) && Publication.Run(site, ws, es) && Publication.Inv(site, ws[0]) && j < |ws| && CollisionFree(site.env.sha, ws[j].bytes)
    requires m in ws[j].history && InRange(m, h)
    requires Run(site, key, limit, ps, ss) && Injective(key) && limit >= 0 && k < |ps| && ps[k].objects == ws[j].objects
    requires id in ps[k].calls && ps[k].calls[id].Done? && ps[k].calls[id].result.Some? && Lookup(m.segments, h) == Some(ps[k].calls[id].s)
    ensures s == ps[k].calls[id].s && Askable(site, s) && (s, bs) in ws[j].built
    ensures forall cs :: (s, cs) in ws[j].built ==>
              var rs := ps[k].calls[id].result.value; 0 <= h - s.first < Min(|rs|, |cs|) && RecordToBlock(site.env, rs[h - s.first]) == Some(cs[h - s.first])
  {
    hide GoodSite, CollisionFree, Publication.Inv, Publication.Apply, Next, Injective, ReadArchive, Lookup, FetchAndDecode, RecordToBlock, Askable;
    s, bs := PublishedReadsBack(site, ws, es, j, m, h);
    LoadEqualsUncached(site, key, limit, ps, ss, k, id);
    forall cs | (s, cs) in ws[j].built
      ensures var rs := ps[k].calls[id].result.value; 0 <= h - s.first < Min(|rs|, |cs|) && RecordToBlock(site.env, rs[h - s.first]) == Some(cs[h - s.first])
    {
      assert ReadsAs(site, ws[j], m, h, s, cs);
      ReadIsDecoded(site.env, ws[j].objects, m, h, s, cs[h - s.first]);
    }
    Publication.RunKeepsInv(site, ws, es, j);
    LookupIsOne(m.segments, h);
    PublishedIsAskable(site, ws[j], m, s);
  }
}
