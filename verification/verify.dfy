/**
 Verification of a published archive, full and incremental.  The incremental verifier
 remembers a fingerprint of every segment it has verified in full and skips the segments
 whose descriptor still has that fingerprint.
 */
module Verification {
  import opened Common
  import opened Manifests
  import opened Segments
  import opened ObjectStores
  import opened Publication

  type Cache = map<string, string>

  datatype VerifyError = ManifestMissing | ManifestBad | SegmentBad | Stopped

  ghost predicate AllVerify(env: Env, objects: Objects, m: Manifest) {
    forall s :: s in m.segments ==> Verifies(env, objects, s)
  }

  /** Every height of the manifest reads as the block its index names. */
  ghost predicate AllReadable(env: Env, objects: Objects, m: Manifest) {
    forall h :: InRange(m, h) ==> ReadsAt(env, objects, m, h)
  }

  ghost predicate ReadsAt(env: Env, objects: Objects, m: Manifest, h: int) {
    var (s, b) := (Lookup(m.segments, h), ReadArchive(env, objects, m, h));
    && s.Some? && b.Some? && b.value.header.height == h
    && 0 <= h - s.value.first < |s.value.blocks| && env.blockHash(b.value) == s.value.blocks[h - s.value.first].hash
  }

  lemma SegmentsRead(env: Env, objects: Objects, m: Manifest, i: nat, h: int)
    requires ValidManifest(m) && i < |m.segments| && Covers(m.segments[i], h)
    ensures ReadsAt(env, objects, m, h) <==> ReadsIndexed(env, objects, m.segments[i], h)
    ensures InRange(m, h)
  {
    hide ReadSegment, Lookup;
    LookupFinds(m.segments, h, i);
    WithinBounds(m, i, h);
  }

  lemma WithinBounds(m: Manifest, i: nat, h: int)
    requires ValidManifest(m) && i < |m.segments| && Covers(m.segments[i], h)
    ensures m.first <= h <= m.last
  {
    assert ValidSegment(m.segments[0]) && ValidSegment(m.segments[|m.segments| - 1]);
    if i > 0 { Ascending(m.segments, 0, i); }
    if i < |m.segments| - 1 { Ascending(m.segments, i, |m.segments| - 1); }
  }

  /** Verification decides readability: every segment passes if and only if every height reads as indexed. */
  lemma VerifiedIffReadable(env: Env, objects: Objects, m: Manifest)
    requires ValidManifest(m)
    ensures AllVerify(env, objects, m) <==> AllReadable(env, objects, m)
  {
    hide Verifies, ReadsAt, ReadsIndexed, ValidSegment;
    forall i | 0 <= i < |m.segments| ensures ValidSegment(m.segments[i]) && (Verifies(env, objects, m.segments[i]) <==> SegmentReadable(env, objects, m.segments[i])) {
      VerifiesIffReadable(env, objects, m.segments[i]);
    }
    if AllVerify(env, objects, m) {
      forall h | InRange(m, h) ensures ReadsAt(env, objects, m, h) {
        var i := FindSegment(m.segments, h);
        SegmentsRead(env, objects, m, i, h);
        assert m.segments[i] in m.segments;
      }
    }
    if AllReadable(env, objects, m) {
      forall s | s in m.segments ensures Verifies(env, objects, s) {
        var i :| 0 <= i < |m.segments| && m.segments[i] == s;
        forall h | Covers(s, h) ensures ReadsIndexed(env, objects, s, h) { SegmentsRead(env, objects, m, i, h); }
      }
    }
  }

  lemma SegmentPasses(env: Env, objects: Objects, m: Manifest, i: nat)
    requires ValidManifest(m) && i < |m.segments|
    ensures Verifies(env, objects, m.segments[i]) <==> SegmentReadable(env, objects, m.segments[i])
  {
    VerifiesIffReadable(env, objects, m.segments[i]);
  }

  predicate Known(fingerprint: Segment -> string, cache: Cache, s: Segment) {
    s.key in cache && cache[s.key] == fingerprint(s)
  }

  function Fingerprints(fingerprint: Segment -> string, segs: seq<Segment>): Cache {
    if segs == [] then map[]
    else Fingerprints(fingerprint, segs[..|segs| - 1])[segs[|segs| - 1].key := fingerprint(segs[|segs| - 1])]
  }

  /** Every remembered fingerprint belongs to a segment, seen before, that verifies. */
  ghost predicate CacheSound(env: Env, fingerprint: Segment -> string, objects: Objects, cache: Cache, seen: set<Segment>) {
    forall key :: key in cache ==>
      exists s :: s in seen && s.key == key && fingerprint(s) == cache[key] && Verifies(env, objects, s)
  }

  ghost predicate Unforged(fingerprint: Segment -> string, seen: set<Segment>) {
    forall s, t :: s in seen && t in seen && fingerprint(s) == fingerprint(t) ==> s == t
  }

  lemma {:induction false} FingerprintsOf(fingerprint: Segment -> string, segs: seq<Segment>, key: string)
    ensures key in Fingerprints(fingerprint, segs) <==> HasKey(segs, key)
    ensures key in Fingerprints(fingerprint, segs) ==>
              exists i :: 0 <= i < |segs| && segs[i].key == key && Fingerprints(fingerprint, segs)[key] == fingerprint(segs[i])
  {
    if segs != [] {
      var n := |segs| - 1;
      FingerprintsOf(fingerprint, segs[..n], key);
      assert forall i :: 0 <= i < n ==> segs[..n][i] == segs[i];
      if segs[n].key == key { assert segs[n].key == key; }
      if HasKey(segs[..n], key) { var i :| 0 <= i < n && segs[..n][i].key == key; assert segs[i].key == key; }
    }
  }

  lemma NoFingerprints(fingerprint: Segment -> string)
    ensures Fingerprints(fingerprint, []) == map[]
  {
  }

  /** A segment the cache knows has been verified as it stands. */
  lemma KnownVerifies(env: Env, fingerprint: Segment -> string, objects: Objects, cache: Cache, seen: set<Segment>, s: Segment)
    requires CacheSound(env, fingerprint, objects, cache, seen) && Unforged(fingerprint, seen) && s in seen
    requires Known(fingerprint, cache, s)
    ensures Verifies(env, objects, s)
  {
    var t :| t in seen && t.key == s.key && fingerprint(t) == cache[s.key] && Verifies(env, objects, t);
    assert t == s;
  }

  /** What one attempt answers and remembers, when nothing interrupts it. */
  ghost function Attempt(site: Site, fingerprint: Segment -> string, objects: Objects, cache: Cache): (Result<Manifest, VerifyError>, Cache) {
    match LoadManifest(site, objects)
    case Missing => (Err(ManifestMissing), cache)
    case Unreadable => (Err(ManifestBad), cache)
    case Found(m, _) =>
      if forall s :: s in m.segments && !Known(fingerprint, cache, s) ==> Verifies(site.env, objects, s)
      then (Ok(m), Fingerprints(fingerprint, m.segments))
      else (Err(SegmentBad), cache)
  }

  /** The manifest's segments, or nothing when there is none. */
  ghost function SegmentsAt(site: Site, objects: Objects): set<Segment> {
    var m := LoadManifest(site, objects);
    if m.Found? then set s | s in m.value.segments else {}
  }

  lemma AttemptVerifies(site: Site, fingerprint: Segment -> string, objects: Objects, cache: Cache, seen: set<Segment>)
    requires CacheSound(site.env, fingerprint, objects, cache, seen) && Unforged(fingerprint, seen)
    requires SegmentsAt(site, objects) <= seen
    ensures var m, (r, after) := LoadManifest(site, objects), Attempt(site, fingerprint, objects, cache);
            && (r.Ok? <==> m.Found? && AllVerify(site.env, objects, m.value))
            && (r.Ok? ==> r.value == m.value && forall key :: key in after <==> HasKey(m.value.segments, key))
            && (r.Err? ==> after == cache)
            && CacheSound(site.env, fingerprint, objects, after, seen)
  {
    var m := LoadManifest(site, objects);
    var (r, after) := Attempt(site, fingerprint, objects, cache);
    if m.Found? {
      hide Verifies;
      var segs := m.value.segments;
      assert forall s :: s in segs ==> s in SegmentsAt(site, objects);
      forall s | s in segs && Known(fingerprint, cache, s) ensures Verifies(site.env, objects, s) {
        KnownVerifies(site.env, fingerprint, objects, cache, seen, s);
      }
      if r.Ok? {
        forall key ensures key in after <==> HasKey(segs, key) { FingerprintsOf(fingerprint, segs, key); }
        forall key | key in after
          ensures exists s :: s in seen && s.key == key && fingerprint(s) == after[key] && Verifies(site.env, objects, s)
        {
          FingerprintsOf(fingerprint, segs, key);
          var i :| 0 <= i < |segs| && segs[i].key == key && after[key] == fingerprint(segs[i]);
          assert segs[i] in segs;
        }
      }
    }
  }

  /**
   One attempt from a sound cache: it succeeds if and only if every height of the
   manifest reads as the block its index names.  The new cache is sound, and after success it remembers exactly
   the keys of the manifest.
   */
  lemma AttemptIsFull(site: Site, fingerprint: Segment -> string, objects: Objects, cache: Cache, seen: set<Segment>)
    requires CacheSound(site.env, fingerprint, objects, cache, seen) && Unforged(fingerprint, seen)
    requires SegmentsAt(site, objects) <= seen
    ensures var m, (r, after) := LoadManifest(site, objects), Attempt(site, fingerprint, objects, cache);
            && (r.Ok? <==> m.Found? && AllReadable(site.env, objects, m.value))
            && (r.Ok? ==> r.value == m.value && forall key :: key in after <==> HasKey(m.value.segments, key))
            && (r.Err? ==> after == cache)
            && CacheSound(site.env, fingerprint, objects, after, seen)
  {
    hide CacheSound, Unforged, SegmentsAt, AllVerify, AllReadable, Attempt, ValidManifest;
    AttemptVerifies(site, fingerprint, objects, cache, seen);
    var m := LoadManifest(site, objects);
    if m.Found? { VerifiedIffReadable(site.env, objects, m.value); }
  }

  // ---------------------------------------------------------------- whole histories

  /** Stored segments are never touched again. */
  ghost predicate Immutable(site: Site, before: Objects, after: Objects) {
    forall k :: k in before && !Reserved(site, k) ==> k in after && after[k] == before[k]
  }

  lemma SoundLater(site: Site, fingerprint: Segment -> string, before: Objects, after: Objects, cache: Cache, seen: set<Segment>)
    requires CacheSound(site.env, fingerprint, before, cache, seen) && Immutable(site, before, after)
    requires forall s :: s in seen ==> !Reserved(site, s.key)
    ensures CacheSound(site.env, fingerprint, after, cache, seen)
  {
    forall key | key in cache
      ensures exists s :: s in seen && s.key == key && fingerprint(s) == cache[key] && Verifies(site.env, after, s)
    {
      var s :| s in seen && s.key == key && fingerprint(s) == cache[key] && Verifies(site.env, before, s);
      assert Verifies(site.env, after, s);
    }
  }

  /** Attempts on a changing store; an interrupted one fails and remembers what it knew. */
  ghost predicate Attempts(site: Site, fingerprint: Segment -> string, stores: seq<Objects>, interrupted: seq<bool>, caches: seq<Cache>) {
    && |stores| == |interrupted| && |caches| == |stores| + 1 && caches[0] == map[]
    && (forall i, j :: 0 <= i < j < |stores| && j == i + 1 ==> Immutable(site, stores[i], stores[j]))
    && (forall i :: 0 <= i < |stores| ==>
          caches[i + 1] == if interrupted[i] then caches[i] else Attempt(site, fingerprint, stores[i], caches[i]).1)
  }

  lemma {:induction false} CacheStaysSound(site: Site, fingerprint: Segment -> string, stores: seq<Objects>, interrupted: seq<bool>, caches: seq<Cache>, seen: set<Segment>, k: nat)
    requires Attempts(site, fingerprint, stores, interrupted, caches) && k < |stores|
    requires Unforged(fingerprint, seen) && forall s :: s in seen ==> !Reserved(site, s.key)
    requires forall i :: 0 <= i <= k ==> SegmentsAt(site, stores[i]) <= seen
    ensures CacheSound(site.env, fingerprint, stores[k], caches[k], seen)
  {
    hide Attempt, SegmentsAt;
    if k > 0 {
      CacheStaysSound(site, fingerprint, stores, interrupted, caches, seen, k - 1);
      AttemptIsFull(site, fingerprint, stores[k - 1], caches[k - 1], seen);
      assert caches[k] == if interrupted[k - 1] then caches[k - 1] else Attempt(site, fingerprint, stores[k - 1], caches[k - 1]).1;
      SoundLater(site, fingerprint, stores[k - 1], stores[k], caches[k], seen);
    }
  }

  /**
   Across any changes of the manifest and any failed attempts, an attempt of the
   incremental verifier succeeds if and only if a full verification would.
   */
  lemma IncrementalIsFull(site: Site, fingerprint: Segment -> string, stores: seq<Objects>, interrupted: seq<bool>, caches: seq<Cache>, seen: set<Segment>, k: nat)
    requires Attempts(site, fingerprint, stores, interrupted, caches) && k < |stores|
    requires Unforged(fingerprint, seen) && forall s :: s in seen ==> !Reserved(site, s.key)
    requires forall i :: 0 <= i <= k ==> SegmentsAt(site, stores[i]) <= seen
    ensures var m, (r, after) := LoadManifest(site, stores[k]), Attempt(site, fingerprint, stores[k], caches[k]);
            && (r.Ok? <==> m.Found? && AllReadable(site.env, stores[k], m.value))
            && (r.Ok? ==> r.value == m.value && forall key :: key in after <==> HasKey(m.value.segments, key))
  {
    CacheStaysSound(site, fingerprint, stores, interrupted, caches, seen, k);
    AttemptIsFull(site, fingerprint, stores[k], caches[k], seen);
  }

  // ---------------------------------------------------------------- the object

  class IncrementalVerifier {
    const site: Site
    const store: LocalObjectStore
    const fingerprint: Segment -> string
    var verified: Cache

    constructor (site: Site, store: LocalObjectStore, fingerprint: Segment -> string)
      ensures this.site == site && this.store == store && this.fingerprint == fingerprint && verified == map[]
    {
      this.site, this.store, this.fingerprint, verified := site, store, fingerprint, map[];
    }

    /** The segments still to be checked, and the fingerprints to remember on success. */
    method PendingSegments(m: Manifest) returns (pending: seq<int>, fingerprints: Cache)
      ensures fingerprints == Fingerprints(fingerprint, m.segments)
      ensures forall i :: i in pending <==> 0 <= i < |m.segments| && !Known(fingerprint, verified, m.segments[i])
    {
      pending, fingerprints := [], map[];
      var i := 0;
      while i < |m.segments|
        invariant 0 <= i <= |m.segments|
        invariant fingerprints == Fingerprints(fingerprint, m.segments[..i])
        invariant forall k :: k in pending <==> 0 <= k < i && !Known(fingerprint, verified, m.segments[k])
      {
        var s := m.segments[i];
        assert m.segments[..i + 1][..i] == m.segments[..i];
        fingerprints := fingerprints[s.key := fingerprint(s)];
        if s.key !in verified || verified[s.key] != fingerprint(s) { pending := pending + [i]; }
        i := i + 1;
      }
      assert m.segments[..i] == m.segments;
    }

    /** Checks the pending segments one by one; see `Pools` for the workers that share this. */
    method CheckPending(m: Manifest, pending: seq<int>, stop: Option<nat>) returns (e: Option<VerifyError>)
      requires ValidManifest(m) && forall i :: i in pending ==> 0 <= i < |m.segments|
      ensures e.None? ==> forall i :: i in pending ==> SegmentReadable(site.env, store.objects, m.segments[i])
      ensures e == Some(SegmentBad) ==> exists i :: i in pending && !SegmentReadable(site.env, store.objects, m.segments[i])
      ensures e.Some? ==> e.value == SegmentBad || (e.value == Stopped && stop.Some?)
    {
      hide Verifies, SegmentReadable, ValidSegment;
      for n := 0 to |pending|
        invariant forall i :: 0 <= i < |m.segments| && i in pending[..n] ==> SegmentReadable(site.env, store.objects, m.segments[i])
      {
        if stop == Some(n) { return Some(Stopped); }
        assert pending[n] in pending;
        SegmentPasses(site.env, store.objects, m, pending[n]);
        if !Verifies(site.env, store.objects, m.segments[pending[n]]) { return Some(SegmentBad); }
        assert pending[..n + 1] == pending[..n] + [pending[n]];
      }
      assert pending[..|pending|] == pending;
      return None;
    }

    /** One attempt; `stop` says before which pending segment the caller's context ends, if it does. */
    method Verify(stop: Option<nat>, ghost seen: set<Segment>) returns (r: Result<Manifest, VerifyError>)
      requires store.sha == site.env.sha
      requires CacheSound(site.env, fingerprint, store.objects, verified, seen) && Unforged(fingerprint, seen) && SegmentsAt(site, store.objects) <= seen
      modifies `verified
      ensures CacheSound(site.env, fingerprint, store.objects, verified, seen)
      ensures r.Ok? ==> LoadManifest(site, store.objects).Found? && r.value == LoadManifest(site, store.objects).value
      ensures r.Ok? ==> AllReadable(site.env, store.objects, r.value)
      ensures r == Err(SegmentBad) ==> LoadManifest(site, store.objects).Found? && !AllReadable(site.env, store.objects, LoadManifest(site, store.objects).value)
      ensures var (expected, after) := Attempt(site, fingerprint, store.objects, old(verified));
              if r == Err(Stopped) then verified == old(verified) else r == expected && verified == after
      ensures stop.None? ==> r != Err(Stopped)
    {
      hide Verifies, ValidManifest, Fingerprints, SegmentReadable, AllReadable, CacheSound, Unforged, SegmentsAt;
      AttemptIsFull(site, fingerprint, store.objects, verified, seen);
      var found := store.GetVersioned(site.manifestKey);
      if found.Err? { return Err(if found.error == NotFound then ManifestMissing else ManifestBad); }
      var parsed := site.parse(found.value.0);
      if parsed.None? { return Err(ManifestBad); }
      var m := parsed.value;
      var ok := Validate(m);
      if !ok { return Err(ManifestBad); }
      if |m.segments| == 0 {
        NoFingerprints(fingerprint);
        verified := map[];
        return Ok(m);
      }
      var pending, fingerprints := PendingSegments(m);
      var e := CheckPending(m, pending, stop);
      if e.Some? {
        if e.value == SegmentBad {
          ghost var i :| i in pending && !SegmentReadable(site.env, store.objects, m.segments[i]);
          SegmentPasses(site.env, store.objects, m, i);
          assert m.segments[i] in m.segments;
        }
        return Err(e.value);
      }
      forall s | s in m.segments && !Known(fingerprint, verified, s) ensures Verifies(site.env, store.objects, s) {
        var k :| 0 <= k < |m.segments| && m.segments[k] == s;
        assert k in pending;
        SegmentPasses(site.env, store.objects, m, k);
      }
      verified := fingerprints;
      return Ok(m);
    }
  }
}
