/** Pruning the hot store behind a verified manifest. */
module Pruning {
  import opened Common
  import opened Chain
  import opened Manifests
  import opened Segments
  import Ingest

  datatype PruneError = BadRetain | ArchiveStartsLate | WrongChain | OutsideArchive | NoIndex | HashMismatch

  function Lower(c: char): char { if 'A' <= c <= 'Z' then c + ('a' - 'A') else c }

  /** Equal up to the case of the hex digits. */
  predicate EqualFold(a: string, b: string) { |a| == |b| && forall i :: 0 <= i < |a| ==> Lower(a[i]) == Lower(b[i]) }

  /** The new base: below it everything is archived, and `retain` blocks stay above it. */
  function PruneTo(st: Store, m: Manifest, retain: int): int { Min(st.Height() - retain + 1, m.last + 1) }

  /** The block just below the new base is indexed in the archive under its own hash and chain. */
  predicate BoundaryMatches(env: Env, st: Store, m: Manifest, h: int) {
    && st.Has(st.Height()) && st.Load(st.Height()).value.header.chainID == m.chainID
    && m.first <= h <= m.last && st.Has(h)
    && var s := Lookup(m.segments, h);
    && s.Some? && h - s.value.first < |s.value.blocks| && 0 <= h - s.value.first
    && EqualFold(env.blockHash(st.Load(h).value), s.value.blocks[h - s.value.first].hash)
  }

  predicate NothingToPrune(st: Store, m: Manifest, retain: int) { st.blocks == [] || PruneTo(st, m, retain) <= st.base }

  /** What a prune leaves behind, or nothing when it is refused. */
  function Pruned(env: Env, st: Store, m: Manifest, retain: int): Option<Store> {
    if retain <= 0 then None
    else if NothingToPrune(st, m, retain) then Some(st)
    else if m.first <= st.base && BoundaryMatches(env, st, m, PruneTo(st, m, retain) - 1) then Some(st.Prune(PruneTo(st, m, retain)))
    else None
  }

  /**
   A prune drops only heights the manifest covers, keeps every other block in place, and
   leaves at least `retain` blocks where there were that many.
   */
  lemma PruneIsCovered(env: Env, st: Store, m: Manifest, retain: int)
    requires Pruned(env, st, m, retain).Some? && st.Valid()
    ensures var t := Pruned(env, st, m, retain).value;
            && t.Valid() && t.Height() == st.Height()
            && (forall h :: t.Has(h) ==> st.Has(h) && t.Load(h) == st.Load(h))
            && (forall h :: st.Has(h) && !t.Has(h) ==> m.first <= h <= m.last)
            && |t.blocks| >= Min(|st.blocks|, retain)
            && (t != st ==> EqualFold(env.blockHash(st.Load(t.base - 1).value), Lookup(m.segments, t.base - 1).value.blocks[t.base - 1 - Lookup(m.segments, t.base - 1).value.first].hash))
  {
    hide EqualFold, Lookup;
    var t := Pruned(env, st, m, retain).value;
    if t != st {
      var k := t.base - st.base;
      assert t.blocks == st.blocks[k..];
      assert forall i :: 0 <= i < |t.blocks| ==> t.blocks[i] == st.blocks[k + i];
    }
  }

  /** A store that starts at `b` keeps `retain` blocks, and everything below `b` is within the archive's reach. */
  predicate MayStartAt(st: Store, m: Manifest, retain: int, b: int) {
    st.base <= b <= st.Height() && st.Height() - b + 1 >= retain && b - 1 <= m.last
  }

  /** How many blocks a prune has to keep: those to retain, and those above the archive. */
  function ToKeep(st: Store, m: Manifest, retain: int): int { Max(retain, st.Height() - m.last) }

  /** The manifest is of the store's chain, and one of its segments has the stored block at `h` under its hash. */
  ghost predicate Archives(env: Env, st: Store, m: Manifest, h: int) {
    && st.Has(h) && st.Load(st.Height()).Some? && st.Load(st.Height()).value.header.chainID == m.chainID
    && exists i :: 0 <= i < |m.segments| && IndexedIn(env, m.segments[i], h, st.Load(h).value)
  }

  ghost predicate IndexedIn(env: Env, s: Segment, h: int, b: Block) {
    Covers(s, h) && 0 <= h - s.first < |s.blocks| && EqualFold(env.blockHash(b), s.blocks[h - s.first].hash)
  }

  lemma BoundaryIff(env: Env, st: Store, m: Manifest, h: int)
    requires ValidManifest(m)
    ensures BoundaryMatches(env, st, m, h) <==> Archives(env, st, m, h)
  {
    hide EqualFold, ValidSegment, Lookup, ValidChainID;
    if BoundaryMatches(env, st, m, h) {
      if m.segments == [] { NoLookup(h); }
      var i := FindSegment(m.segments, h);
      LookupFinds(m.segments, h, i);
      assert IndexedIn(env, m.segments[i], h, st.Load(h).value);
    }
    if Archives(env, st, m, h) {
      var i :| 0 <= i < |m.segments| && IndexedIn(env, m.segments[i], h, st.Load(h).value);
      LookupFinds(m.segments, h, i);
      SegmentsInOrder(m, i);
    }
  }

  lemma NoLookup(h: int)
    ensures Lookup([], h).None?
  {
  }

  lemma SegmentsInOrder(m: Manifest, i: nat)
    requires ValidManifest(m) && i < |m.segments|
    ensures m.first <= m.segments[i].first && m.segments[i].last <= m.last
  {
    assert ValidSegment(m.segments[0]) && ValidSegment(m.segments[i]) && ValidSegment(m.segments[|m.segments| - 1]);
    if i > 0 { Ascending(m.segments, 0, i); }
    if i < |m.segments| - 1 { Ascending(m.segments, i, |m.segments| - 1); }
  }

  /**
   A prune goes as far as it may.  Exactly the blocks to keep are left, if there were more:
   no larger base would leave `retain` blocks and stay behind the archive.  It is refused
   only over a bad `retain`, or when there is something to drop and the archive starts above
   the base or has another block just below the blocks to keep.
   */
  lemma PruneIsExact(env: Env, st: Store, m: Manifest, retain: int)
    requires st.Valid() && ValidManifest(m)
    ensures var t := Pruned(env, st, m, retain);
            t.Some? ==>
              && |t.value.blocks| == Min(|st.blocks|, ToKeep(st, m, retain))
              && (forall b :: MayStartAt(st, m, retain, b) ==> b <= t.value.base)
              && (t.value != st ==> MayStartAt(st, m, retain, t.value.base))
    ensures Pruned(env, st, m, retain).None? <==>
              || retain <= 0
              || (|st.blocks| > ToKeep(st, m, retain) &&
                  (m.first > st.base || !Archives(env, st, m, st.Height() - ToKeep(st, m, retain))))
  {
    hide BoundaryMatches, Archives;
    BoundaryIff(env, st, m, st.Height() - ToKeep(st, m, retain));
  }

  /** The boundary check, with the search for the covering segment. */
  method ValidatePruneBoundary(env: Env, st: Store, m: Manifest, chainID: string, h: int) returns (e: Option<PruneError>)
    requires ValidManifest(m) && st.Has(h) && st.Has(st.Height()) && st.Load(st.Height()).value.header.chainID == chainID
    ensures e.None? <==> BoundaryMatches(env, st, m, h)
  {
    if m.chainID != chainID { return Some(WrongChain); }
    if h < m.first || h > m.last { return Some(OutsideArchive); }
    if |m.segments| == 0 { return Some(NoIndex); }
    var s := SegmentForHeight(m.segments, h);
    if s.None? { return Some(NoIndex); }
    var index := h - s.value.first;
    if index < 0 || index >= |s.value.blocks| { return Some(NoIndex); }
    if !EqualFold(env.blockHash(st.Load(h).value), s.value.blocks[index].hash) { return Some(HashMismatch); }
    return None;
  }

  method PruneHotStore(env: Env, ingestor: Ingest.HotIngestor, m: Manifest, retain: int) returns (r: Result<int, PruneError>)
    requires ValidManifest(m) && ingestor.store.Valid()
    modifies ingestor`store
    ensures var t := Pruned(env, old(ingestor.store), m, retain);
            if t.Some? then ingestor.store == t.value && r == Ok(ingestor.store.base - old(ingestor.store.base))
            else ingestor.store == old(ingestor.store) && r.Err?
    ensures r.Ok? ==> |ingestor.store.blocks| == Min(|old(ingestor.store).blocks|, ToKeep(old(ingestor.store), m, retain))
    ensures r == Ok(0) <==> retain > 0 && |old(ingestor.store).blocks| <= ToKeep(old(ingestor.store), m, retain)
  {
    hide BoundaryMatches;
    var st := ingestor.store;
    if retain <= 0 { return Err(BadRetain); }
    var base, head := st.base, st.Height();
    if base == 0 || head == 0 { return Ok(0); }
    var pruneTo := Min(head - retain + 1, m.last + 1);
    if pruneTo <= base { return Ok(0); }
    if pruneTo > head { pruneTo := head; }
    if m.first > base { return Err(ArchiveStartsLate); }
    var e := ValidatePruneBoundary(env, st, m, st.Load(head).value.header.chainID, pruneTo - 1);
    if e.Some? { return Err(e.value); }
    ingestor.store := st.Prune(pruneTo);
    return Ok(pruneTo - base);
  }
}
