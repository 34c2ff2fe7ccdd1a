/** The archive manifest: an index of immutable segments over one contiguous height range. */
module Manifests {
  import opened Common

  const VERSION: int := 1
  const MAX_SEGMENT_BLOCKS: int := 1000
  const HASH_LEN: int := 64

  datatype Compression = Plain | Gzip | Unknown(name: string)

  datatype BlockIndex = BlockIndex(height: int, hash: string, offset: int)

  datatype Segment = Segment(
    key: string,
    first: int,
    last: int,
    compression: Compression,
    size: int,
    sha: string,
    blocks: seq<BlockIndex>)

  datatype Manifest = Manifest(version: int, chainID: string, first: int, last: int, segments: seq<Segment>)

  // ---------------------------------------------------------------- names

  function UpToSlash(s: string): (n: nat)
    ensures n <= |s|
  {
    if s == "" || s[0] == '/' then 0 else 1 + UpToSlash(s[1..])
  }

  predicate GoodParts(s: string)
    decreases |s|
  {
    var n := UpToSlash(s);
    var part := s[..n];
    part != "" && part != "." && part != ".." && (n < |s| ==> GoodParts(s[n + 1..]))
  }

  predicate ValidKey(key: string) { key != "" && '\\' !in key && GoodParts(key) }

  predicate IsSpace(c: char) { c == ' ' || c == '\t' || c == '\n' || c == '\r' }

  predicate ValidChainID(id: string) {
    && id != "" && !IsSpace(id[0]) && !IsSpace(id[|id| - 1])
    && '/' !in id && '\\' !in id
    && ValidKey("chains/" + id + "/blocks")
  }

  lemma OnePart(part: string)
    requires '/' !in part && part != "" && part != "." && part != ".."
    ensures GoodParts(part)
  {
    assert part[..|part|] == part;
    Part(part, |part|);
  }

  lemma MoreParts(part: string, rest: string)
    requires '/' !in part && part != "" && part != "." && part != ".." && GoodParts(rest)
    ensures GoodParts(part + "/" + rest)
  {
    var s := part + "/" + rest;
    assert s[..|part|] == part && s[|part| + 1..] == rest;
    Part(s, |part|);
  }

  lemma {:induction false} Part(s: string, n: nat)
    requires n <= |s| && '/' !in s[..n] && (n < |s| ==> s[n] == '/')
    ensures UpToSlash(s) == n
    decreases n
  {
    if n > 0 {
      assert s[0] == s[..n][0];
      assert s[1..][..n - 1] == s[..n][1..];
      Part(s[1..], n - 1);
    }
  }

  /** A name without slashes will do as a key and as a chain. */
  lemma PlainName(name: string)
    requires name != "" && name != "." && name != ".." && '/' !in name && '\\' !in name && !IsSpace(name[0]) && !IsSpace(name[|name| - 1])
    ensures ValidKey(name) && ValidChainID(name)
  {
    hide GoodParts;
    OnePart(name);
    OnePart("blocks");
    MoreParts(name, "blocks");
    MoreParts("chains", name + "/" + "blocks");
    assert "chains/" + name + "/blocks" == "chains" + "/" + (name + "/" + "blocks");
  }

  predicate IsHex(s: string) {
    forall c :: c in s ==> '0' <= c <= '9' || 'a' <= c <= 'f' || 'A' <= c <= 'F'
  }

  predicate IsHash(s: string) { |s| == HASH_LEN && IsHex(s) }

  // ---------------------------------------------------------------- segments

  predicate ValidSegment(s: Segment) {
    && ValidKey(s.key)
    && 0 < s.first <= s.last && s.last != MAX_INT64
    && !s.compression.Unknown?
    && s.size > 0
    && IsHash(s.sha)
    && s.last - s.first < MAX_SEGMENT_BLOCKS
    && |s.blocks| == s.last - s.first + 1
    && forall i :: 0 <= i < |s.blocks| ==> s.blocks[i].height == s.first + i && IsHash(s.blocks[i].hash)
  }

  predicate Covers(s: Segment, h: int) { s.first <= h <= s.last }

  /** Valid segments, each starting right after the one before. */
  ghost predicate Contiguous(segs: seq<Segment>) {
    && (forall i :: 0 <= i < |segs| ==> ValidSegment(segs[i]))
    && (forall i, j :: 0 <= i < j < |segs| && j == i + 1 ==> segs[j].first == segs[i].last + 1)
  }

  ghost predicate DistinctKeys(segs: seq<Segment>) {
    forall i, j :: 0 <= i < j < |segs| ==> segs[i].key != segs[j].key
  }

  ghost predicate ValidManifest(m: Manifest) {
    && m.version == VERSION && ValidChainID(m.chainID)
    && (m.segments == [] ==> m.first == 0 && m.last == 0)
    && (m.segments != [] ==>
          && m.segments[0].first == m.first
          && m.segments[|m.segments| - 1].last == m.last
          && Contiguous(m.segments) && DistinctKeys(m.segments))
  }

  predicate InRange(m: Manifest, h: int) { m.segments != [] && m.first <= h <= m.last }

  lemma {:induction false} Ascending(segs: seq<Segment>, i: nat, j: nat)
    requires Contiguous(segs) && i < j < |segs|
    ensures segs[i].last < segs[j].first
  {
    if j > i + 1 {
      Ascending(segs, i, j - 1);
      assert ValidSegment(segs[j - 1]);
    }
  }

  lemma ValidRange(m: Manifest)
    requires ValidManifest(m) && m.segments != []
    ensures 0 < m.first <= m.last
  {
    assert ValidSegment(m.segments[0]) && ValidSegment(m.segments[|m.segments| - 1]);
    if |m.segments| > 1 { Ascending(m.segments, 0, |m.segments| - 1); }
  }

  ghost predicate ScannedTo(segs: seq<Segment>, n: nat)
    requires n <= |segs|
  {
    && (forall i :: 0 <= i < n ==> ValidSegment(segs[i]))
    && (forall i, j :: 0 <= i < j < n && j == i + 1 ==> segs[j].first == segs[i].last + 1)
    && (forall i, j :: 0 <= i < j < n ==> segs[i].key != segs[j].key)
  }

  /** The validation scan, with its running height and set of seen keys, accepts exactly the valid manifests. */
  method Validate(m: Manifest) returns (ok: bool)
    ensures ok <==> ValidManifest(m)
  {
    if m.version != VERSION || !ValidChainID(m.chainID) { return false; }
    if |m.segments| == 0 { return m.first == 0 && m.last == 0; }
    if m.first <= 0 || m.last < m.first {
      if ValidManifest(m) { ValidRange(m); }
      return false;
    }
    var end := ScanSegments(m.segments, m.first);
    return end.Some? && end.value - 1 == m.last;
  }

  lemma ScanRefuses(segs: seq<Segment>, i: nat, first: int)
    requires i < |segs| && Contiguous(segs) && DistinctKeys(segs) && segs[0].first == first
    ensures ValidSegment(segs[i]) && segs[i].first == (if i == 0 then first else segs[i - 1].last + 1)
    ensures forall j :: 0 <= j < i ==> segs[j].key != segs[i].key
  {
    hide ValidSegment;
  }

  lemma ScannedOneMore(segs: seq<Segment>, i: nat)
    requires i < |segs| && ScannedTo(segs, i) && ValidSegment(segs[i]) && (i > 0 ==> segs[i].first == segs[i - 1].last + 1)
    requires forall j :: 0 <= j < i ==> segs[j].key != segs[i].key
    ensures ScannedTo(segs, i + 1)
  {
    hide ValidSegment;
  }

  lemma ScannedAll(segs: seq<Segment>)
    requires ScannedTo(segs, |segs|)
    ensures Contiguous(segs) && DistinctKeys(segs)
  {
    hide ValidSegment;
  }

  /** The scan itself; on success, the height after the last segment. */
  method ScanSegments(segs: seq<Segment>, first: int) returns (end: Option<int>)
    requires segs != []
    ensures end.Some? <==> Contiguous(segs) && DistinctKeys(segs) && segs[0].first == first
    ensures end.Some? ==> end.value == segs[|segs| - 1].last + 1
  {
    hide ValidSegment, Contiguous, DistinctKeys, ScannedTo;
    var expected, seen, i := first, {}, 0;
    assert ScannedTo(segs, 0) by { NothingScanned(segs); }
    while i < |segs|
      invariant 0 <= i <= |segs|
      invariant ScannedTo(segs, i)
      invariant forall key :: key in seen <==> exists j :: 0 <= j < i && segs[j].key == key
      invariant expected == if i == 0 then first else segs[i - 1].last + 1
      invariant i > 0 ==> segs[0].first == first
    {
      var s := segs[i];
      if !ValidSegment(s) || s.key in seen || s.first != expected {
        if Contiguous(segs) && DistinctKeys(segs) && segs[0].first == first { ScanRefuses(segs, i, first); }
        return None;
      }
      ScannedOneMore(segs, i);
      seen := seen + {s.key};
      expected := s.last + 1;
      i := i + 1;
    }
    ScannedAll(segs);
    return Some(expected);
  }

  lemma NothingScanned(segs: seq<Segment>)
    ensures ScannedTo(segs, 0)
  {
  }

  // ---------------------------------------------------------------- lookup

  /** Every height in a valid manifest's range lies in exactly one segment. */
  lemma {:induction false} FindSegment(segs: seq<Segment>, h: int) returns (i: nat)
    requires Contiguous(segs) && segs != [] && segs[0].first <= h <= segs[|segs| - 1].last
    ensures i < |segs| && Covers(segs[i], h)
    ensures forall j :: 0 <= j < |segs| && Covers(segs[j], h) ==> j == i
    decreases |segs|
  {
    var n := |segs| - 1;
    if segs[n].first <= h {
      i := n;
    } else {
      var init := segs[..n];
      assert n > 0 && segs[n].first == segs[n - 1].last + 1;
      assert init[n - 1] == segs[n - 1];
      i := FindSegment(init, h);
    }
    forall j | 0 <= j < |segs| && Covers(segs[j], h) ensures j == i {
      if j < i { Ascending(segs, j, i); } else if i < j { Ascending(segs, i, j); }
    }
  }

  /** The segment covering `h`, by a plain scan. */
  function Lookup(segs: seq<Segment>, h: int): Option<Segment> {
    if segs == [] then None
    else if Covers(segs[|segs| - 1], h) then Some(segs[|segs| - 1])
    else Lookup(segs[..|segs| - 1], h)
  }

  lemma {:induction false} LookupIsOne(segs: seq<Segment>, h: int)
    ensures Lookup(segs, h).Some? ==> Lookup(segs, h).value in segs
  {
    if segs != [] { LookupIsOne(segs[..|segs| - 1], h); }
  }

  lemma {:induction false} LookupFinds(segs: seq<Segment>, h: int, i: nat)
    requires Contiguous(segs) && i < |segs| && Covers(segs[i], h)
    ensures Lookup(segs, h) == Some(segs[i])
  {
    var n := |segs| - 1;
    if i < n {
      Ascending(segs, i, n);
      assert segs[..n][i] == segs[i];
      LookupFinds(segs[..n], h, i);
    }
  }

  lemma {:induction false} LookupMisses(segs: seq<Segment>, h: int)
    requires forall i :: 0 <= i < |segs| ==> !Covers(segs[i], h)
    ensures Lookup(segs, h) == None
  {
    if segs != [] {
      assert forall i :: 0 <= i < |segs| - 1 ==> segs[..|segs| - 1][i] == segs[i];
      LookupMisses(segs[..|segs| - 1], h);
    }
  }

  /** The binary search of the cold reader finds what the plain scan finds. */
  method SegmentForHeight(segs: seq<Segment>, h: int) returns (r: Option<Segment>)
    requires Contiguous(segs)
    ensures r == Lookup(segs, h)
  {
    var i, j := 0, |segs|;
    while i < j
      invariant 0 <= i <= j <= |segs|
      invariant forall x :: 0 <= x < i ==> segs[x].last < h
      invariant forall x :: j <= x < |segs| ==> h <= segs[x].last
    {
      var mid := (i + j) / 2;
      if segs[mid].last < h {
        forall x | 0 <= x <= mid ensures segs[x].last < h {
          if x < mid { Ascending(segs, x, mid); assert ValidSegment(segs[mid]); }
        }
        i := mid + 1;
      } else {
        forall x | mid <= x < |segs| ensures h <= segs[x].last {
          if mid < x { Ascending(segs, mid, x); assert ValidSegment(segs[x]); }
        }
        j := mid;
      }
    }
    if i < |segs| && Covers(segs[i], h) {
      LookupFinds(segs, h, i);
      return Some(segs[i]);
    }
    forall x | 0 <= x < |segs| ensures !Covers(segs[x], h) {
      if i < x { Ascending(segs, i, x); }
    }
    LookupMisses(segs, h);
    return None;
  }

  // ---------------------------------------------------------------- growing a manifest

  function Append(m: Manifest, s: Segment): Option<Manifest> {
    if !ValidSegment(s) then None
    else if m.segments == [] then Some(Manifest(m.version, m.chainID, s.first, s.last, [s]))
    else
      var prev := m.segments[|m.segments| - 1];
      if s.first != prev.last + 1 || s.key == prev.key then None
      else Some(m.(last := s.last, segments := m.segments + [s]))
  }

  ghost predicate HasKey(segs: seq<Segment>, key: string) {
    exists i :: 0 <= i < |segs| && segs[i].key == key
  }

  /**
   Appending compares the new key with the last one only.  The grown manifest is valid
   if and only if no earlier segment has that key; saving it makes sure.
   */
  lemma AppendIsValidIff(m: Manifest, s: Segment)
    requires ValidManifest(m) && Append(m, s).Some?
    ensures var g := Append(m, s).value;
            && g.segments == m.segments + [s] && g.chainID == m.chainID && g.last == s.last
            && (m.segments != [] ==> g.first == m.first && g.last >= m.last)
            && (ValidManifest(g) <==> !HasKey(m.segments, s.key))
  {
    var g := Append(m, s).value;
    var n := |m.segments|;
    assert forall i :: 0 <= i < n ==> g.segments[i] == m.segments[i];
    assert g.segments[n] == s;
    if HasKey(m.segments, s.key) {
      var i :| 0 <= i < n && m.segments[i].key == s.key;
      assert g.segments[i].key == g.segments[n].key;
    }
  }

  /** Whatever continues the manifest is appended: if one more segment makes a valid manifest, appending yields it. */
  lemma AppendIsComplete(m: Manifest, s: Segment, g: Manifest)
    requires ValidManifest(m) && ValidManifest(g) && g.chainID == m.chainID && g.segments == m.segments + [s]
    ensures Append(m, s) == Some(g)
  {
    hide ValidChainID;
    var n := |m.segments|;
    assert g.segments[n] == s && ValidSegment(g.segments[n]);
    hide ValidSegment;
    if n > 0 {
      assert g.segments[n - 1] == m.segments[n - 1] && g.segments[0] == m.segments[0];
      assert g.segments[n].first == g.segments[n - 1].last + 1 && g.segments[n].key != g.segments[n - 1].key;
    } else {
      assert [] + [s] == [s];
    }
  }

  function OneBlock(h: int, key: string): Segment {
    Segment(key, h, h, Plain, 1, seq(HASH_LEN, i => '0'), [BlockIndex(h, seq(HASH_LEN, i => '0'), 0)])
  }

  lemma OneBlockIsValid(h: int, key: string)
    requires ValidKey(key) && 0 < h < MAX_INT64
    ensures ValidSegment(OneBlock(h, key))
  {
    hide ValidKey;
    assert IsHash(OneBlock(h, key).sha);
  }

  lemma ThirdRepeatsFirst(chainID: string, a: Segment, b: Segment, c: Segment)
    requires ValidChainID(chainID) && ValidSegment(a) && ValidSegment(b) && ValidSegment(c) && b.first == a.last + 1 && c.first == b.last + 1
    requires a.key != b.key && c.key == a.key
    ensures var m := Manifest(VERSION, chainID, a.first, b.last, [a, b]); ValidManifest(m) && Append(m, c).Some? && !ValidManifest(Append(m, c).value)
  {
    hide ValidChainID, ValidSegment;
    var g := Append(Manifest(VERSION, chainID, a.first, b.last, [a, b]), c).value;
    assert g.segments[0].key == g.segments[2].key;
  }

  /** That does happen: the third of three segments takes the first one's key, and is appended. */
  lemma AppendCanRepeatAKey() returns (m: Manifest, s: Segment)
    ensures ValidManifest(m) && ValidSegment(s) && Append(m, s).Some? && !ValidManifest(Append(m, s).value)
  {
    hide ValidKey, ValidChainID, ValidSegment, ValidManifest, Append;
    PlainName("x");
    PlainName("a");
    PlainName("b");
    OneBlockIsValid(1, "a");
    OneBlockIsValid(2, "b");
    OneBlockIsValid(3, "a");
    assert "a"[0] != "b"[0];
    m, s := Manifest(VERSION, "x", 1, 2, [OneBlock(1, "a"), OneBlock(2, "b")]), OneBlock(3, "a");
    ThirdRepeatsFirst("x", OneBlock(1, "a"), OneBlock(2, "b"), s);
  }

  /** A new manifest sorts its segments by first height. */
  function Insert(s: Segment, segs: seq<Segment>): seq<Segment> {
    if segs == [] || s.first <= segs[0].first then [s] + segs else [segs[0]] + Insert(s, segs[1..])
  }

  function SortByFirst(segs: seq<Segment>): seq<Segment> {
    if segs == [] then [] else Insert(segs[0], SortByFirst(segs[1..]))
  }

  function NewManifest(chainID: string, segs: seq<Segment>): Manifest {
    var sorted := SortByFirst(segs);
    if sorted == [] then Manifest(VERSION, chainID, 0, 0, [])
    else Manifest(VERSION, chainID, sorted[0].first, sorted[|sorted| - 1].last, sorted)
  }

  lemma {:induction false} SortedStays(segs: seq<Segment>)
    requires forall i, j :: 0 <= i < j < |segs| ==> segs[i].first <= segs[j].first
    ensures SortByFirst(segs) == segs
  {
    if segs != [] {
      SortedStays(segs[1..]);
      assert segs == [segs[0]] + segs[1..];
    }
  }

  lemma {:induction false} InsertAdds(s: Segment, segs: seq<Segment>)
    ensures multiset(Insert(s, segs)) == multiset(segs) + multiset{s}
    decreases |segs|
  {
    if segs != [] && s.first > segs[0].first {
      InsertAdds(s, segs[1..]);
      assert segs == [segs[0]] + segs[1..];
    }
  }

  ghost predicate Ordered(segs: seq<Segment>) { forall i, j :: 0 <= i < j < |segs| ==> segs[i].first <= segs[j].first }

  lemma OrderedCons(s: Segment, segs: seq<Segment>)
    requires Ordered(segs) && forall x :: x in segs ==> s.first <= x.first
    ensures Ordered([s] + segs)
  {
  }

  lemma {:induction false} InsertSorts(s: Segment, segs: seq<Segment>)
    requires Ordered(segs)
    ensures multiset(Insert(s, segs)) == multiset(segs) + multiset{s} && Ordered(Insert(s, segs))
    decreases |segs|
  {
    InsertAdds(s, segs);
    if segs != [] && s.first > segs[0].first {
      InsertSorts(s, segs[1..]);
      var rest := Insert(s, segs[1..]);
      forall x | x in rest ensures segs[0].first <= x.first {
        assert x in multiset(rest);
        assert x == s || x in segs[1..];
      }
      OrderedCons(segs[0], rest);
    }
  }

  /** Sorting keeps the segments and orders them. */
  lemma {:induction false} SortSorts(segs: seq<Segment>)
    ensures var r := SortByFirst(segs);
            multiset(r) == multiset(segs) && Ordered(r)
  {
    if segs != [] {
      SortSorts(segs[1..]);
      InsertSorts(segs[0], SortByFirst(segs[1..]));
      assert segs == [segs[0]] + segs[1..];
    }
  }
}
