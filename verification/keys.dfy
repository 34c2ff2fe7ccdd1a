/** The names of stored objects. */
module Keys {
  import opened Common
  import opened Manifests

  const SHORT_HASH: nat := 16

  function Digit(d: nat): char
    requires d < 10
  {
    '0' + d as char
  }

  function Digits(n: nat): (s: string)
    ensures s != "" && forall c :: c in s ==> '0' <= c <= '9'
  {
    if n < 10 then [Digit(n)] else Digits(n / 10) + [Digit(n % 10)]
  }

  function Zeros(k: nat): (s: string)
    ensures forall c :: c in s ==> c == '0'
  {
    if k == 0 then "" else Zeros(k - 1) + "0"
  }

  /** Decimal, with leading zeros up to width 12, a sign included. */
  function Pad12(n: int): string {
    if n < 0 then "-" + Padded(-n, 11) else Padded(n, 12)
  }

  function Padded(n: nat, width: nat): (s: string)
    ensures '-' !in s
  {
    Zeros(Max(width - |Digits(n)|, 0)) + Digits(n)
  }

  function Value(s: string): int {
    if s == "" then 0 else 10 * Value(s[..|s| - 1]) + (s[|s| - 1] as int - '0' as int)
  }

  lemma {:induction false} ZerosCount(k: nat)
    ensures Value(Zeros(k)) == 0
  {
    if k > 0 {
      ZerosCount(k - 1);
      assert Zeros(k)[..|Zeros(k)| - 1] == Zeros(k - 1);
    }
  }

  lemma ValueSnoc(s: string, d: nat)
    requires d < 10
    ensures Value(s + [Digit(d)]) == 10 * Value(s) + d
  {
    assert (s + [Digit(d)])[..|s|] == s;
  }

  lemma {:induction false} PaddedValue(k: nat, n: nat)
    ensures Value(Zeros(k) + Digits(n)) == n
    decreases n
  {
    hide Value, Digit;
    if n < 10 {
      ZerosCount(k);
      ValueSnoc(Zeros(k), n);
    } else {
      var q, r := n / 10, n % 10;
      PaddedValue(k, q);
      ValueSnoc(Zeros(k) + Digits(q), r);
      assert Zeros(k) + Digits(n) == (Zeros(k) + Digits(q)) + [Digit(r)];
    }
  }

  lemma PadTells(a: int, b: int)
    requires a >= 0 && b >= 0 && Pad12(a) == Pad12(b)
    ensures a == b
  {
    hide Value, Digits, Zeros;
    PaddedValue(Max(12 - |Digits(a)|, 0), a);
    PaddedValue(Max(12 - |Digits(b)|, 0), b);
  }

  /** Two names that agree and whose first parts lack the separator have the same parts. */
  lemma SplitAt(sep: char, a: string, b: string, x: string, y: string)
    requires sep !in a && sep !in b && a + [sep] + x == b + [sep] + y
    ensures a == b && x == y
  {
    var s, t := a + [sep] + x, b + [sep] + y;
    assert s[|a|] == sep && t[|b|] == sep;
    assert forall i :: 0 <= i < |a| ==> s[i] == a[i] && s[i] != sep;
    assert forall i :: 0 <= i < |b| ==> t[i] == b[i] && t[i] != sep;
    assert s[..|a|] == a && t[..|b|] == b;
    assert s[|a| + 1..] == x && t[|b| + 1..] == y;
  }

  /** Everything about a chain lives under its own root. */
  function Under(prefix: string, chainID: string, name: string): string { prefix + "/chains/" + (chainID + ['/'] + name) }

  function RangeName(s: Segment): string {
    Pad12(s.first) + ['-'] + (Pad12(s.last) + ['-'] + (s.sha[..Min(|s.sha|, SHORT_HASH)] + ".cba"))
  }

  function SegmentKey(prefix: string, chainID: string, s: Segment): string { Under(prefix, chainID, "segments/" + RangeName(s)) }

  function ManifestKey(prefix: string, chainID: string, name: string): string { Under(prefix, chainID, "manifests/" + name) }

  function StateKey(prefix: string, chainID: string, name: string): string { Under(prefix, chainID, "migration/" + name + ".state.json") }

  function LegacyStateKey(prefix: string, chainID: string): string { Under(prefix, chainID, "migration/state.json") }

  lemma UnderTells(prefix: string, a: string, b: string, x: string, y: string)
    requires '/' !in a && '/' !in b && Under(prefix, a, x) == Under(prefix, b, y)
    ensures a == b && x == y
  {
    var n := |prefix + "/chains/"|;
    assert Under(prefix, a, x)[n..] == a + ['/'] + x && Under(prefix, b, y)[n..] == b + ['/'] + y;
    SplitAt('/', a, b, x, y);
  }

  /** A segment's key gives away its height range: segments of different ranges never share a key. */
  lemma KeyTellsRange(prefix: string, chainID: string, s: Segment, t: Segment)
    requires '/' !in chainID && SegmentKey(prefix, chainID, s) == SegmentKey(prefix, chainID, t)
    requires s.first >= 0 && t.first >= 0
    ensures s.first == t.first && (s.last >= 0 && t.last >= 0 ==> s.last == t.last)
  {
    hide Under, Pad12;
    var a, b := s.sha[..Min(|s.sha|, SHORT_HASH)] + ".cba", t.sha[..Min(|t.sha|, SHORT_HASH)] + ".cba";
    UnderTells(prefix, chainID, chainID, "segments/" + RangeName(s), "segments/" + RangeName(t));
    assert ("segments/" + RangeName(s))[9..] == RangeName(s) && ("segments/" + RangeName(t))[9..] == RangeName(t);
    NoSign(s.first);
    NoSign(t.first);
    SplitAt('-', Pad12(s.first), Pad12(t.first), Pad12(s.last) + ['-'] + a, Pad12(t.last) + ['-'] + b);
    PadTells(s.first, t.first);
    if s.last >= 0 && t.last >= 0 {
      NoSign(s.last);
      NoSign(t.last);
      SplitAt('-', Pad12(s.last), Pad12(t.last), a, b);
      PadTells(s.last, t.last);
    }
  }

  lemma NoSign(n: int)
    requires n >= 0
    ensures '-' !in Pad12(n)
  {
  }

  /** With the default names, segments of any chain, manifests and migration states never share a key. */
  lemma KeysAreApart(prefix: string, chainID: string, other: string, s: Segment, name: string, state: string)
    requires '/' !in chainID && '/' !in other
    ensures SegmentKey(prefix, other, s) != ManifestKey(prefix, chainID, name)
    ensures SegmentKey(prefix, other, s) != StateKey(prefix, chainID, state)
    ensures SegmentKey(prefix, other, s) != LegacyStateKey(prefix, chainID)
    ensures ManifestKey(prefix, chainID, name) != StateKey(prefix, chainID, state)
    ensures ManifestKey(prefix, chainID, name) != LegacyStateKey(prefix, chainID)
  {
    hide RangeName;
    var segment, manifest := "segments/" + RangeName(s), "manifests/" + name;
    var saved, legacy := "migration/" + state + ".state.json", "migration/state.json";
    assert segment[0] == 's' && manifest[0] == 'm' && manifest[1] == 'a' && saved[0] == legacy[0] == 'm' && saved[1] == legacy[1] == 'i';
    Apart(prefix, other, chainID, segment, manifest);
    Apart(prefix, other, chainID, segment, saved);
    Apart(prefix, other, chainID, segment, legacy);
    Apart(prefix, chainID, chainID, manifest, saved);
    Apart(prefix, chainID, chainID, manifest, legacy);
  }

  lemma Apart(prefix: string, a: string, b: string, x: string, y: string)
    requires '/' !in a && '/' !in b && x != y
    ensures Under(prefix, a, x) != Under(prefix, b, y)
  {
    if Under(prefix, a, x) == Under(prefix, b, y) { UnderTells(prefix, a, b, x, y); }
  }
}
