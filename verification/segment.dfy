/**
 The segment format: a magic, then a possibly compressed payload of length-prefixed
 records.  Compression, hashing and block encoding are foreign; they are the fields of
 `Env`, and a lemma that needs a property of them says so.
 */
module Segments {
  import opened Common
  import opened Chain
  import opened Manifests

  type byte = x: int | 0 <= x < 256
  type Bytes = seq<byte>

  const MAX_RECORD_LEN: int := 0x1000_0000
  const MAX_PAYLOAD: int := 0x4000_0000
  const MAX_RECORD_OVERHEAD: int := 8 + 1 + 255 + 4
  const TWO_63: int := 0x8000_0000_0000_0000
  const TWO_64: int := 0x1_0000_0000_0000_0000

  datatype Record = Record(height: int, hash: string, bytes: Bytes)

  datatype Env = Env(
    sha: Bytes -> string,
    zip: Bytes -> Bytes,
    unzip: Bytes -> Option<Bytes>,
    marshal: Block -> Option<Bytes>,
    unmarshal: Bytes -> Option<Block>,
    blockHash: Block -> string)

  /** SHA-256 sums are rendered as 64 hex digits. */
  ghost predicate ShaIsHex(env: Env) { forall d :: IsHash(env.sha(d)) }

  function Magic(): Bytes { [67, 66, 84, 65, 83, 69, 71, 49] }

  // ---------------------------------------------------------------- numbers and strings on the wire

  function Power256(k: nat): (p: nat)
    ensures p > 0
  {
    if k == 0 then 1 else 256 * Power256(k - 1)
  }

  function BigEndian(n: nat, k: nat): (bs: Bytes)
    ensures |bs| == k
  {
    if k == 0 then [] else BigEndian(n / 256, k - 1) + [n % 256]
  }

  function FromBigEndian(bs: Bytes): nat {
    if bs == [] then 0 else 256 * FromBigEndian(bs[..|bs| - 1]) + bs[|bs| - 1]
  }

  lemma {:induction false} BigEndianRoundTrip(n: nat, k: nat)
    requires n < Power256(k)
    ensures FromBigEndian(BigEndian(n, k)) == n
  {
    if k > 0 {
      BigEndianRoundTrip(n / 256, k - 1);
      var bs := BigEndian(n, k);
      assert bs[..|bs| - 1] == BigEndian(n / 256, k - 1);
    }
  }

  lemma {:induction false} BigEndianExact(bs: Bytes)
    ensures FromBigEndian(bs) < Power256(|bs|)
    ensures BigEndian(FromBigEndian(bs), |bs|) == bs
  {
    if bs != [] {
      var init := bs[..|bs| - 1];
      BigEndianExact(init);
      assert bs == init + [bs[|bs| - 1]];
    }
  }

  lemma Powers()
    ensures Power256(4) == 0x1_0000_0000 && Power256(8) == TWO_64
  {
    assert Power256(1) == 256 && Power256(2) == 0x1_0000 && Power256(3) == 0x100_0000;
    assert Power256(4) == 0x1_0000_0000;
    assert Power256(5) == 0x100_0000_0000 && Power256(6) == 0x1_0000_0000_0000;
    assert Power256(7) == 0x100_0000_0000_0000;
  }

  predicate IsInt64(n: int) { -TWO_63 <= n < TWO_63 }

  /** Two's complement, as `binary.Write` and `binary.Read` treat an int64. */
  function ToUint64(n: int): nat
    requires IsInt64(n)
  {
    if n >= 0 then n else n + TWO_64
  }

  function FromUint64(n: nat): int { if n < TWO_63 then n else n - TWO_64 }

  predicate OneByteChars(s: string) { forall i :: 0 <= i < |s| ==> s[i] as int < 256 }

  function ToBytes(s: string): Bytes
    requires OneByteChars(s)
  {
    seq(|s|, i requires 0 <= i < |s| => s[i] as int)
  }

  function FromBytes(bs: Bytes): (s: string)
    ensures OneByteChars(s)
  {
    seq(|bs|, i requires 0 <= i < |bs| => bs[i] as char)
  }

  lemma StringRoundTrip(s: string, bs: Bytes)
    ensures OneByteChars(s) ==> FromBytes(ToBytes(s)) == s
    ensures ToBytes(FromBytes(bs)) == bs
  {
    if OneByteChars(s) {
      var t := FromBytes(ToBytes(s));
      assert forall i :: 0 <= i < |s| ==> t[i] == s[i];
    }
    var cs := ToBytes(FromBytes(bs));
    assert forall i :: 0 <= i < |bs| ==> cs[i] == bs[i];
  }

  // ---------------------------------------------------------------- one record

  /** What the framing itself can carry. */
  predicate Framable(r: Record) {
    IsInt64(r.height) && |r.hash| < 256 && OneByteChars(r.hash) && 0 < |r.bytes| <= MAX_RECORD_LEN
  }

  function Frame(r: Record): (bs: Bytes)
    requires Framable(r)
    ensures |bs| == 13 + |r.hash| + |r.bytes|
  {
    BigEndian(ToUint64(r.height), 8) + [|r.hash|] + ToBytes(r.hash) + BigEndian(|r.bytes|, 4) + r.bytes
  }

  datatype Decoded = Decoded(record: Record, rest: Bytes)

  /** Reads one record off the front. */
  function DecodeOne(p: Bytes): Option<Decoded> {
    if |p| < 9 then None
    else
      var n := p[8];
      if |p| < 13 + n then None
      else
        var len := FromBigEndian(p[9 + n..13 + n]);
        if len == 0 || len > MAX_RECORD_LEN || len > |p| - 13 - n then None
        else Some(Decoded(
                    Record(FromUint64(FromBigEndian(p[..8])), FromBytes(p[9..9 + n]), p[13 + n..13 + n + len]),
                    p[13 + n + len..]))
  }

  /** A framed record reads back, and leaves exactly what followed it. */
  lemma FrameReadsBack(r: Record, rest: Bytes)
    requires Framable(r)
    ensures DecodeOne(Frame(r) + rest) == Some(Decoded(r, rest))
  {
    var p, n, len := Frame(r) + rest, |r.hash|, |r.bytes|;
    var height, hash, size := BigEndian(ToUint64(r.height), 8), ToBytes(r.hash), BigEndian(len, 4);
    assert p == height + ([n] + (hash + (size + (r.bytes + rest))));
    assert p[..8] == height && p[8] == n;
    assert p[9..9 + n] == hash;
    assert p[9 + n..13 + n] == size;
    assert p[13 + n..13 + n + len] == r.bytes;
    assert p[13 + n + len..] == rest;
    Powers();
    BigEndianRoundTrip(ToUint64(r.height), 8);
    BigEndianRoundTrip(len, 4);
    StringRoundTrip(r.hash, []);
  }

  /** Whatever is read off the front was that record's exact framing. */
  lemma ReadIsExactFrame(p: Bytes)
    requires DecodeOne(p).Some?
    ensures Framable(DecodeOne(p).value.record)
    ensures p == Frame(DecodeOne(p).value.record) + DecodeOne(p).value.rest
  {
    var Decoded(r, rest) := DecodeOne(p).value;
    var n, len := p[8], |r.bytes|;
    Powers();
    BigEndianExact(p[..8]);
    BigEndianExact(p[9 + n..13 + n]);
    StringRoundTrip("", p[9..9 + n]);
    assert ToUint64(r.height) == FromBigEndian(p[..8]);
    assert Frame(r) == p[..8] + [p[8]] + p[9..9 + n] + p[9 + n..13 + n] + p[13 + n..13 + n + len];
  }

  // ---------------------------------------------------------------- the payload

  ghost predicate AllFramable(rs: seq<Record>) { forall i :: 0 <= i < |rs| ==> Framable(rs[i]) }

  ghost function Payload(rs: seq<Record>): Bytes {
    if rs == [] then [] else Payload(rs[..|rs| - 1]) + if Framable(rs[|rs| - 1]) then Frame(rs[|rs| - 1]) else []
  }

  /** Where record `i` starts in the payload. */
  ghost function Offset(rs: seq<Record>, i: nat): nat
    requires i <= |rs|
  {
    |Payload(rs[..i])|
  }

  lemma PayloadSnoc(rs: seq<Record>, r: Record)
    ensures Payload(rs + [r]) == Payload(rs) + if Framable(r) then Frame(r) else []
  {
    assert (rs + [r])[..|rs|] == rs;
  }

  lemma {:induction false} PayloadConcat(xs: seq<Record>, ys: seq<Record>)
    ensures Payload(xs + ys) == Payload(xs) + Payload(ys)
    decreases |ys|
  {
    if ys == [] {
      assert xs + ys == xs;
    } else {
      hide Payload, Frame, Framable;
      var init, r := ys[..|ys| - 1], ys[|ys| - 1];
      assert ys == init + [r] && xs + ys == (xs + init) + [r];
      PayloadConcat(xs, init);
      PayloadSnoc(init, r);
      PayloadSnoc(xs + init, r);
    }
  }

  lemma PayloadCons(r: Record, rs: seq<Record>)
    requires Framable(r)
    ensures Payload([r] + rs) == Frame(r) + Payload(rs)
  {
    PayloadConcat([r], rs);
    assert [r][..0] == [];
  }

  function DecodeRecords(p: Bytes, count: nat): Option<seq<Record>>
    decreases |p|
  {
    if p == [] then Some([])
    else if count >= MAX_SEGMENT_BLOCKS then None
    else
      var one := DecodeOne(p);
      if one.None? then None
      else
        var rest := DecodeRecords(one.value.rest, count + 1);
        if rest.None? then None else Some([one.value.record] + rest.value)
  }

  lemma {:induction false} PayloadReadsBack(rs: seq<Record>, count: nat)
    requires AllFramable(rs) && count + |rs| <= MAX_SEGMENT_BLOCKS
    ensures DecodeRecords(Payload(rs), count) == Some(rs)
    decreases |rs|
  {
    if rs != [] {
      var tail := rs[1..];
      assert rs == [rs[0]] + tail;
      PayloadCons(rs[0], tail);
      FrameReadsBack(rs[0], Payload(tail));
      PayloadReadsBack(tail, count + 1);
    }
  }

  ghost predicate ExactFraming(p: Bytes, rs: seq<Record>) { AllFramable(rs) && p == Payload(rs) }

  lemma ExactOneMore(p: Bytes, r: Record, rest: Bytes, rs: seq<Record>)
    requires Framable(r) && p == Frame(r) + rest && ExactFraming(rest, rs)
    ensures ExactFraming(p, [r] + rs)
  {
    PayloadCons(r, rs);
  }

  /** An accepted payload is the exact framing of the records it yields: nothing is skipped or added. */
  lemma {:induction false} AcceptedPayloadIsExact(p: Bytes, count: nat)
    requires DecodeRecords(p, count).Some?
    ensures ExactFraming(p, DecodeRecords(p, count).value)
    ensures count <= MAX_SEGMENT_BLOCKS ==> count + |DecodeRecords(p, count).value| <= MAX_SEGMENT_BLOCKS
    decreases |p|
  {
    if p != [] {
      hide ExactFraming, Payload, Frame, Framable;
      ReadIsExactFrame(p);
      var Decoded(r, rest) := DecodeOne(p).value;
      AcceptedPayloadIsExact(rest, count + 1);
      ExactOneMore(p, r, rest, DecodeRecords(rest, count + 1).value);
    }
  }

  lemma RestIsShorter(p: Bytes)
    ensures DecodeOne(p).Some? ==> |DecodeOne(p).value.rest| < |p|
  {
  }

  /** The decoding loop, consuming the payload from the front. */
  method DecodePayload(payload: Bytes) returns (out: Option<seq<Record>>)
    ensures out == DecodeRecords(payload, 0)
  {
    hide DecodeOne;
    var p, records := payload, [];
    assert DecodeRecords(payload, 0).Some? ==> [] + DecodeRecords(payload, 0).value == DecodeRecords(payload, 0).value;
    while |p| > 0
      invariant var rest := DecodeRecords(p, |records|);
                DecodeRecords(payload, 0) == if rest.None? then None else Some(records + rest.value)
      decreases |p|
    {
      if |records| >= MAX_SEGMENT_BLOCKS { return None; }
      RestIsShorter(p);
      var one := DecodeOne(p);
      if one.None? { return None; }
      ghost var rest := DecodeRecords(one.value.rest, |records| + 1);
      assert rest.Some? ==> records + ([one.value.record] + rest.value) == (records + [one.value.record]) + rest.value;
      records := records + [one.value.record];
      p := one.value.rest;
    }
    assert records + [] == records;
    return Some(records);
  }

  // ---------------------------------------------------------------- encoding a segment

  predicate GoodRecord(r: Record) {
    0 < r.height <= MAX_INT64 && IsHash(r.hash) && 0 < |r.bytes| <= MAX_RECORD_LEN
  }

  lemma GoodIsFramable(r: Record)
    requires GoodRecord(r)
    ensures Framable(r) && |Frame(r)| == 77 + |r.bytes|
  {
    assert forall i :: 0 <= i < |r.hash| ==> r.hash[i] in r.hash;
  }

  function WouldExceed(current: int, hashLen: int, recordLen: int, max: int): bool {
    max <= 0 || 13 + hashLen + recordLen > max || current > max - (13 + hashLen + recordLen)
  }

  /** The size check sees the buffer with this record's height and hash already written: 73 bytes. */
  ghost predicate Fits(rs: seq<Record>, i: nat)
    requires i < |rs|
  {
    !WouldExceed(Offset(rs, i) + 73, HASH_LEN, |rs[i].bytes|, MAX_PAYLOAD)
  }

  /** The encoder gets past the first `n` records. */
  ghost predicate AcceptsTo(rs: seq<Record>, n: nat)
    requires n <= |rs|
  {
    n > 0 ==>
      && AcceptsTo(rs, n - 1)
      && GoodRecord(rs[n - 1]) && Fits(rs, n - 1)
      && (n > 1 ==> rs[n - 1].height == rs[n - 2].height + 1)
  }

  ghost predicate Accepts(rs: seq<Record>) { 0 < |rs| <= MAX_SEGMENT_BLOCKS && AcceptsTo(rs, |rs|) }

  lemma {:induction false} AcceptsPrefix(rs: seq<Record>, i: nat, n: nat)
    requires i <= n <= |rs| && AcceptsTo(rs, n)
    ensures AcceptsTo(rs, i)
  {
    if i < n { AcceptsPrefix(rs, i, n - 1); }
  }

  lemma {:induction false} AcceptedRecord(rs: seq<Record>, n: nat, i: nat)
    requires i < n <= |rs| && AcceptsTo(rs, n)
    ensures GoodRecord(rs[i]) && Framable(rs[i]) && Fits(rs, i) && rs[i].height == rs[0].height + i
    decreases n
  {
    if i < n - 1 {
      AcceptedRecord(rs, n - 1, i);
    } else {
      GoodIsFramable(rs[i]);
      if i > 0 { AcceptedRecord(rs, n - 1, i - 1); }
    }
  }

  lemma {:induction false} AcceptsToIff(rs: seq<Record>, n: nat)
    requires n <= |rs| && forall i :: 0 <= i < n ==> GoodRecord(rs[i])
    ensures AcceptsTo(rs, n) <==> (forall i :: 0 < i < n ==> rs[i].height == rs[i - 1].height + 1) && (n > 0 ==> |Payload(rs[..n])| + 73 <= MAX_PAYLOAD)
  {
    if n > 0 {
      AcceptsToIff(rs, n - 1);
      GoodIsFramable(rs[n - 1]);
      IndexOneMore(rs, n - 1);
    }
  }

  /** What the encoder accepts: up to 1000 good records of consecutive heights whose framing leaves 73 bytes of the limit. */
  lemma AcceptsIff(rs: seq<Record>)
    ensures Accepts(rs) <==>
              && 0 < |rs| <= MAX_SEGMENT_BLOCKS && (forall i :: 0 <= i < |rs| ==> GoodRecord(rs[i]))
              && (forall i :: 0 < i < |rs| ==> rs[i].height == rs[i - 1].height + 1) && |Payload(rs)| + 73 <= MAX_PAYLOAD
  {
    hide GoodRecord;
    if Accepts(rs) {
      forall i | 0 <= i < |rs| ensures GoodRecord(rs[i]) { AcceptedRecord(rs, |rs|, i); }
    }
    assert rs[..|rs|] == rs;
    if forall i :: 0 <= i < |rs| ==> GoodRecord(rs[i]) { AcceptsToIff(rs, |rs|); }
  }

  function Compress(env: Env, p: Bytes, comp: Compression): Bytes {
    if comp.Gzip? then env.zip(p) else p
  }

  ghost function EncodedData(env: Env, rs: seq<Record>, comp: Compression): Bytes {
    Magic() + Compress(env, Payload(rs), comp)
  }

  ghost function Index(rs: seq<Record>): (ix: seq<BlockIndex>)
    ensures |ix| == |rs|
  {
    seq(|rs|, i requires 0 <= i < |rs| => BlockIndex(rs[i].height, rs[i].hash, Offset(rs, i)))
  }

  ghost function EncodedSegment(env: Env, rs: seq<Record>, comp: Compression): Segment
    requires rs != []
  {
    var data := EncodedData(env, rs, comp);
    Segment("", rs[0].height, rs[|rs| - 1].height, comp, |data|, env.sha(data), Index(rs))
  }

  lemma IndexOneMore(rs: seq<Record>, i: nat)
    requires i < |rs| && Framable(rs[i])
    ensures Payload(rs[..i + 1]) == Payload(rs[..i]) + Frame(rs[i])
    ensures Index(rs[..i + 1]) == Index(rs[..i]) + [BlockIndex(rs[i].height, rs[i].hash, |Payload(rs[..i])|)]
  {
    assert rs[..i + 1][..i] == rs[..i];
    assert forall j :: 0 <= j < i ==> rs[..i + 1][..j] == rs[..i][..j];
  }

  /** The encoding loop: fails exactly on the lists `Accepts` rules out. */
  method EncodeSegment(env: Env, rs: seq<Record>, comp: Compression) returns (out: Option<(Bytes, Segment)>)
    requires forall i :: 0 <= i < |rs| ==> IsInt64(rs[i].height)
    ensures out.Some? <==> !comp.Unknown? && Accepts(rs)
    ensures out.Some? ==> out.value == (EncodedData(env, rs, comp), EncodedSegment(env, rs, comp))
  {
    if comp.Unknown? || |rs| == 0 || |rs| > MAX_SEGMENT_BLOCKS { return None; }
    var payload: Bytes, index: seq<BlockIndex>, i := [], [], 0;
    while i < |rs|
      invariant 0 <= i <= |rs|
      invariant AcceptsTo(rs, i)
      invariant payload == Payload(rs[..i]) && index == Index(rs[..i])
    {
      var r := rs[i];
      if (i > 0 && r.height != rs[i - 1].height + 1) || r.height <= 0 || !IsHash(r.hash) || |r.bytes| == 0
         || |r.bytes| > MAX_RECORD_LEN || WouldExceed(|payload| + 73, HASH_LEN, |r.bytes|, MAX_PAYLOAD) {
        if Accepts(rs) { AcceptsPrefix(rs, i + 1, |rs|); }
        return None;
      }
      GoodIsFramable(r);
      IndexOneMore(rs, i);
      index := index + [BlockIndex(r.height, r.hash, |payload|)];
      payload := payload + Frame(r);
      i := i + 1;
    }
    assert rs[..i] == rs;
    var data := Magic() + if comp.Gzip? then env.zip(payload) else payload;
    return Some((data, Segment("", rs[0].height, rs[|rs| - 1].height, comp, |data|, env.sha(data), index)));
  }

  // ---------------------------------------------------------------- decoding a segment

  /** The bound on a segment's decompressed size that its index implies. */
  function MaxDecompressed(blocks: int): int {
    Min((if blocks <= 0 then 1 else blocks) * (MAX_RECORD_LEN + MAX_RECORD_OVERHEAD), MAX_PAYLOAD)
  }

  function Decompress(env: Env, body: Bytes, comp: Compression, max: int): Option<Bytes> {
    if max <= 0 || comp.Unknown? then None
    else
      var p := if comp.Gzip? then env.unzip(body) else Some(body);
      if p.None? || |p.value| > max then None else p
  }

  /** The checks every decoder makes before it looks inside. */
  predicate Intact(env: Env, data: Bytes, s: Segment) {
    && ValidSegment(s) && |data| == s.size && env.sha(data) == s.sha
    && |data| >= 8 && data[..8] == Magic()
  }

  predicate MatchesIndex(rs: seq<Record>, s: Segment) {
    && |rs| == |s.blocks|
    && forall i :: 0 <= i < |rs| ==> rs[i].height == s.blocks[i].height && rs[i].hash == s.blocks[i].hash
  }

  function DecodeSegmentRecords(env: Env, data: Bytes, s: Segment): Option<seq<Record>> {
    if !Intact(env, data, s) then None
    else
      var p := Decompress(env, data[8..], s.compression, MaxDecompressed(|s.blocks|));
      if p.None? then None
      else
        var rs := DecodeRecords(p.value, 0);
        if rs.None? || !MatchesIndex(rs.value, s) then None else rs
  }

  function RecordToBlock(env: Env, r: Record): Option<Block> {
    var b := env.unmarshal(r.bytes);
    if b.None? || env.blockHash(b.value) != r.hash || b.value.header.height != r.height then None else b
  }

  /** The seek-based decoder of one block; nothing is said about which error it meets. */
  function DecodeFast(env: Env, data: Bytes, s: Segment, entry: BlockIndex): Option<Block> {
    var max := MaxDecompressed(|s.blocks|);
    if !Intact(env, data, s) || entry.offset < 0 || entry.offset > max then None
    else
      var p := if s.compression.Gzip? then env.unzip(data[8..]) else Some(data[8..]);
      if p.None? || entry.offset > |p.value| then None
      else
        var one := DecodeOne(p.value[entry.offset..]);
        if one.None? || one.value.record.height != entry.height || one.value.record.hash != entry.hash then None
        else RecordToBlock(env, one.value.record)
  }

  function FindRecord(rs: seq<Record>, h: int): Option<Record> {
    if rs == [] then None else if rs[0].height == h then Some(rs[0]) else FindRecord(rs[1..], h)
  }

  function DecodeSlow(env: Env, data: Bytes, s: Segment, h: int): Option<Block> {
    var rs := DecodeSegmentRecords(env, data, s);
    if rs.None? then None
    else
      var r := FindRecord(rs.value, h);
      if r.None? then None else RecordToBlock(env, r.value)
  }

  /** One block by height: the fast path where the index has an offset, the slow path when it fails. */
  function DecodeBlock(env: Env, data: Bytes, s: Segment, h: int): Option<Block> {
    if h < s.first || h > s.last then None
    else
      var i := h - s.first;
      var fast := if i < |s.blocks| && (s.blocks[i].offset > 0 || i == 0) then DecodeFast(env, data, s, s.blocks[i]) else None;
      if fast.Some? then fast else DecodeSlow(env, data, s, h)
  }

  // ---------------------------------------------------------------- encoder and decoder agree

  lemma {:induction false} PayloadBound(rs: seq<Record>, n: nat)
    requires n <= |rs| && AcceptsTo(rs, n)
    ensures |Payload(rs[..n])| <= n * (MAX_RECORD_LEN + MAX_RECORD_OVERHEAD)
    ensures n > 0 ==> |Payload(rs[..n])| <= MAX_PAYLOAD - 73
  {
    if n > 0 {
      PayloadBound(rs, n - 1);
      GoodIsFramable(rs[n - 1]);
      IndexOneMore(rs, n - 1);
    }
  }

  /** What the encoder accepts never exceeds what the decoder allows for the same number of blocks. */
  lemma EncodedFitsDecoder(rs: seq<Record>)
    requires Accepts(rs)
    ensures 0 < |Payload(rs)| <= MaxDecompressed(|rs|)
  {
    PayloadBound(rs, |rs|);
    assert rs[..|rs|] == rs;
    AcceptedRecord(rs, |rs|, |rs| - 1);
  }

  /** Decompressing what was compressed gives it back. */
  ghost predicate ZipInverts(env: Env, p: Bytes) { env.unzip(env.zip(p)) == Some(p) }

  ghost predicate Encodes(env: Env, rs: seq<Record>, comp: Compression, key: string, data: Bytes, s: Segment) {
    && Accepts(rs) && !comp.Unknown? && ValidKey(key) && rs[|rs| - 1].height < MAX_INT64
    && data == EncodedData(env, rs, comp) && s == EncodedSegment(env, rs, comp).(key := key)
  }

  lemma IndexIsValid(rs: seq<Record>)
    requires Accepts(rs)
    ensures forall i :: 0 <= i < |rs| ==> Index(rs)[i].height == rs[0].height + i && IsHash(Index(rs)[i].hash)
    ensures rs[|rs| - 1].height == rs[0].height + |rs| - 1 && rs[0].height > 0
  {
    forall i | 0 <= i < |rs| ensures rs[i].height == rs[0].height + i && IsHash(rs[i].hash) && rs[i].height > 0 {
      AcceptedRecord(rs, |rs|, i);
    }
  }

  lemma EncodedIsValid(env: Env, rs: seq<Record>, comp: Compression, key: string, data: Bytes, s: Segment)
    requires Encodes(env, rs, comp, key, data, s) && ShaIsHex(env)
    ensures ValidSegment(s) && |s.blocks| == |rs|
  {
    IndexIsValid(rs);
    assert s.blocks == Index(rs);
    assert |data| >= 8;
  }

  lemma EncodedIsIntact(env: Env, rs: seq<Record>, comp: Compression, key: string, data: Bytes, s: Segment)
    requires Encodes(env, rs, comp, key, data, s) && ShaIsHex(env)
    ensures Intact(env, data, s) && data[8..] == Compress(env, Payload(rs), comp) && s.compression == comp
  {
    EncodedIsValid(env, rs, comp, key, data, s);
    assert data[..8] == Magic();
  }

  lemma AllAcceptedFramable(rs: seq<Record>)
    requires AcceptsTo(rs, |rs|)
    ensures AllFramable(rs)
  {
    forall i | 0 <= i < |rs| ensures Framable(rs[i]) { AcceptedRecord(rs, |rs|, i); }
  }

  /** `data` holds the payload of `rs`, as the descriptor `s` says. */
  ghost predicate Holds(env: Env, data: Bytes, s: Segment, rs: seq<Record>) {
    && Intact(env, data, s) && AllFramable(rs) && |rs| <= MAX_SEGMENT_BLOCKS && MatchesIndex(rs, s)
    && Decompress(env, data[8..], s.compression, MaxDecompressed(|rs|)) == Some(Payload(rs))
  }

  lemma EncodedHolds(env: Env, rs: seq<Record>, comp: Compression, key: string, data: Bytes, s: Segment)
    requires Encodes(env, rs, comp, key, data, s) && ShaIsHex(env) && ZipInverts(env, Payload(rs))
    ensures Holds(env, data, s, rs)
  {
    EncodedIsIntact(env, rs, comp, key, data, s);
    EncodedFitsDecoder(rs);
    AllAcceptedFramable(rs);
    assert s.blocks == Index(rs);
  }

  lemma HeldRecordsDecode(env: Env, data: Bytes, s: Segment, rs: seq<Record>)
    requires Holds(env, data, s, rs)
    ensures DecodeSegmentRecords(env, data, s) == Some(rs)
  {
    PayloadReadsBack(rs, 0);
  }

  /** `data` is the magic and then the payload, as it is or compressed. */
  ghost predicate Wraps(env: Env, data: Bytes, comp: Compression, payload: Bytes) {
    match comp
    case Plain => data == Magic() + payload
    case Gzip => exists body :: data == Magic() + body && env.unzip(body) == Some(payload)
    case Unknown(_) => false
  }

  /**
   What a segment decodes to, exactly: `data` has the size and digest described and holds the
   framing of `rs`, one record for each index entry with that height and hash, and no more
   than its number of blocks may take.
   */
  lemma SegmentDecodesIff(env: Env, data: Bytes, s: Segment, rs: seq<Record>)
    requires ValidSegment(s)
    ensures DecodeSegmentRecords(env, data, s) == Some(rs) <==>
              && |data| == s.size && env.sha(data) == s.sha && AllFramable(rs) && Wraps(env, data, s.compression, Payload(rs))
              && |rs| == |s.blocks| && (forall i :: 0 <= i < |rs| ==> rs[i].height == s.blocks[i].height && rs[i].hash == s.blocks[i].hash)
              && |Payload(rs)| <= Min(|s.blocks| * (MAX_RECORD_LEN + MAX_RECORD_OVERHEAD), MAX_PAYLOAD)
  {
    hide Payload, DecodeRecords, Framable, ValidKey, IsHash;
    if DecodeSegmentRecords(env, data, s) == Some(rs) {
      var p := Decompress(env, data[8..], s.compression, MaxDecompressed(|s.blocks|)).value;
      AcceptedPayloadIsExact(p, 0);
      assert data == Magic() + data[8..];
    } else if Wraps(env, data, s.compression, Payload(rs)) && AllFramable(rs) && |rs| == |s.blocks| {
      PayloadReadsBack(rs, 0);
      assert |data| >= 8 && data[..8] == Magic();
      if s.compression.Gzip? {
        var body :| data == Magic() + body && env.unzip(body) == Some(Payload(rs));
        assert data[8..] == body;
      } else {
        assert data[8..] == Payload(rs);
      }
    }
  }

  /** Every accepted list of records decodes to itself. */
  lemma SegmentRoundTrip(env: Env, rs: seq<Record>, comp: Compression, key: string, data: Bytes, s: Segment)
    requires Encodes(env, rs, comp, key, data, s) && ShaIsHex(env) && ZipInverts(env, Payload(rs))
    ensures ValidSegment(s) && DecodeSegmentRecords(env, data, s) == Some(rs)
  {
    EncodedHolds(env, rs, comp, key, data, s);
    HeldRecordsDecode(env, data, s, rs);
  }

  /** Seeking to a record's offset and reading one record finds that record. */
  lemma OffsetFindsRecord(rs: seq<Record>, i: nat)
    requires AllFramable(rs) && i < |rs|
    ensures Offset(rs, i) <= |Payload(rs)|
    ensures var one := DecodeOne(Payload(rs)[Offset(rs, i)..]); one.Some? && one.value.record == rs[i]
    ensures i > 0 ==> Offset(rs, i) > 0
  {
    PayloadSplits(rs, i);
    FrameReadsBack(rs[i], Payload(rs[i + 1..]));
    assert Payload(rs)[Offset(rs, i)..] == Frame(rs[i]) + Payload(rs[i + 1..]);
    if i > 0 {
      assert rs[..i][..i - 1] == rs[..i - 1];
      assert Framable(rs[i - 1]);
    }
  }

  lemma PayloadSplits(rs: seq<Record>, i: nat)
    requires i < |rs| && Framable(rs[i])
    ensures Payload(rs) == Payload(rs[..i]) + (Frame(rs[i]) + Payload(rs[i + 1..]))
  {
    hide Payload, Frame, Framable;
    var tail := rs[i + 1..];
    assert rs == rs[..i] + ([rs[i]] + tail);
    PayloadCons(rs[i], tail);
    PayloadConcat(rs[..i], [rs[i]] + tail);
  }

  lemma FastFindsRecord(env: Env, data: Bytes, s: Segment, rs: seq<Record>, i: nat)
    requires Holds(env, data, s, rs) && i < |rs| && s.blocks[i].offset == Offset(rs, i)
    ensures DecodeFast(env, data, s, s.blocks[i]) == RecordToBlock(env, rs[i])
  {
    OffsetFindsRecord(rs, i);
  }

  lemma {:induction false} FindsByHeight(rs: seq<Record>, low: int, i: nat)
    requires i < |rs| && forall j :: 0 <= j < |rs| ==> rs[j].height == low + j
    ensures FindRecord(rs, low + i) == Some(rs[i])
  {
    if i > 0 {
      FindsByHeight(rs[1..], low + 1, i - 1);
    }
  }

  /** What any decoder should answer for height `h` of an encoded segment. */
  function Answer(env: Env, s: Segment, rs: seq<Record>, h: int): Option<Block> {
    if s.first <= h < s.first + |rs| then RecordToBlock(env, rs[h - s.first]) else None
  }

  lemma SlowFindsRecord(env: Env, data: Bytes, s: Segment, rs: seq<Record>, h: int)
    requires Holds(env, data, s, rs) && s.first <= h < s.first + |rs|
    ensures DecodeSlow(env, data, s, h) == Answer(env, s, rs, h)
  {
    hide Intact, DecodeRecords, Decompress;
    HeldRecordsDecode(env, data, s, rs);
    HeldHeights(env, data, s, rs);
    FindsByHeight(rs, s.first, h - s.first);
  }

  lemma HeldHeights(env: Env, data: Bytes, s: Segment, rs: seq<Record>)
    requires Holds(env, data, s, rs)
    ensures forall j :: 0 <= j < |rs| ==> rs[j].height == s.first + j
    ensures s.last == s.first + |rs| - 1 && |s.blocks| == |rs|
  {
  }

  /** With the right offset or with none, a block is found at its height. */
  lemma BlockIsFound(env: Env, data: Bytes, s: Segment, rs: seq<Record>, h: int)
    requires Holds(env, data, s, rs) && s.first <= h < s.first + |rs|
    requires s.blocks[h - s.first].offset == Offset(rs, h - s.first) || s.blocks[h - s.first].offset == 0
    ensures DecodeBlock(env, data, s, h) == Answer(env, s, rs, h)
  {
    hide Holds, DecodeFast, DecodeSlow, DecodeBlock;
    HeldHeights(env, data, s, rs);
    SlowFindsRecord(env, data, s, rs, h);
    assert rs[..0] == [];
    if s.blocks[h - s.first].offset == Offset(rs, h - s.first) { FastFindsRecord(env, data, s, rs, h - s.first); }
    EitherPath(env, data, s, h, Answer(env, s, rs, h));
  }

  lemma EitherPath(env: Env, data: Bytes, s: Segment, h: int, answer: Option<Block>)
    requires s.first <= h <= s.last && h - s.first < |s.blocks| && DecodeSlow(env, data, s, h) == answer
    requires var entry := s.blocks[h - s.first];
             entry.offset > 0 || h == s.first ==> DecodeFast(env, data, s, entry) == answer
    ensures DecodeBlock(env, data, s, h) == answer
  {
    hide DecodeFast, DecodeSlow;
  }

  /** A descriptor as written before offsets were recorded. */
  function WithoutOffsets(s: Segment): Segment {
    s.(blocks := seq(|s.blocks|, i requires 0 <= i < |s.blocks| => s.blocks[i].(offset := 0)))
  }

  lemma OldDescriptorHolds(env: Env, data: Bytes, s: Segment, rs: seq<Record>)
    requires Holds(env, data, s, rs)
    ensures Holds(env, data, WithoutOffsets(s), rs)
  {
    var t := WithoutOffsets(s);
    assert forall j :: 0 <= j < |t.blocks| ==> t.blocks[j].height == s.blocks[j].height && t.blocks[j].hash == s.blocks[j].hash;
  }

  lemma {:induction false} FoundHasHeight(rs: seq<Record>, h: int) returns (i: nat)
    requires FindRecord(rs, h).Some?
    ensures i < |rs| && FindRecord(rs, h).value == rs[i] && rs[i].height == h
  {
    if rs[0].height == h {
      i := 0;
    } else {
      var j := FoundHasHeight(rs[1..], h);
      i := j + 1;
    }
  }

  /** Whatever object and index there are, a block that is found at a height has that height and the indexed hash. */
  lemma BlockIsIndexed(env: Env, data: Bytes, s: Segment, h: int)
    requires DecodeBlock(env, data, s, h).Some?
    ensures var b := DecodeBlock(env, data, s, h).value;
            0 <= h - s.first < |s.blocks| && b.header.height == h && env.blockHash(b) == s.blocks[h - s.first].hash
  {
    hide DecodeOne, DecodeRecords, Decompress, ValidKey, IsHash;
    var i := h - s.first;
    var fast := if i < |s.blocks| && (s.blocks[i].offset > 0 || i == 0) then DecodeFast(env, data, s, s.blocks[i]) else None;
    if fast.None? {
      var rs := DecodeSegmentRecords(env, data, s).value;
      var j := FoundHasHeight(rs, h);
      assert s.blocks[j].height == s.first + j;
    }
  }

  /** All ways of decoding height `h` give the same answer. */
  ghost predicate Agree(env: Env, data: Bytes, s: Segment, rs: seq<Record>, h: int) {
    && DecodeBlock(env, data, s, h) == Answer(env, s, rs, h)
    && DecodeBlock(env, data, WithoutOffsets(s), h) == Answer(env, s, rs, h)
    && (s.first <= h <= s.last ==> DecodeSlow(env, data, s, h) == Answer(env, s, rs, h))
  }

  lemma AgreeInside(env: Env, data: Bytes, s: Segment, rs: seq<Record>, h: int)
    requires Holds(env, data, s, rs) && s.first <= h < s.first + |rs|
    requires s.blocks[h - s.first].offset == Offset(rs, h - s.first)
    ensures Agree(env, data, s, rs, h)
  {
    hide Holds, DecodeBlock, DecodeSlow, RecordToBlock, Offset;
    HeldHeights(env, data, s, rs);
    BlockIsFound(env, data, s, rs, h);
    OldDescriptorHolds(env, data, s, rs);
    BlockIsFound(env, data, WithoutOffsets(s), rs, h);
    SlowFindsRecord(env, data, s, rs, h);
  }

  lemma AgreeOutside(env: Env, data: Bytes, s: Segment, rs: seq<Record>, h: int)
    requires s.last == s.first + |rs| - 1 && !(s.first <= h <= s.last)
    ensures Agree(env, data, s, rs, h)
  {
  }

  /**
   On everything the encoder writes, the fast path, the slow path and the old descriptors
   without offsets give the same answer at every height.
   */
  lemma DecodersAgree(env: Env, rs: seq<Record>, comp: Compression, key: string, data: Bytes, s: Segment, h: int)
    requires Encodes(env, rs, comp, key, data, s) && ShaIsHex(env) && ZipInverts(env, Payload(rs))
    ensures Agree(env, data, s, rs, h)
  {
    EncodedRange(env, rs, comp, key, data, s);
    if s.first <= h <= s.last {
      EncodedHolds(env, rs, comp, key, data, s);
      AgreeInside(env, data, s, rs, h);
    } else {
      AgreeOutside(env, data, s, rs, h);
    }
  }

  lemma EncodedRange(env: Env, rs: seq<Record>, comp: Compression, key: string, data: Bytes, s: Segment)
    requires Encodes(env, rs, comp, key, data, s)
    ensures s.last == s.first + |rs| - 1 && |s.blocks| == |rs|
    ensures forall i :: 0 <= i < |rs| ==> s.blocks[i].offset == Offset(rs, i)
  {
    IndexIsValid(rs);
    assert s.blocks == Index(rs);
  }

  // ---------------------------------------------------------------- blocks

  function BlockToRecord(env: Env, b: Block): Option<Record> {
    var bytes := env.marshal(b);
    if bytes.None? then None else Some(Record(b.header.height, env.blockHash(b), bytes.value))
  }

  /** The block encoding gives back what it was given. */
  ghost predicate MarshalInverts(env: Env) {
    forall b :: env.marshal(b).Some? ==> env.unmarshal(env.marshal(b).value) == Some(b)
  }

  lemma BlockRoundTrip(env: Env, b: Block)
    requires MarshalInverts(env) && BlockToRecord(env, b).Some?
    ensures RecordToBlock(env, BlockToRecord(env, b).value) == Some(b)
  {
  }
}
