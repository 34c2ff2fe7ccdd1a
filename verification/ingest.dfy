/**
 The hot ingestor: blocks arrive in height order, one block is held back, and a block
 is persisted only when its successor commits to it.  `State` is the ingestor as a
 value; `HotIngestor` is the object, proved to follow it.
 */
module Ingest {
  import opened Common
  import opened Chain

  const MAX_FETCHED_SETS: int := 256

  datatype Mode = StorageOnly | Checkpoint | ValidatorSet

  datatype Options = Options(
    chainID: string,
    startHeight: int,
    safetyWindow: int,
    mode: Mode,
    checkpoints: map<int, Digest>,
    sets: map<int, Validators>,
    source: Option<int -> Option<Validators>>)

  datatype Rejection =
    | NilBlock | WrongChain | BadHeight | EmptyHash | LastBlockIDMismatch | LastCommitHashMismatch
    | CheckpointMismatch | NoValidatorSet | ValidatorsHashMismatch | UnexpectedHeight | NotOnHead
    | CommitHeightMismatch | NoPartSet | CommitHashMismatch | CommitPartsMismatch | BadCommit

  datatype State = State(store: Store, pending: Option<Block>, verified: int)

  /** Everything the ingestor holds: the persisted blocks and then the pending one. */
  function Held(s: State): seq<Block> {
    s.store.blocks + if s.pending.Some? then [s.pending.value] else []
  }

  function NextHeight(o: Options, s: State): int {
    if s.pending.Some? then s.pending.value.header.height + 1
    else if s.store.Height() > 0 then s.store.Height() + 1
    else o.startHeight
  }

  /** The trusted validator set of a height, were nothing cached. */
  function SetFor(c: Crypto, o: Options, h: int): Option<Validators> {
    if h in o.sets then Some(o.sets[h])
    else if o.source.None? then None
    else
      var v := o.source.value(h);
      if v.Some? && c.validatorsOk(v.value) then v else None
  }

  /** The checks on one block, in the order they are made. */
  function Validate(c: Crypto, o: Options, b: Block): Option<Rejection> {
    if b.header.chainID != o.chainID then Some(WrongChain)
    else if b.header.height <= 0 then Some(BadHeight)
    else if Hash(c, b) == "" then Some(EmptyHash)
    else if b.lastCommit.Some? && b.header.height > 1 && b.header.lastBlockID != b.lastCommit.value.blockID then Some(LastBlockIDMismatch)
    else if b.lastCommit.None? || b.header.lastCommitHash != c.commitHash(b.lastCommit.value) then Some(LastCommitHashMismatch)
    else if o.mode.Checkpoint? && b.header.height in o.checkpoints && Hash(c, b) != o.checkpoints[b.header.height] then Some(CheckpointMismatch)
    else if o.mode.ValidatorSet? && (b.header.height in o.sets || o.source.Some?) then
      var v := SetFor(c, o, b.header.height);
      if v.None? then Some(NoValidatorSet)
      else if b.header.validatorsHash != c.validatorsHash(v.value) then Some(ValidatorsHashMismatch)
      else None
    else None
  }

  /** Does `next` commit to `pending`, so that `pending` may be persisted? */
  function Commits(c: Crypto, o: Options, pending: Block, next: Block): Option<Rejection> {
    if next.lastCommit.None? || next.lastCommit.value.height != pending.header.height then Some(CommitHeightMismatch)
    else
      var id := next.lastCommit.value.blockID;
      var parts := c.partSet(pending);
      if parts.None? then Some(NoPartSet)
      else if id.hash != Hash(c, pending) then Some(CommitHashMismatch)
      else if id.parts != parts.value then Some(CommitPartsMismatch)
      else if o.mode.ValidatorSet? then
        var v := SetFor(c, o, pending.header.height);
        if v.None? then Some(NoValidatorSet)
        else if !c.verifyCommit(v.value, o.chainID, BlockID(Hash(c, pending), parts.value), pending.header.height, next.lastCommit.value) then Some(BadCommit)
        else None
      else None
  }

  function Mark(o: Options, verified: int, b: Block): int {
    if o.mode.Checkpoint? && b.header.height in o.checkpoints then b.header.height else verified
  }

  function Submit(c: Crypto, o: Options, s: State, block: Option<Block>): Result<State, Rejection> {
    if block.None? then Err(NilBlock)
    else
      var b := block.value;
      if Validate(c, o, b).Some? then Err(Validate(c, o, b).value)
      else if b.header.height != NextHeight(o, s) then Err(UnexpectedHeight)
      else if s.pending.None? then
        var previous := s.store.Load(s.store.Height());
        if previous.Some? && (b.lastCommit.None? || b.lastCommit.value.blockID.hash != Hash(c, previous.value)) then Err(NotOnHead)
        else Ok(State(s.store, Some(b), Mark(o, s.verified, b)))
      else if Commits(c, o, s.pending.value, b).Some? then Err(Commits(c, o, s.pending.value, b).value)
      else Ok(State(s.store.Save(s.pending.value), Some(b), Mark(o, s.verified, b)))
  }

  /** How far the archive may publish; zero means nothing is authenticated. */
  function ArchiveLimit(o: Options, s: State): int {
    if o.mode.Checkpoint? then s.verified else s.store.Height()
  }

  function ReadyToArchive(o: Options, s: State): int {
    if s.store.Height() <= o.safetyWindow then 0
    else if o.mode.Checkpoint? then Min(s.store.Height() - o.safetyWindow, s.verified)
    else s.store.Height() - o.safetyWindow
  }

  // ---------------------------------------------------------------- startup

  predicate Retained(o: Options, st: Store, h: int) { h in o.checkpoints && st.blocks != [] && st.Has(h) }

  ghost predicate IsTopCheckpoint(o: Options, st: Store, top: int) {
    && (top == 0 || Retained(o, st, top))
    && (forall h :: Retained(o, st, h) ==> h <= top)
  }

  /** The first `n + 1` blocks are on the right chain and linked: what the walk back checks. */
  ghost predicate Intact(c: Crypto, o: Options, bs: seq<Block>, low: int, n: int) {
    && (forall i :: 0 <= low <= i <= n < |bs| ==> bs[i].header.chainID == o.chainID)
    && (forall i, j :: 0 <= low <= i < j <= n < |bs| && j == i + 1 ==> Linked(c, bs[i], bs[j]))
  }

  ghost predicate RecoversAt(c: Crypto, o: Options, st: Store, top: int, verified: Option<int>)
    requires top == 0 || Retained(o, st, top)
  {
    if top == 0 then verified == Some(0)
    else
      var authentic := Hash(c, st.blocks[top - st.base]) == o.checkpoints[top] && Intact(c, o, st.blocks, 0, top - st.base);
      verified == if authentic then Some(top) else None
  }

  /** What startup recovers as the verified height, or nothing when it refuses the store. */
  ghost predicate Recovers(c: Crypto, o: Options, st: Store, verified: Option<int>) {
    if !o.mode.Checkpoint? then verified == Some(0)
    else exists top :: IsTopCheckpoint(o, st, top) && RecoversAt(c, o, st, top, verified)
  }

  /** Startup recovery: find the highest retained checkpoint, then walk back to the base. */
  method Recover(c: Crypto, o: Options, st: Store) returns (verified: Option<int>)
    requires st.Valid() && GoodOptions(o)
    ensures Recovers(c, o, st, verified)
  {
    if !o.mode.Checkpoint? { return Some(0); }
    var top, todo := 0, o.checkpoints.Keys;
    while todo != {}
      invariant todo <= o.checkpoints.Keys
      invariant top == 0 || Retained(o, st, top)
      invariant top >= 0
      invariant forall h :: Retained(o, st, h) && h !in todo ==> h <= top
      decreases todo
    {
      SomeInt(todo);
      var h :| h in todo;
      if st.blocks != [] && st.base <= h <= st.Height() { top := Max(top, h); }
      todo := todo - {h};
    }
    assert IsTopCheckpoint(o, st, top);
    if top == 0 {
      assert RecoversAt(c, o, st, top, Some(0));
      return Some(0);
    }
    var n := top - st.base;
    var block := st.blocks[n];
    if block.header.chainID != o.chainID || Hash(c, block) != o.checkpoints[top] {
      assert RecoversAt(c, o, st, top, None);
      return None;
    }
    var i := n;
    while i > 0
      invariant 0 <= i <= n && block == st.blocks[i]
      invariant Intact(c, o, st.blocks, i, n)
    {
      var previous := st.blocks[i - 1];
      if previous.header.chainID != o.chainID || !Linked(c, previous, block) {
        assert !Intact(c, o, st.blocks, 0, n);
        assert RecoversAt(c, o, st, top, None);
        return None;
      }
      block := previous;
      i := i - 1;
    }
    assert RecoversAt(c, o, st, top, Some(top));
    return Some(top);
  }

  // ---------------------------------------------------------------- what every step keeps

  /** Checkpoint heights are positive, as option normalisation makes sure. */
  ghost predicate GoodOptions(o: Options) {
    o.mode.Checkpoint? ==> forall h :: h in o.checkpoints ==> h > 0
  }

  ghost predicate MatchesCheckpoints(c: Crypto, o: Options, bs: seq<Block>) {
    o.mode.Checkpoint? ==>
      forall i :: 0 <= i < |bs| && bs[i].header.height in o.checkpoints ==>
        Hash(c, bs[i]) == o.checkpoints[bs[i].header.height]
  }

  ghost predicate OnChain(o: Options, bs: seq<Block>) {
    forall i :: 0 <= i < |bs| ==> bs[i].header.chainID == o.chainID
  }

  /** Consecutive positive heights, starting where the options say when nothing is persisted. */
  ghost predicate Shaped(o: Options, s: State) {
    && s.store.Valid()
    && Consecutive(Held(s))
    && (Held(s) != [] ==> Held(s)[0].header.height > 0)
    && (s.pending.Some? && s.store.blocks == [] ==> s.pending.value.header.height == o.startHeight)
  }

  /**
   The held blocks form one linked chain whose blocks pass the checkpoints, and the
   verified height is the highest checkpoint among them (or an older one, now pruned).
   */
  ghost predicate Sound(c: Crypto, o: Options, s: State) {
    var held := Held(s);
    && Shaped(o, s)
    && LinkedChain(c, held) && AllHashed(c, held) && OnChain(o, held) && MatchesCheckpoints(c, o, held)
    && VerifiedIsTop(o, s)
  }

  ghost predicate VerifiedIsTop(o: Options, s: State) {
    if !o.mode.Checkpoint? then s.verified == 0
    else
      && s.verified >= 0
      && (s.verified > 0 ==> s.verified in o.checkpoints && Held(s) != [] && s.verified < Held(s)[0].header.height + |Held(s)|)
      && (forall i :: 0 <= i < |Held(s)| && Held(s)[i].header.height in o.checkpoints ==> Held(s)[i].header.height <= s.verified)
  }

  lemma NextIsAfterHeld(o: Options, s: State)
    requires s.store.Valid() && Consecutive(Held(s)) && Held(s) != []
    ensures NextHeight(o, s) == Held(s)[0].header.height + |Held(s)|
  {
    if s.pending.Some? {
      assert Held(s)[|Held(s)| - 1] == s.pending.value;
    }
  }

  /** A height is ready exactly when it is behind the head by the safety window, and in checkpoint mode verified. */
  lemma ReadyIff(o: Options, s: State, h: int)
    requires h > 0
    ensures h <= ReadyToArchive(o, s) <==> h <= s.store.Height() - o.safetyWindow && (o.mode.Checkpoint? ==> h <= s.verified)
  {
  }

  // ---------------------------------------------------------------- what acceptance means

  /** `v` may be trusted at `h`: it was configured, or it is what the source has and is in order. */
  ghost predicate Trusted(c: Crypto, o: Options, h: int, v: Validators) {
    if h in o.sets then v == o.sets[h] else o.source.Some? && o.source.value(h) == Some(v) && c.validatorsOk(v)
  }

  /** The trusted validators of a height are those its block names. */
  ghost predicate NamesTrusted(c: Crypto, o: Options, b: Block) {
    exists v :: Trusted(c, o, b.header.height, v) && b.header.validatorsHash == c.validatorsHash(v)
  }

  ghost predicate WellFormed(c: Crypto, o: Options, b: Block) {
    && b.header.chainID == o.chainID && b.header.height > 0 && Hash(c, b) != ""
    && b.lastCommit.Some? && b.header.lastCommitHash == c.commitHash(b.lastCommit.value)
    && (b.header.height > 1 ==> b.header.lastBlockID == b.lastCommit.value.blockID)
    && (o.mode.Checkpoint? && b.header.height in o.checkpoints ==> Hash(c, b) == o.checkpoints[b.header.height])
    && (o.mode.ValidatorSet? && (b.header.height in o.sets || o.source.Some?) ==> NamesTrusted(c, o, b))
  }

  /** The last commit of `next` is for exactly `b`; in validator-set mode trusted validators of that height signed it. */
  ghost predicate Certifies(c: Crypto, o: Options, next: Block, b: Block) {
    && next.lastCommit.Some? && c.partSet(b).Some?
    && var commit, id := next.lastCommit.value, BlockID(Hash(c, b), c.partSet(b).value);
    && commit.height == b.header.height && commit.blockID == id
    && (o.mode.ValidatorSet? ==> SignedBy(c, o, b.header.height, id, commit))
  }

  ghost predicate SignedBy(c: Crypto, o: Options, h: int, id: BlockID, commit: Commit) {
    exists v :: Trusted(c, o, h, v) && c.verifyCommit(v, o.chainID, id, h, commit)
  }

  lemma SetForIsTrusted(c: Crypto, o: Options, h: int, v: Validators)
    ensures SetFor(c, o, h) == Some(v) <==> Trusted(c, o, h, v)
  {
  }

  lemma ValidateIff(c: Crypto, o: Options, b: Block)
    ensures Validate(c, o, b).None? <==> WellFormed(c, o, b)
  {
    hide SetFor, Trusted, Hash;
    var v := SetFor(c, o, b.header.height);
    if v.Some? { SetForIsTrusted(c, o, b.header.height, v.value); }
    forall w ensures v == Some(w) <==> Trusted(c, o, b.header.height, w) { SetForIsTrusted(c, o, b.header.height, w); }
  }

  lemma CommitsIff(c: Crypto, o: Options, b: Block, next: Block)
    ensures Commits(c, o, b, next).None? <==> Certifies(c, o, next, b)
  {
    hide SetFor, Trusted, Hash;
    var v := SetFor(c, o, b.header.height);
    if v.Some? { SetForIsTrusted(c, o, b.header.height, v.value); }
    forall w ensures v == Some(w) <==> Trusted(c, o, b.header.height, w) { SetForIsTrusted(c, o, b.header.height, w); }
  }

  /** A block is accepted exactly when it is well formed, the next one, and builds on what is there. */
  lemma SubmitAcceptsIff(c: Crypto, o: Options, s: State, b: Block)
    ensures Submit(c, o, s, Some(b)).Ok? <==>
              && WellFormed(c, o, b) && b.header.height == NextHeight(o, s)
              && (s.pending.Some? ==> Certifies(c, o, b, s.pending.value))
              && (s.pending.None? && s.store.Has(s.store.Height()) ==>
                    b.lastCommit.value.blockID.hash == Hash(c, s.store.Load(s.store.Height()).value))
  {
    hide Validate, Commits, Certifies, Hash;
    ValidateIff(c, o, b);
    if s.pending.Some? { CommitsIff(c, o, s.pending.value, b); }
  }

  /** An accepted block is appended to the held chain, and links to it. */
  lemma SubmitAppends(c: Crypto, o: Options, s: State, b: Block)
    requires Shaped(o, s) && Submit(c, o, s, Some(b)).Ok?
    ensures var t := Submit(c, o, s, Some(b)).value;
            && Shaped(o, t)
            && Held(t) == Held(s) + [b]
            && t.pending == Some(b)
            && t.verified == Mark(o, s.verified, b)
            && b.header.height == NextHeight(o, s)
            && Hash(c, b) != "" && b.header.chainID == o.chainID
            && (o.mode.Checkpoint? && b.header.height in o.checkpoints ==> Hash(c, b) == o.checkpoints[b.header.height])
            && (Held(s) != [] ==> Linked(c, Held(s)[|Held(s)| - 1], b))
  {
    hide Validate, Commits, NamesTrusted, SignedBy, Mark;
    SubmitAcceptsIff(c, o, s, b);
    if Held(s) != [] { NextIsAfterHeld(o, s); }
    if s.pending.Some? && s.store.blocks == [] {
      assert Held(s) == [s.pending.value];
    }
    if s.pending.Some? {
      assert Held(s)[|Held(s)| - 1] == s.pending.value;
    }
  }

  lemma TopBy(o: Options, s: State, t: State, b: Block)
    requires Shaped(o, s) && VerifiedIsTop(o, s)
    requires Held(t) == Held(s) + [b] && t.verified == Mark(o, s.verified, b)
    requires b.header.height > 0 && (Held(s) != [] ==> b.header.height == Held(s)[0].header.height + |Held(s)|)
    ensures VerifiedIsTop(o, t)
  {
    assert Held(t)[|Held(s)|] == b;
    assert Held(s) != [] ==> Held(t)[0] == Held(s)[0];
  }

  lemma SubmitKeepsSound(c: Crypto, o: Options, s: State, b: Block)
    requires Sound(c, o, s) && Submit(c, o, s, Some(b)).Ok?
    ensures Sound(c, o, Submit(c, o, s, Some(b)).value)
  {
    SubmitAppends(c, o, s, b);
    if Held(s) != [] { NextIsAfterHeld(o, s); }
    SoundBy(c, o, s, Submit(c, o, s, Some(b)).value, b);
  }

  lemma SoundBy(c: Crypto, o: Options, s: State, t: State, b: Block)
    requires Sound(c, o, s) && Shaped(o, t)
    requires Held(t) == Held(s) + [b] && t.verified == Mark(o, s.verified, b) && Hash(c, b) != ""
    requires b.header.chainID == o.chainID && b.header.height > 0
    requires Held(s) != [] ==> Linked(c, Held(s)[|Held(s)| - 1], b) && b.header.height == Held(s)[0].header.height + |Held(s)|
    requires o.mode.Checkpoint? && b.header.height in o.checkpoints ==> Hash(c, b) == o.checkpoints[b.header.height]
    ensures Sound(c, o, t)
  {
    LinkedExtend(c, Held(s), b);
    TopBy(o, s, t, b);
  }

  // ---------------------------------------------------------------- the object

  datatype IngestResult = IngestResult(accepted: int, persisted: int, hotBase: int, hotHeight: int, ready: int)

  datatype StartError =
    | NoChainID | NegativeStart | NoCheckpoints | BadCheckpoint | NoValidatorSets | BadValidatorSet
    | NegativeWindow | BrokenCheckpointChain

  function Normalized(o: Options, st: Store): Options {
    if o.startHeight <= 0 then o.(startHeight := st.Height() + 1) else o
  }

  predicate HexDigest(d: Digest) { |d| == 64 && forall i :: 0 <= i < |d| ==> '0' <= d[i] <= '9' || 'a' <= d[i] <= 'f' }

  /** What startup checks of the options, with checkpoint hashes trimmed and in lower case. */
  ghost predicate Startable(c: Crypto, o: Options) {
    && o.chainID != "" && o.startHeight >= 0 && o.safetyWindow >= 0
    && (o.mode.Checkpoint? ==> o.checkpoints != map[] && forall h :: h in o.checkpoints ==> h > 0 && HexDigest(o.checkpoints[h]))
    && (o.mode.ValidatorSet? ==>
          (o.sets != map[] || o.source.Some?) && forall h :: h in o.sets ==> h > 0 && c.validatorsOk(o.sets[h]))
  }

  class HotIngestor {
    const c: Crypto
    const opts: Options
    var store: Store
    var pending: Option<Block>
    var verifiedThrough: int
    var fetchedSets: map<int, Validators>
    var fetchedHeights: seq<int>

    ghost function View(): State
      reads this
    {
      State(store, pending, verifiedThrough)
    }

    /** The cache of fetched validator sets holds what the source would answer, and stays bounded. */
    ghost predicate Valid()
      reads this
    {
      && |fetchedHeights| <= MAX_FETCHED_SETS
      && (forall i, j :: 0 <= i < j < |fetchedHeights| ==> fetchedHeights[i] != fetchedHeights[j])
      && (forall h :: h in fetchedSets <==> h in fetchedHeights)
      && (forall h :: h in fetchedSets ==> h !in opts.sets && SetFor(c, opts, h) == Some(fetchedSets[h]))
    }

    constructor (c: Crypto, opts: Options, store: Store, verified: int)
      ensures this.c == c && this.opts == opts
      ensures View() == State(store, None, verified) && Valid()
    {
      this.c, this.opts, this.store, this.verifiedThrough := c, opts, store, verified;
      pending, fetchedSets, fetchedHeights := None, map[], [];
    }

    /** Checks the options, then recovers the verified height from the store: starts if and only if both succeed. */
    static method Start(c: Crypto, o: Options, st: Store) returns (r: Result<HotIngestor, StartError>)
      requires st.Valid()
      ensures r.Ok? ==>
                && Startable(c, o) && r.value.c == c && r.value.opts == Normalized(o, st)
                && r.value.Valid() && r.value.View() == State(st, None, r.value.verifiedThrough)
                && Recovers(c, Normalized(o, st), st, Some(r.value.verifiedThrough))
      ensures r.Err? ==> if r.error.BrokenCheckpointChain? then Startable(c, o) && Recovers(c, Normalized(o, st), st, None) else !Startable(c, o)
    {
      if o.chainID == "" { return Err(NoChainID); }
      if o.startHeight < 0 { return Err(NegativeStart); }
      var opts := Normalized(o, st);
      if opts.mode.Checkpoint? && |opts.checkpoints| == 0 { return Err(NoCheckpoints); }
      var todo := if opts.mode.Checkpoint? then opts.checkpoints.Keys else {};
      while todo != {}
        invariant todo <= opts.checkpoints.Keys
        invariant opts.mode.Checkpoint? ==> forall h :: h in opts.checkpoints && h !in todo ==> h > 0 && HexDigest(opts.checkpoints[h])
        invariant todo != {} ==> opts.mode.Checkpoint?
        decreases todo
      {
        SomeInt(todo);
        var h :| h in todo;
        if h <= 0 || !HexDigest(opts.checkpoints[h]) { return Err(BadCheckpoint); }
        todo := todo - {h};
      }
      if opts.mode.ValidatorSet? && |opts.sets| == 0 && opts.source.None? { return Err(NoValidatorSets); }
      if opts.mode.ValidatorSet? && (exists h :: h in opts.sets && (h <= 0 || !c.validatorsOk(opts.sets[h]))) {
        return Err(BadValidatorSet);
      }
      if opts.safetyWindow < 0 { return Err(NegativeWindow); }
      var verified := Recover(c, opts, st);
      if verified.None? { return Err(BrokenCheckpointChain); }
      var ingestor := new HotIngestor(c, opts, st, verified.value);
      return Ok(ingestor);
    }

    method LookUpSet(h: int) returns (v: Option<Validators>)
      requires Valid()
      modifies `fetchedSets, `fetchedHeights
      ensures Valid()
      ensures v == SetFor(c, opts, h)
    {
      if h in opts.sets { return Some(opts.sets[h]); }
      if h in fetchedSets { return Some(fetchedSets[h]); }
      if opts.source.None? { return None; }
      v := opts.source.value(h);
      if v.None? || !c.validatorsOk(v.value) { return None; }
      if |fetchedHeights| >= MAX_FETCHED_SETS {
        var evict := fetchedHeights[0];
        fetchedHeights := fetchedHeights[1..];
        fetchedSets := fetchedSets - {evict};
      }
      fetchedSets := fetchedSets[h := v.value];
      fetchedHeights := fetchedHeights + [h];
    }

    method ValidateBlock(b: Block) returns (e: Option<Rejection>)
      requires Valid()
      modifies `fetchedSets, `fetchedHeights
      ensures Valid() && e == Validate(c, opts, b)
    {
      var h := b.header.height;
      if b.header.chainID != opts.chainID { return Some(WrongChain); }
      if h <= 0 { return Some(BadHeight); }
      if Hash(c, b) == "" { return Some(EmptyHash); }
      if b.lastCommit.Some? && h > 1 && b.header.lastBlockID != b.lastCommit.value.blockID { return Some(LastBlockIDMismatch); }
      if b.lastCommit.None? || b.header.lastCommitHash != c.commitHash(b.lastCommit.value) { return Some(LastCommitHashMismatch); }
      if opts.mode.Checkpoint? && h in opts.checkpoints && Hash(c, b) != opts.checkpoints[h] { return Some(CheckpointMismatch); }
      if opts.mode.ValidatorSet? && (h in opts.sets || opts.source.Some?) {
        var v := LookUpSet(h);
        if v.None? { return Some(NoValidatorSet); }
        if b.header.validatorsHash != c.validatorsHash(v.value) { return Some(ValidatorsHashMismatch); }
      }
      return None;
    }

    method PersistPending(next: Block) returns (e: Option<Rejection>)
      requires Valid() && pending.Some?
      modifies `store, `fetchedSets, `fetchedHeights
      ensures Valid() && e == Commits(c, opts, pending.value, next)
      ensures store == if e.None? then old(store).Save(pending.value) else old(store)
    {
      var p := pending.value;
      if next.lastCommit.None? || next.lastCommit.value.height != p.header.height { return Some(CommitHeightMismatch); }
      var id, parts := next.lastCommit.value.blockID, c.partSet(p);
      if parts.None? { return Some(NoPartSet); }
      if id.hash != Hash(c, p) { return Some(CommitHashMismatch); }
      if id.parts != parts.value { return Some(CommitPartsMismatch); }
      if opts.mode.ValidatorSet? {
        var v := LookUpSet(p.header.height);
        if v.None? { return Some(NoValidatorSet); }
        if !c.verifyCommit(v.value, opts.chainID, BlockID(Hash(c, p), parts.value), p.header.height, next.lastCommit.value) {
          return Some(BadCommit);
        }
      }
      store := store.Save(p);
      return None;
    }

    method SubmitBlock(block: Option<Block>) returns (r: Result<IngestResult, Rejection>)
      requires Valid()
      modifies this
      ensures Valid()
      ensures var t := Submit(c, opts, old(View()), block);
              if t.Ok? then
                && View() == t.value
                && r == Ok(IngestResult(block.value.header.height, if old(pending).Some? then old(pending).value.header.height else 0,
                                        store.base, store.Height(), ReadyToArchive(opts, View())))
              else View() == old(View()) && r == Err(t.error)
    {
      if block.None? { return Err(NilBlock); }
      var b := block.value;
      var e := ValidateBlock(b);
      if e.Some? { return Err(e.value); }
      var expected := if pending.Some? then pending.value.header.height + 1
                      else if store.Height() > 0 then store.Height() + 1 else opts.startHeight;
      if b.header.height != expected { return Err(UnexpectedHeight); }
      var persisted := 0;
      if pending.None? {
        var previous := store.Load(store.Height());
        if previous.Some? && (b.lastCommit.None? || b.lastCommit.value.blockID.hash != Hash(c, previous.value)) {
          return Err(NotOnHead);
        }
      } else {
        e := PersistPending(b);
        if e.Some? { return Err(e.value); }
        persisted := pending.value.header.height;
      }
      pending := Some(b);
      if opts.mode.Checkpoint? && b.header.height in opts.checkpoints { verifiedThrough := b.header.height; }
      return Ok(IngestResult(b.header.height, persisted, store.base, store.Height(), ReadyToArchive(opts, State(store, pending, verifiedThrough))));
    }
  }
}
