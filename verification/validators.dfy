/**
 What validator-set mode promises over whole runs: whatever was saved had been signed for
 by trusted validators.
 */
module ValidatorMode {
  import opened Common
  import opened Chain
  import opened Ingest
  import K = Checkpoints

  /** The header of `b` names validators trusted at its height, and such validators signed exactly `b` in `next`. */
  ghost predicate Vouched(c: Crypto, o: Options, b: Block, next: Block) {
    && NamesTrusted(c, o, b)
    && next.lastCommit.Some? && c.partSet(b).Some?
    && SignedBy(c, o, b.header.height, BlockID(Hash(c, b), c.partSet(b).value), next.lastCommit.value)
  }

  /** Some arrival before `k` had `b` saved, and vouched for it. */
  ghost predicate SavedOnEvidence(c: Crypto, o: Options, ss: seq<State>, es: seq<K.Event>, k: nat, b: Block)
    requires k <= |es| < |ss|
  {
    exists i :: 0 <= i < k && es[i].Arrive? && es[i].block.Some? && ss[i].pending == Some(b) && Vouched(c, o, b, es[i].block.value)
  }

  /** The pending block names trusted validators, wherever there are any. */
  ghost predicate PendingNames(c: Crypto, o: Options, s: State) {
    s.pending.Some? ==>
      var b := s.pending.value; b.header.height in o.sets || o.source.Some? ==> NamesTrusted(c, o, b)
  }

  lemma TrustNeedsSource(c: Crypto, o: Options, h: int, v: Validators)
    requires Trusted(c, o, h, v)
    ensures h in o.sets || o.source.Some?
  {
  }

  lemma StepKeepsNames(c: Crypto, o: Options, s: State, e: K.Event, t: State)
    requires o.mode.ValidatorSet? && PendingNames(c, o, s) && K.Step(c, o, s, e, t)
    ensures PendingNames(c, o, t)
  {
    hide NamesTrusted, Certifies, Recovers;
    if e.Arrive? && e.block.Some? { SubmitAcceptsIff(c, o, s, e.block.value); }
  }

  /** What an arrival saves it vouches for. */
  lemma SavingVouches(c: Crypto, o: Options, s: State, b: Block)
    requires o.mode.ValidatorSet? && PendingNames(c, o, s) && s.pending.Some? && Submit(c, o, s, Some(b)).Ok?
    ensures Vouched(c, o, s.pending.value, b)
  {
    hide NamesTrusted, WellFormed, Trusted;
    SubmitAcceptsIff(c, o, s, b);
    var p := s.pending.value;
    var v :| Trusted(c, o, p.header.height, v) && c.verifyCommit(v, o.chainID, BlockID(Hash(c, p), c.partSet(p).value), p.header.height, b.lastCommit.value);
    TrustNeedsSource(c, o, p.header.height, v);
  }

  lemma StoreGains(c: Crypto, o: Options, s: State, e: K.Event, t: State, h: int)
    requires K.Step(c, o, s, e, t) && t.store.Load(h).Some? && s.store.Load(h) != t.store.Load(h)
    ensures e.Arrive? && e.block.Some? && Submit(c, o, s, e.block).Ok? && s.pending == t.store.Load(h)
  {
    hide Validate, Commits, Recovers;
  }

  lemma {:induction false} RunKeepsNames(c: Crypto, o: Options, ss: seq<State>, es: seq<K.Event>, k: nat)
    requires o.mode.ValidatorSet? && K.Run(c, o, ss, es) && ss[0].pending.None? && k < |ss|
    ensures PendingNames(c, o, ss[k])
  {
    if k > 0 {
      RunKeepsNames(c, o, ss, es, k - 1);
      StepKeepsNames(c, o, ss[k - 1], es[k - 1], ss[k]);
    }
  }

  /**
   In validator-set mode, over every run of arrivals, prunes and restarts, every stored block
   that the store did not start with was saved on an arrival whose last commit trusted
   validators of that height had signed for exactly that block.
   */
  lemma {:induction false} SavedIsVouchedFor(c: Crypto, o: Options, ss: seq<State>, es: seq<K.Event>, k: nat, h: int)
    requires o.mode.ValidatorSet? && K.Run(c, o, ss, es) && ss[0].pending.None? && k < |ss|
    requires ss[k].store.Load(h).Some? && ss[k].store.Load(h) != ss[0].store.Load(h)
    ensures SavedOnEvidence(c, o, ss, es, k, ss[k].store.Load(h).value)
    decreases k
  {
    hide K.Step, Vouched;
    var b := ss[k].store.Load(h).value;
    if ss[k - 1].store.Load(h) == Some(b) {
      SavedIsVouchedFor(c, o, ss, es, k - 1, h);
      var i :| 0 <= i < k - 1 && es[i].Arrive? && es[i].block.Some? && ss[i].pending == Some(b) && Vouched(c, o, b, es[i].block.value);
    } else {
      StoreGains(c, o, ss[k - 1], es[k - 1], ss[k], h);
      RunKeepsNames(c, o, ss, es, k - 1);
      SavingVouches(c, o, ss[k - 1], es[k - 1].block.value);
    }
  }
}
