/** The per-peer token bucket in front of cold reads. */
module Budget {
  import opened Common
  import P = Planner

  const BURST := 64.0
  const RATE := 32.0
  const MAX_BUDGETS: nat := 1024

  datatype Bucket = Bucket(tokens: real, updated: real)

  function Refill(b: Bucket, now: real): real {
    var t := b.tokens + (now - b.updated) * RATE;
    if t <= BURST then t else BURST
  }

  predicate Grants(b: Bucket, now: real) { Refill(b, now) >= 1.0 }

  function Ask(b: Bucket, now: real): Bucket {
    Bucket(if Grants(b, now) then Refill(b, now) - 1.0 else Refill(b, now), now)
  }

  /** The bucket after requests at `times`, in the order they were handled. */
  function After(b: Bucket, times: seq<real>): Bucket {
    if times == [] then b else Ask(After(b, times[..|times| - 1]), times[|times| - 1])
  }

  function Granted(b: Bucket, times: seq<real>): nat {
    if times == [] then 0
    else
      var before := times[..|times| - 1];
      Granted(b, before) + if Grants(After(b, before), times[|times| - 1]) then 1 else 0
  }

  ghost predicate Nondecreasing(times: seq<real>, from: real) {
    && (forall i :: 0 <= i < |times| ==> from <= times[i])
    && (forall i, j :: 0 <= i < j < |times| ==> times[i] <= times[j])
  }

  /** Tokens left and tokens handed out never exceed the burst plus what time has refilled. */
  lemma {:induction false} TokensAreConserved(b: Bucket, times: seq<real>)
    requires b.tokens <= BURST && times != []
    ensures After(b, times).tokens + Granted(b, times) as real <= BURST + RATE * (times[|times| - 1] - times[0])
    ensures After(b, times).updated == times[|times| - 1]
  {
    var before, last := times[..|times| - 1], times[|times| - 1];
    if before != [] {
      TokensAreConserved(b, before);
      assert before[0] == times[0];
      var mid := After(b, before);
      assert Refill(mid, last) <= mid.tokens + (last - mid.updated) * RATE;
      assert (last - mid.updated) * RATE == RATE * (last - times[0]) - RATE * (mid.updated - times[0]);
    } else {
      assert times[0] == last;
      assert After(b, before) == b;
      assert Granted(b, before) == 0;
    }
  }

  /** When requests are handled in time order, the tokens stay between zero and the burst. */
  lemma {:induction false} TokensStayInRange(b: Bucket, times: seq<real>)
    requires 0.0 <= b.tokens <= BURST && Nondecreasing(times, b.updated)
    ensures 0.0 <= After(b, times).tokens <= BURST
    ensures times != [] ==> After(b, times).updated == times[|times| - 1]
  {
    if times != [] {
      TokensStayInRange(b, times[..|times| - 1]);
    }
  }

  /** A request leaves the bucket non-negative exactly when the clock has not run back further than the tokens reach. */
  lemma OutOfOrderRequests(b: Bucket, now: real)
    requires b.tokens <= BURST
    ensures Ask(b, now).tokens >= 0.0 <==> (b.updated - now) * RATE <= b.tokens
  {
  }

  lemma {:induction false} AfterConcat(b: Bucket, xs: seq<real>, ys: seq<real>)
    ensures After(b, xs + ys) == After(After(b, xs), ys)
    ensures Granted(b, xs + ys) == Granted(b, xs) + Granted(After(b, xs), ys)
  {
    if ys == [] {
      assert xs + ys == xs;
    } else {
      var init := ys[..|ys| - 1];
      assert (xs + ys)[..|xs + ys| - 1] == xs + init;
      AfterConcat(b, xs, init);
    }
  }

  /**
   One connection's requests `i` to `j - 1`, out of any run in time order, that all fall
   within `t` seconds are granted at most 64 + 32 t tokens.
   */
  lemma RateIsBounded(start: real, times: seq<real>, i: nat, j: nat, t: real)
    requires Nondecreasing(times, start) && i < j <= |times| && times[j - 1] - times[i] <= t
    ensures var mid := After(Bucket(BURST, start), times[..i]);
            Granted(mid, times[i..j]) as real <= BURST + RATE * t
  {
    var b := Bucket(BURST, start);
    var mid, part := After(b, times[..i]), times[i..j];
    TokensStayInRange(b, times[..i]);
    assert Nondecreasing(part, mid.updated);
    TokensAreConserved(mid, part);
    TokensStayInRange(mid, part);
    assert part[0] == times[i] && part[|part| - 1] == times[j - 1];
    assert RATE * (times[j - 1] - times[i]) <= RATE * t;
  }

  /** The same bound for requests handled in any order, counted up to one that was granted. */
  lemma RateIsBoundedInAnyOrder(b: Bucket, times: seq<real>, t: real)
    requires b.tokens <= BURST && times != [] && times[|times| - 1] - times[0] <= t
    requires Grants(After(b, times[..|times| - 1]), times[|times| - 1])
    ensures Granted(b, times) as real <= BURST + RATE * t
  {
    TokensAreConserved(b, times);
    assert RATE * (times[|times| - 1] - times[0]) <= RATE * t;
  }

  // ---------------------------------------------------------------- exactly which requests are granted

  /** How many of the requests `i` to `k - 1` of a connection are granted. */
  function GrantedBetween(start: real, times: seq<real>, i: nat, k: nat): nat
    requires i <= k <= |times|
  {
    Granted(After(Bucket(BURST, start), times[..i]), times[i..k])
  }

  /** The tokens that request `k` finds. */
  function Found(start: real, times: seq<real>, k: nat): real
    requires k < |times|
  {
    Refill(After(Bucket(BURST, start), times[..k]), times[k])
  }

  lemma OneMore(start: real, times: seq<real>, i: nat, k: nat)
    requires i <= k < |times|
    ensures GrantedBetween(start, times, i, k + 1) == GrantedBetween(start, times, i, k) + if Found(start, times, k) >= 1.0 then 1 else 0
    ensures GrantedBetween(start, times, i, i) == 0
  {
    var b := After(Bucket(BURST, start), times[..i]);
    assert times[i..k + 1][..k - i] == times[i..k];
    assert times[..k] == times[..i] + times[i..k];
    AfterConcat(Bucket(BURST, start), times[..i], times[i..k]);
    assert times[i..i] == [];
  }

  lemma FoundNext(start: real, times: seq<real>, k: nat)
    requires 0 < k < |times|
    ensures var t := Found(start, times, k - 1) - (if Found(start, times, k - 1) >= 1.0 then 1.0 else 0.0) + (times[k] - times[k - 1]) * RATE;
            Found(start, times, k) == if t <= BURST then t else BURST
  {
    assert times[..k][..k - 1] == times[..k - 1];
  }

  lemma {:induction false} FoundAtMost(start: real, times: seq<real>, i: nat, k: nat)
    requires i <= k < |times|
    ensures Found(start, times, k) <= BURST + RATE * (times[k] - times[i]) - GrantedBetween(start, times, i, k) as real
    decreases k
  {
    hide Found, GrantedBetween;
    OneMore(start, times, i, if i < k then k - 1 else i);
    if i < k {
      FoundAtMost(start, times, i, k - 1);
      FoundNext(start, times, k);
      assert RATE * (times[k] - times[i]) == RATE * (times[k - 1] - times[i]) + (times[k] - times[k - 1]) * RATE;
    } else {
      FoundAtMostBurst(start, times, k);
      assert RATE * (times[k] - times[i]) == 0.0;
    }
  }

  lemma FoundAtMostBurst(start: real, times: seq<real>, k: nat)
    requires k < |times|
    ensures Found(start, times, k) <= BURST
  {
  }

  /** Some stretch that ends with request `k` leaves exactly the tokens it finds. */
  lemma {:induction false} FoundExactly(start: real, times: seq<real>, k: nat) returns (i: nat)
    requires k < |times| && start <= times[0]
    ensures i <= k && Found(start, times, k) == BURST + RATE * (times[k] - times[i]) - GrantedBetween(start, times, i, k) as real
    decreases k
  {
    hide GrantedBetween;
    i := k;
    OneMore(start, times, k, k);
    assert RATE * (times[k] - times[k]) == 0.0;
    if k == 0 {
      assert times[..0] == [];
    } else {
      FoundNext(start, times, k);
      hide Found;
      if Found(start, times, k) != BURST {
        i := FoundExactly(start, times, k - 1);
        OneMore(start, times, i, k - 1);
        assert RATE * (times[k] - times[i]) == RATE * (times[k - 1] - times[i]) + (times[k] - times[k - 1]) * RATE;
      }
    }
  }

  /** With request `k` granted too, no stretch that ends with it gets more than 64 and 32 a second. */
  ghost predicate Affordable(start: real, times: seq<real>, k: nat)
    requires k < |times|
  {
    forall i :: 0 <= i <= k ==> GrantedBetween(start, times, i, k) as real + 1.0 <= BURST + RATE * (times[k] - times[i])
  }

  /**
   The bucket refuses nothing needlessly: a request is granted if and only if every stretch of
   requests that ends with it stays within 64 and 32 a second, in whatever order they come.
   */
  lemma GrantedIffAffordable(start: real, times: seq<real>, k: nat)
    requires k < |times| && start <= times[0]
    ensures Grants(After(Bucket(BURST, start), times[..k]), times[k]) <==> Affordable(start, times, k)
  {
    hide GrantedBetween;
    if Found(start, times, k) >= 1.0 {
      forall i | 0 <= i <= k ensures GrantedBetween(start, times, i, k) as real + 1.0 <= BURST + RATE * (times[k] - times[i]) {
        FoundAtMost(start, times, i, k);
      }
    }
    var i := FoundExactly(start, times, k);
  }

  class ColdBudgets {
    var buckets: map<P.PeerID, Bucket>

    ghost predicate Valid()
      reads this
    {
      |buckets| <= MAX_BUDGETS && forall id :: id in buckets ==> buckets[id].tokens <= BURST
    }

    constructor ()
      ensures Valid() && buckets == map[]
    {
      buckets := map[];
    }

    /** Takes one token from the peer's bucket; an unknown peer gets a full one while there is room. */
    method Take(id: P.PeerID, now: real) returns (granted: bool)
      requires Valid()
      modifies this
      ensures Valid()
      ensures var full := id !in old(buckets) && |old(buckets)| >= MAX_BUDGETS;
              var b := if id in old(buckets) then old(buckets)[id] else Bucket(BURST, now);
              && granted == (!full && Grants(b, now))
              && buckets == if full then old(buckets) else old(buckets)[id := Ask(b, now)]
    {
      var b: Bucket;
      if id in buckets {
        b := buckets[id];
      } else {
        if |buckets| >= MAX_BUDGETS { return false; }
        b := Bucket(BURST, now);
      }
      var tokens := b.tokens + (now - b.updated) * RATE;
      if tokens > BURST { tokens := BURST; }
      assert (buckets - {id})[id := b].Keys == buckets.Keys + {id};
      if tokens < 1.0 {
        buckets := buckets[id := Bucket(tokens, now)];
        return false;
      }
      buckets := buckets[id := Bucket(tokens - 1.0, now)];
      return true;
    }

    method Forget(id: P.PeerID)
      requires Valid()
      modifies this
      ensures Valid() && buckets == old(buckets) - {id}
    {
      var rest := buckets - {id};
      SubsetSize(rest.Keys, buckets.Keys);
      buckets := rest;
    }
  }
}
