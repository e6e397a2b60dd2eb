/** The per-user token bucket that guards buyer creation: at most
    `MaxTokens` tokens per key, refilled at `RefillRate` token per whole
    second elapsed. The clock is the `now` parameter, in milliseconds. */
module RateLimit {

  const MaxTokens: int := 10
  const RefillRate: int := 1

  /** The value of one bucket: its tokens and the time of its last refill. */
  datatype Bucket = Bucket(tokens: int, lastRefill: int)

  function Min(a: int, b: int): int { if a <= b then a else b }

  /** Whole tokens earned since the last refill: `floor(elapsed / 1000) * rate`.
      Dafny's `/` rounds down for a positive divisor, as `Math.floor` does,
      also when the clock went backwards. */
  function TokensToAdd(b: Bucket, now: int): int {
    (now - b.lastRefill) / 1000 * RefillRate
  }

  /** The refill step: when at least one token is due, add it up to the cap
      and move `lastRefill` to `now`; otherwise leave the bucket alone. */
  function Refill(b: Bucket, now: int): (r: Bucket)
    ensures TokensToAdd(b, now) <= 0 ==> r == b
    ensures TokensToAdd(b, now) > 0 ==>
      && r.lastRefill == now && r.tokens <= MaxTokens
      && r.tokens <= b.tokens + TokensToAdd(b, now)
      && (r.tokens == MaxTokens || r.tokens == b.tokens + TokensToAdd(b, now))
    ensures 0 <= b.tokens <= MaxTokens ==> 0 <= r.tokens <= MaxTokens
  {
    var add := TokensToAdd(b, now);
    if add > 0 then Bucket(Min(b.tokens + add, MaxTokens), now) else b
  }

  /** All buckets hold between 0 and `MaxTokens` tokens. */
  predicate InRange(m: map<string, Bucket>) {
    forall k :: k in m ==> 0 <= m[k].tokens <= MaxTokens
  }

  /** One call of `check(key)` at time `now` on the buckets `m`: the verdict
      and the buckets afterwards. */
  function Step(m: map<string, Bucket>, key: string, now: int): (bool, map<string, Bucket>) {
    if key !in m then (true, m[key := Bucket(MaxTokens, now)])
    else
      var b := Refill(m[key], now);
      if b.tokens > 0 then (true, m[key := b.(tokens := b.tokens - 1)])
      else (false, m[key := b])
  }

  /** A key seen for the first time gets a full bucket stamped `now` and is
      let through without spending a token. */
  lemma FirstCheckIsFree(m: map<string, Bucket>, key: string, now: int)
    requires key !in m
    ensures Step(m, key, now).0
    ensures key in Step(m, key, now).1 && Step(m, key, now).1[key] == Bucket(MaxTokens, now)
  {
  }

  /** For a known key the verdict is "allow" exactly when the refilled
      bucket still has a token; an allowed call spends exactly one, a denied
      call leaves every bucket as it was. */
  lemma StepSpendsOneToken(m: map<string, Bucket>, key: string, now: int)
    requires key in m && InRange(m)
    ensures var (ok, m') := Step(m, key, now);
      && (ok <==> Refill(m[key], now).tokens > 0)
      && key in m'
      && (ok ==> m'[key].tokens == Refill(m[key], now).tokens - 1 && m'[key].lastRefill == Refill(m[key], now).lastRefill)
      && (!ok ==> m' == m)
  {
    var b := Refill(m[key], now);
    if b.tokens <= 0 {
      assert TokensToAdd(m[key], now) <= 0;
      assert m[key := b] == m;
    }
  }

  /** A check touches its own key's bucket only, and keeps every bucket
      within `0..MaxTokens`. */
  lemma StepKeepsOthers(m: map<string, Bucket>, key: string, now: int)
    requires InRange(m)
    ensures var m' := Step(m, key, now).1;
      && m'.Keys == m.Keys + {key}
      && (forall k :: k in m && k != key ==> m'[k] == m[k])
      && InRange(m')
  {
  }

  /** The verdicts of `n` checks of the same key at the same instant. */
  function Burst(m: map<string, Bucket>, key: string, now: int, n: nat): (r: seq<bool>)
    ensures |r| == n
    decreases n
  {
    if n == 0 then []
    else
      var (ok, m') := Step(m, key, now);
      [ok] + Burst(m', key, now, n - 1)
  }

  /** A bucket refilled at `now` with `t` tokens lets exactly the next `t`
      checks at `now` through. */
  lemma {:induction false} BurstFromBucket(m: map<string, Bucket>, key: string, now: int, t: int, n: nat)
    requires key in m && m[key] == Bucket(t, now) && 0 <= t <= MaxTokens
    ensures forall i :: 0 <= i < n ==> Burst(m, key, now, n)[i] == (i < t)
  {
    if n > 0 {
      var (ok, m') := Step(m, key, now);
      assert Refill(m[key], now) == m[key];
      if t > 0 {
        BurstFromBucket(m', key, now, t - 1, n - 1);
      } else {
        BurstFromBucket(m', key, now, t, n - 1);
      }
      var r := Burst(m, key, now, n);
      assert r == [ok] + Burst(m', key, now, n - 1);
      forall i | 0 <= i < n ensures r[i] == (i < t) {
        if i > 0 {
          assert r[i] == Burst(m', key, now, n - 1)[i - 1];
        }
      }
    }
  }

  /** With no time passing, a fresh key gets exactly `MaxTokens + 1` = 11
      admissions: the free first call, then the ten tokens. */
  lemma FreshKeyBurst(m: map<string, Bucket>, key: string, now: int, n: nat)
    requires key !in m
    ensures forall i :: 0 <= i < n ==> Burst(m, key, now, n)[i] == (i < MaxTokens + 1)
  {
    if n > 0 {
      var (ok, m') := Step(m, key, now);
      BurstFromBucket(m', key, now, MaxTokens, n - 1);
      var r := Burst(m, key, now, n);
      assert r == [ok] + Burst(m', key, now, n - 1);
      forall i | 0 <= i < n ensures r[i] == (i < MaxTokens + 1) {
        if i > 0 {
          assert r[i] == Burst(m', key, now, n - 1)[i - 1];
        }
      }
    }
  }

  /** The limiter: the map from user id to that user's bucket. */
  class RateLimiter {
    var tokenBucket: map<string, Bucket>

    /** Every bucket holds between 0 and `MaxTokens` tokens. */
    ghost predicate Valid()
      reads this
    {
      InRange(tokenBucket)
    }

    constructor ()
      ensures Valid() && tokenBucket == map[]
    {
      tokenBucket := map[];
    }

    /** `rateLimit.check(userId)` at time `now`. */
    method Check(userId: string, now: int) returns (ok: bool)
      requires Valid()
      modifies this
      ensures Valid()
      ensures (ok, tokenBucket) == Step(old(tokenBucket), userId, now)
    {
      if userId !in tokenBucket {
        tokenBucket := tokenBucket[userId := Bucket(MaxTokens, now)];
        return true;
      }
      var userBucket := tokenBucket[userId];
      var tokensToAdd := (now - userBucket.lastRefill) / 1000 * RefillRate;
      if tokensToAdd > 0 {
        userBucket := Bucket(Min(userBucket.tokens + tokensToAdd, MaxTokens), now);
      }
      assert userBucket == Refill(old(tokenBucket)[userId], now);
      if userBucket.tokens > 0 {
        userBucket := userBucket.(tokens := userBucket.tokens - 1);
        ok := true;
      } else {
        ok := false;
      }
      tokenBucket := tokenBucket[userId := userBucket];
      StepKeepsOthers(old(tokenBucket), userId, now);
    }
  }
}
