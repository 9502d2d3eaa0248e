// The token-bucket limiter (server/rate-limiter.ts), over reals and a clock in milliseconds.
module RateLimiter {
  import opened Prelude

  datatype Config = Config(maxTokens: real, refillRate: real)
  datatype Bucket = Bucket(tokens: real, lastRefill: real)

  function Min(a: real, b: real): real {
    if a <= b then a else b
  }

  /** What refills in the milliseconds from one time to another. */
  function Gain(c: Config, from: real, to: real): real {
    (to - from) / 1000.0 * c.refillRate
  }

  function Refilled(c: Config, b: Bucket, now: real): Bucket {
    Bucket(Min(c.maxTokens, b.tokens + Gain(c, b.lastRefill, now)), now)
  }

  function Consumed(c: Config, b: Bucket, now: real): (Bucket, bool) {
    var r := Refilled(c, b, now);
    if r.tokens >= 1.0 then (r.(tokens := r.tokens - 1.0), true) else (r, false)
  }

  // ---- One key -----------------------------------------------------------------------------------

  ghost predicate Monotone(times: seq<real>) {
    forall i, j :: 0 <= i < j < |times| ==> times[i] <= times[j]
  }

  /** The tokens that request k finds, the first one a full bucket. */
  function Level(c: Config, times: seq<real>, k: nat): real
    requires k < |times|
  {
    if k == 0 then c.maxTokens
    else Min(c.maxTokens, Rest(Level(c, times, k - 1)) + Gain(c, times[k - 1], times[k]))
  }

  function Rest(tokens: real): real {
    if tokens >= 1.0 then tokens - 1.0 else tokens
  }

  /** The tokens that request k leaves. */
  function Left(c: Config, times: seq<real>, k: nat): real
    requires k < |times|
  {
    Rest(Level(c, times, k))
  }

  predicate Granted(c: Config, times: seq<real>, k: nat)
    requires k < |times|
  {
    Level(c, times, k) >= 1.0
  }

  /** How many of the requests i, ..., j - 1 are granted. */
  function Grants(c: Config, times: seq<real>, i: nat, j: nat): nat
    requires i <= j <= |times|
  {
    if i == j then 0 else Grants(c, times, i, j - 1) + if Granted(c, times, j - 1) then 1 else 0
  }

  function Capacity(c: Config): real {
    if c.maxTokens > 0.0 then c.maxTokens else 0.0
  }

  /** The unit of the rate: tokens a second, while clocks count milliseconds. */
  lemma GainPerSecond(c: Config, a: real, b: real)
    ensures Gain(c, a, b) == c.refillRate * (b - a) / 1000.0
    ensures c.refillRate == 1.0 ==> Gain(c, a, a + 1000.0) == 1.0
  {
    var d, r := b - a, c.refillRate;
    assert d / 1000.0 * r == r * d / 1000.0;
  }

  lemma GainAdds(c: Config, a: real, b: real, d: real)
    ensures Gain(c, a, b) + Gain(c, b, d) == Gain(c, a, d)
  {
    var x, y, r := (b - a) / 1000.0, (d - b) / 1000.0, c.refillRate;
    assert (d - a) / 1000.0 == x + y;
    assert x * r + y * r == (x + y) * r;
  }

  lemma GainPositive(c: Config, a: real, b: real)
    requires c.refillRate >= 0.0 && a <= b
    ensures Gain(c, a, b) >= 0.0
  {
    assert (b - a) / 1000.0 >= 0.0;
  }

  lemma {:induction false} LevelBounds(c: Config, times: seq<real>, k: nat)
    requires c.refillRate >= 0.0 && Monotone(times) && k < |times|
    ensures Level(c, times, k) <= c.maxTokens
    ensures c.maxTokens >= 0.0 ==> Left(c, times, k) >= 0.0
  {
    hide Gain;
    if k > 0 {
      LevelBounds(c, times, k - 1);
      GainPositive(c, times[k - 1], times[k]);
    }
  }

  /** What a window takes is paid for by what it found and what refilled. */
  lemma {:induction false} WindowSpends(c: Config, times: seq<real>, i: nat, j: nat)
    requires i <= j < |times|
    ensures Grants(c, times, i, j) as real + Level(c, times, j)
            <= Level(c, times, i) + Gain(c, times[i], times[j])
  {
    if i == j {
      assert Gain(c, times[i], times[j]) == 0.0;
    } else {
      WindowSpends(c, times, i, j - 1);
      GainAdds(c, times[i], times[j - 1], times[j]);
      hide Gain;
    }
  }

  /** Some earlier request found a full bucket, and since then nothing overflowed. */
  lemma {:induction false} LastFull(c: Config, times: seq<real>, j: nat) returns (i: nat)
    requires j < |times|
    ensures i <= j
    ensures Grants(c, times, i, j) as real + Level(c, times, j) == c.maxTokens + Gain(c, times[i], times[j])
  {
    if Level(c, times, j) == c.maxTokens {
      i := j;
      assert Gain(c, times[i], times[j]) == 0.0;
    } else {
      i := LastFull(c, times, j - 1);
      GainAdds(c, times[i], times[j - 1], times[j]);
      hide Gain;
    }
  }

  /** A granted request leaves every window that ends with it within a full bucket and what refills meanwhile. */
  lemma GrantedWithin(c: Config, times: seq<real>, i: nat, j: nat)
    requires c.refillRate >= 0.0 && Monotone(times) && i <= j < |times| && Granted(c, times, j)
    ensures Grants(c, times, i, j) as real + 1.0 <= Capacity(c) + Gain(c, times[i], times[j])
  {
    hide Gain, Grants;
    WindowSpends(c, times, i, j);
    LevelBounds(c, times, i);
  }

  /** A window, from the last full bucket on, that granting request j would take beyond that. */
  lemma RefusedBeyond(c: Config, times: seq<real>, j: nat) returns (i: nat)
    requires j < |times| && !Granted(c, times, j)
    ensures i <= j && Grants(c, times, i, j) as real + 1.0 > Capacity(c) + Gain(c, times[i], times[j])
  {
    if c.maxTokens < 0.0 {
      i := j;
      assert Gain(c, times[j], times[j]) == 0.0;
    } else {
      i := LastFull(c, times, j);
    }
    hide Gain, Level;
  }

  /**
   * A request is granted exactly when every window that ends with it stays within its budget: a full bucket, and
   * refillRate tokens for every second of the window. So no window ever takes more, and a refusal always has a window
   * that granting would break.
   */
  lemma GrantedExactlyWithinBudget(c: Config, times: seq<real>, j: nat)
    requires c.refillRate >= 0.0 && Monotone(times) && j < |times|
    ensures Granted(c, times, j)
            <==> forall i :: 0 <= i <= j ==>
                   Grants(c, times, i, j) as real + 1.0
                   <= (if c.maxTokens > 0.0 then c.maxTokens else 0.0)
                      + c.refillRate * (times[j] - times[i]) / 1000.0
  {
    hide Gain, Granted, Grants, Monotone;
    forall i | 0 <= i <= j
      ensures Capacity(c) + Gain(c, times[i], times[j])
              == (if c.maxTokens > 0.0 then c.maxTokens else 0.0) + c.refillRate * (times[j] - times[i]) / 1000.0
    {
      GainPerSecond(c, times[i], times[j]);
    }
    if Granted(c, times, j) {
      forall i | 0 <= i <= j
        ensures Grants(c, times, i, j) as real + 1.0 <= Capacity(c) + Gain(c, times[i], times[j])
      {
        GrantedWithin(c, times, i, j);
      }
    } else {
      var i := RefusedBeyond(c, times, j);
    }
  }

  lemma {:induction false} NoTokensNoGrants(c: Config, times: seq<real>, i: nat, j: nat)
    requires c.refillRate >= 0.0 && Monotone(times) && i <= j <= |times| && c.maxTokens < 0.0
    ensures Grants(c, times, i, j) == 0
  {
    if i < j {
      NoTokensNoGrants(c, times, i, j - 1);
      LevelBounds(c, times, j - 1);
    }
  }

  lemma WindowPaid(c: Config, times: seq<real>, i: nat, j: nat)
    requires c.refillRate >= 0.0 && Monotone(times) && i <= j < |times|
    ensures Grants(c, times, i, j + 1) as real <= Capacity(c) + Gain(c, times[i], times[j])
  {
    hide Gain, Level;
    WindowSpends(c, times, i, j);
    LevelBounds(c, times, i);
    LevelBounds(c, times, j);
    GainPositive(c, times[i], times[j]);
    if c.maxTokens < 0.0 { NoTokensNoGrants(c, times, i, j + 1); }
  }

  /** Over any window the limiter grants at most a full bucket and refillRate tokens for every second of it. */
  lemma GrantsWithinBudget(c: Config, times: seq<real>, i: nat, j: nat)
    requires c.refillRate >= 0.0 && Monotone(times) && i <= j < |times|
    ensures Grants(c, times, i, j + 1) as real
            <= (if c.maxTokens > 0.0 then c.maxTokens else 0.0) + c.refillRate * (times[j] - times[i]) / 1000.0
  {
    hide Gain, Monotone, Grants;
    WindowPaid(c, times, i, j);
    GainPerSecond(c, times[i], times[j]);
  }

  // ---- Many keys ---------------------------------------------------------------------------------

  datatype Request = Request(key: string, time: real)

  /** One request: a new key gets a full bucket, then its bucket decides. */
  function Handled(c: Config, buckets: map<string, Bucket>, r: Request): (map<string, Bucket>, bool) {
    var bucket := if r.key in buckets then buckets[r.key] else Bucket(c.maxTokens, r.time);
    var (next, granted) := Consumed(c, bucket, r.time);
    (buckets[r.key := next], granted)
  }

  function Buckets(c: Config, requests: seq<Request>): map<string, Bucket> {
    if requests == [] then map[]
    else Handled(c, Buckets(c, requests[..|requests| - 1]), requests[|requests| - 1]).0
  }

  /** The middleware's answer to request n. */
  function Answer(c: Config, requests: seq<Request>, n: nat): bool
    requires n < |requests|
  {
    Handled(c, Buckets(c, requests[..n]), requests[n]).1
  }

  /** When a key's own requests came. */
  function TimesOf(requests: seq<Request>, key: string): seq<real> {
    if requests == [] then []
    else
      TimesOf(requests[..|requests| - 1], key)
      + if requests[|requests| - 1].key == key then [requests[|requests| - 1].time] else []
  }

  lemma {:induction false} LevelOfPrefix(c: Config, times: seq<real>, more: seq<real>, k: nat)
    requires k < |times| <= |more| && more[..|times|] == times
    ensures Level(c, more, k) == Level(c, times, k)
  {
    assert more[k] == times[k];
    if k > 0 {
      assert more[k - 1] == times[k - 1];
      LevelOfPrefix(c, times, more, k - 1);
    }
  }

  /** A key's bucket holds what its own requests have left, and its age is that of its last one. */
  lemma {:induction false} BucketFollowsKey(c: Config, requests: seq<Request>, key: string)
    ensures var times, buckets := TimesOf(requests, key), Buckets(c, requests);
            && (key in buckets <==> times != [])
            && (times != [] ==>
                  buckets[key] == Bucket(Left(c, times, |times| - 1), times[|times| - 1]))
  {
    if requests != [] {
      var earlier, last := requests[..|requests| - 1], requests[|requests| - 1];
      BucketFollowsKey(c, earlier, key);
      var before, times := TimesOf(earlier, key), TimesOf(requests, key);
      if last.key == key {
        assert times[..|before|] == before;
        DecisionFollowsKey(c, before, times, last.time, Buckets(c, earlier), key);
        hide Level, Gain, Buckets;
      } else {
        assert times == before;
      }
    }
  }

  lemma DecisionFollowsKey(c: Config, before: seq<real>, times: seq<real>, now: real, buckets: map<string, Bucket>,
                           key: string)
    requires times == before + [now]
    requires key in buckets <==> before != []
    requires before != [] ==> buckets[key] == Bucket(Left(c, before, |before| - 1), before[|before| - 1])
    ensures var (after, granted) := Handled(c, buckets, Request(key, now));
            after[key] == Bucket(Left(c, times, |before|), now) && granted == Granted(c, times, |before|)
  {
    if before == [] {
      assert Gain(c, now, now) == 0.0;
    } else {
      LevelOfPrefix(c, before, times, |before| - 1);
      hide Gain;
      assert times[|before| - 1] == before[|before| - 1];
    }
  }

  /** The answer to a request depends on the times of its own key's requests alone. */
  lemma KeysAreIndependent(c: Config, requests: seq<Request>, n: nat)
    requires n < |requests|
    ensures var times := TimesOf(requests[..n + 1], requests[n].key);
            |times| > 0 && Answer(c, requests, n) == Granted(c, times, |times| - 1)
  {
    var key := requests[n].key;
    var before := TimesOf(requests[..n], key);
    assert requests[..n + 1][..n] == requests[..n];
    BucketFollowsKey(c, requests[..n], key);
    DecisionFollowsKey(c, before, before + [requests[n].time], requests[n].time, Buckets(c, requests[..n]), key);
  }

  // ---- The middleware's objects ------------------------------------------------------------------

  class TokenBucket {
    const c: Config
    var tokens: real
    var lastRefill: real

    constructor (c: Config, now: real)
      ensures this.c == c && Value() == Bucket(c.maxTokens, now)
    {
      this.c := c;
      tokens, lastRefill := c.maxTokens, now;
    }

    function Value(): Bucket
      reads this
    {
      Bucket(tokens, lastRefill)
    }

    method Refill(now: real)
      modifies this
      ensures Value() == Refilled(c, old(Value()), now)
    {
      var elapsed := (now - lastRefill) / 1000.0;
      tokens := Min(c.maxTokens, tokens + elapsed * c.refillRate);
      lastRefill := now;
    }

    method Consume(now: real) returns (granted: bool)
      modifies this
      ensures (Value(), granted) == Consumed(c, old(Value()), now)
      ensures var refilled := old(tokens) + c.refillRate * (now - old(lastRefill)) / 1000.0;
              var found := if refilled < c.maxTokens then refilled else c.maxTokens;
              && (granted <==> found >= 1.0)
              && tokens == (if granted then found - 1.0 else found) && lastRefill == now
    {
      GainPerSecond(c, lastRefill, now);
      Refill(now);
      if tokens >= 1.0 {
        tokens := tokens - 1.0;
        return true;
      }
      return false;
    }
  }

  class Limiter {
    const c: Config
    var buckets: map<string, TokenBucket>
    /** The requests handled so far. */
    ghost var requests: seq<Request>

    ghost predicate Valid()
      reads this, buckets.Values
    {
      Owned() && Values() == Buckets(c, requests)
    }

    /** Each key has a bucket of its own. */
    ghost predicate Owned()
      reads this, buckets.Values
    {
      && (forall k, l :: k in buckets && l in buckets && k != l ==> buckets[k] != buckets[l])
      && (forall k :: k in buckets ==> buckets[k].c == c)
    }

    ghost function Values(): map<string, Bucket>
      reads this, buckets.Values
    {
      map k | k in buckets :: buckets[k].Value()
    }

    constructor (c: Config)
      ensures Valid() && requests == [] && this.c == c
    {
      this.c, buckets, requests := c, map[], [];
    }

    /** Whether a request that arrives now is let through. */
    method Handle(key: string, now: real) returns (granted: bool)
      requires Valid()
      modifies this, buckets.Values
      ensures Valid() && requests == old(requests) + [Request(key, now)]
      ensures granted == Answer(c, requests, |old(requests)|)
    {
      hide Handled, Buckets, Answer;
      BucketsMore(c, requests, Request(key, now));
      granted := Serve(key, now);
      requests := requests + [Request(key, now)];
    }

    method Serve(key: string, now: real) returns (granted: bool)
      requires Owned()
      modifies this`buckets, buckets.Values
      ensures Owned() && (Values(), granted) == Handled(c, old(Values()), Request(key, now))
    {
      hide Consumed;
      ghost var before := Values();
      Open(key, now);
      ghost var bucket := Values()[key];
      granted := ConsumeFrom(key, now);
      assert Values() == before[key := Consumed(c, bucket, now).0];
    }

    method ConsumeFrom(key: string, now: real) returns (granted: bool)
      requires Owned() && key in buckets
      modifies buckets[key]
      ensures Owned()
      ensures var (next, grant) := Consumed(c, old(Values())[key], now);
              Values() == old(Values())[key := next] && granted == grant
    {
      hide Consumed;
      granted := buckets[key].Consume(now);
    }

    /** A key that is new gets a full bucket. */
    method Open(key: string, now: real)
      requires Owned()
      modifies this`buckets
      ensures Owned() && key in buckets && fresh(buckets.Values - old(buckets.Values))
      ensures Values() == if key in old(buckets) then old(Values()) else old(Values())[key := Bucket(c.maxTokens, now)]
    {
      if key !in buckets {
        var bucket := new TokenBucket(c, now);
        buckets := buckets[key := bucket];
      }
    }
  }

  lemma BucketsMore(c: Config, requests: seq<Request>, r: Request)
    ensures (Buckets(c, requests + [r]), Answer(c, requests + [r], |requests|))
            == Handled(c, Buckets(c, requests), r)
  {
    assert (requests + [r])[..|requests|] == requests;
  }
}
