/**
 A token bucket over the reals: the contract of the limiter that
 internal/middleware/ratelimit.go, pkg/binlist and pkg/handyapi rely on.
 A bucket starts full; `Allow` takes one token or none.
*/
module TokenBucket {

  datatype Bucket = Bucket(rate: real, cap: real, tokens: real, last: real)

  ghost predicate Valid(b: Bucket, now: real) {
    b.rate >= 0.0 && 0.0 <= b.tokens <= b.cap && b.last <= now
  }

  function Full(rate: real, cap: real, now: real): Bucket { Bucket(rate, cap, cap, now) }

  /** Tokens earned in `dt`. */
  function Gain(rate: real, dt: real): real { rate * dt }

  function Min(a: real, b: real): real { if a <= b then a else b }

  /** Tokens available at `t`. */
  function At(b: Bucket, t: real): real { Min(b.cap, b.tokens + Gain(b.rate, t - b.last)) }

  predicate Admits(b: Bucket, t: real) { At(b, t) >= 1.0 }

  /** The bucket after a request at `t`: a refused request leaves it alone. */
  function Take(b: Bucket, t: real): Bucket {
    if Admits(b, t) then b.(tokens := At(b, t) - 1.0, last := t) else b
  }

  class Limiter {
    var bucket: Bucket

    constructor (rate: real, cap: real, now: real)
      ensures bucket == Full(rate, cap, now)
    {
      bucket := Full(rate, cap, now);
    }

    method Allow(now: real) returns (ok: bool)
      modifies this
      ensures ok == Admits(old(bucket), now) && bucket == Take(old(bucket), now)
      ensures ok <==> bucket.cap >= 1.0 && old(bucket.tokens + Gain(bucket.rate, now - bucket.last)) >= 1.0
    {
      var tokens := bucket.tokens + Gain(bucket.rate, now - bucket.last);
      if bucket.cap < tokens {
        tokens := bucket.cap;
      }
      ok := tokens >= 1.0;
      if ok {
        bucket := bucket.(tokens := tokens - 1.0, last := now);
      }
    }
  }

  lemma GainMono(r: real, x: real, y: real)
    requires r >= 0.0 && x <= y
    ensures Gain(r, x) <= Gain(r, y)
    ensures Gain(r, 0.0) == 0.0
  {
    assert r * (y - x) >= 0.0;
  }

  lemma GainSplit(r: real, x: real, y: real)
    ensures Gain(r, x + y) == Gain(r, x) + Gain(r, y)
  {
  }

  lemma AtInRange(b: Bucket, t: real)
    requires Valid(b, t)
    ensures 0.0 <= b.tokens <= At(b, t) <= b.cap
  {
    GainMono(b.rate, 0.0, t - b.last);
  }

  /** Refilling in two stages is refilling once. */
  lemma AtLater(b: Bucket, s: real, t: real)
    requires Valid(b, s) && s <= t
    ensures At(b, t) == Min(b.cap, At(b, s) + Gain(b.rate, t - s))
  {
    var x, y := Gain(b.rate, s - b.last), Gain(b.rate, t - s);
    assert Gain(b.rate, t - b.last) == x + y by {
      GainSplit(b.rate, s - b.last, t - s);
      assert (s - b.last) + (t - s) == t - b.last;
    }
    assert y >= 0.0 by { GainMono(b.rate, 0.0, t - s); }
  }

  /** Two buckets that nobody can tell apart from `now` on. */
  ghost predicate Same(b: Bucket, c: Bucket, now: real) {
    b.rate == c.rate && b.cap == c.cap && At(b, now) == At(c, now)
  }

  lemma SameLater(b: Bucket, c: Bucket, now: real, t: real)
    requires Valid(b, now) && Valid(c, now) && Same(b, c, now) && now <= t
    ensures Same(b, c, t)
  {
    AtLater(b, now, t);
    AtLater(c, now, t);
  }

  lemma TakeValid(b: Bucket, t: real)
    requires Valid(b, t)
    ensures Valid(Take(b, t), t) && Take(b, t).rate == b.rate && Take(b, t).cap == b.cap
    ensures At(Take(b, t), t) == At(b, t) - if Admits(b, t) then 1.0 else 0.0
  {
    assert Gain(b.rate, t - t) == 0.0;
    AtInRange(b, t);
  }

  /** Indistinguishable buckets give the same answer and stay indistinguishable. */
  lemma SameTake(b: Bucket, c: Bucket, t: real)
    requires Valid(b, t) && Valid(c, t) && Same(b, c, t)
    ensures Admits(b, t) == Admits(c, t) && Same(Take(b, t), Take(c, t), t)
  {
    TakeValid(b, t);
    TakeValid(c, t);
  }

  /** A bucket left alone for cap / rate is full. */
  lemma FullWhenIdle(b: Bucket, t: real, idle: real)
    requires Valid(b, t) && b.cap <= Gain(b.rate, idle) && idle <= t - b.last
    ensures At(b, t) == b.cap
  {
    GainMono(b.rate, idle, t - b.last);
  }

  lemma FullStaysFull(b: Bucket, s: real, t: real)
    requires Valid(b, s) && s <= t && At(b, s) == b.cap
    ensures At(b, t) == b.cap
  {
    AtLater(b, s, t);
    GainMono(b.rate, 0.0, t - s);
  }

  /**
   `n` requests were admitted in the window [a, e] up to `now`, and what the bucket
   can still admit fits into the rest of the window's budget.
  */
  ghost predicate Budget(b: Bucket, n: nat, a: real, e: real, now: real) {
    && (now < a ==> n == 0)
    && (a <= now <= e ==> n as real + At(b, now) <= b.cap + Gain(b.rate, now - a))
    && (a <= e < now ==> n as real <= b.cap + Gain(b.rate, e - a))
  }

  lemma BudgetStart(b: Bucket, a: real, e: real, now: real)
    requires Valid(b, now) && At(b, now) == b.cap
    ensures Budget(b, 0, a, e, now)
  {
    AtInRange(b, now);
    if a <= now { GainMono(b.rate, 0.0, now - a); }
    if a <= e { GainMono(b.rate, 0.0, e - a); }
  }

  lemma BudgetLater(b: Bucket, n: nat, a: real, e: real, now: real, t: real)
    requires Valid(b, now) && now <= t && Budget(b, n, a, e, now)
    ensures Budget(b, n, a, e, t)
  {
    if a <= t <= e {
      BudgetInside(b, n, a, e, now, t);
    } else if a <= e < t && now <= e {
      BudgetInside(b, n, a, e, now, e);
      AtInRange(b, e);
    }
  }

  lemma BudgetInside(b: Bucket, n: nat, a: real, e: real, now: real, t: real)
    requires Valid(b, now) && now <= t && a <= t <= e && Budget(b, n, a, e, now)
    ensures n as real + At(b, t) <= b.cap + Gain(b.rate, t - a)
  {
    AtInRange(b, t);
    if now < a {
      GainMono(b.rate, 0.0, t - a);
    } else {
      AtLater(b, now, t);
      GainSplit(b.rate, now - a, t - now);
      assert (now - a) + (t - now) == t - a;
    }
  }

  lemma BudgetTake(b: Bucket, n: nat, a: real, e: real, t: real)
    requires Valid(b, t) && Budget(b, n, a, e, t)
    ensures Budget(Take(b, t), if Admits(b, t) && a <= t <= e then n + 1 else n, a, e, t)
  {
    TakeValid(b, t);
  }

  lemma BudgetSame(b: Bucket, c: Bucket, n: nat, a: real, e: real, t: real)
    requires Same(b, c, t) && Budget(b, n, a, e, t)
    ensures Budget(c, n, a, e, t)
  {
  }

  /** The bound that a budget gives. */
  lemma WithinBudget(b: Bucket, n: nat, a: real, e: real, now: real)
    requires Valid(b, now) && a <= e && Budget(b, n, a, e, now)
    ensures n as real <= b.cap + Gain(b.rate, e - a)
  {
    AtInRange(b, now);
    GainMono(b.rate, 0.0, e - a);
    if a <= now <= e { GainMono(b.rate, now - a, e - a); }
  }
}
