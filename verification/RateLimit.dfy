/** The token bucket of the notification senders (notifications/service.go:498-534), in exact
    arithmetic: times are nanoseconds and tokens are counted in billionths, so that a refill of
    `rate` tokens a second is `rate` billionths a nanosecond. */
module RateLimit {
  import opened Common

  const TOKEN := 1_000_000_000

  datatype Bucket = Bucket(capacity: int, tokens: int, lastRefill: int, rate: int)

  /** NewTokenBucket: full, refilled at `rps` tokens a second. */
  function NewBucket(rps: int, now: int): Bucket {
    Bucket(rps, rps * TOKEN, now, rps)
  }

  function Refilled(b: Bucket, now: int): int {
    var refill := b.tokens + (now - b.lastRefill) * b.rate;
    Min(b.capacity * TOKEN, refill)
  }

  predicate Allows(b: Bucket, now: int) {
    Refilled(b, now) >= TOKEN
  }

  function AfterCall(b: Bucket, now: int): Bucket {
    b.(tokens := if Allows(b, now) then Refilled(b, now) - TOKEN else Refilled(b, now), lastRefill := now)
  }

  class TokenBucket {
    const capacity: int
    const rate: int
    var tokens: int
    var lastRefill: int

    constructor (rps: int, now: int)
      ensures State() == NewBucket(rps, now)
    {
      capacity, rate, tokens, lastRefill := rps, rps, rps * TOKEN, now;
    }

    ghost function State(): Bucket
      reads this
    {
      Bucket(capacity, tokens, lastRefill, rate)
    }

    method Allow(now: int) returns (allowed: bool)
      modifies this
      ensures allowed == Allows(old(State()), now)
      ensures State() == AfterCall(old(State()), now)
    {
      var elapsed := now - lastRefill;
      lastRefill := now;
      tokens := Min(capacity * TOKEN, tokens + elapsed * rate);
      if tokens >= TOKEN {
        tokens := tokens - TOKEN;
        return true;
      }
      return false;
    }
  }

  // ---------------------------------------------------------------- call histories

  /** The bucket after calls at the given times. */
  ghost function Run(b: Bucket, calls: seq<int>): Bucket {
    if calls == [] then b else AfterCall(Run(b, calls[..|calls| - 1]), calls[|calls| - 1])
  }

  /** How many of the calls from the i-th to before the j-th were allowed. */
  ghost function Allowed(b: Bucket, calls: seq<int>, i: nat, j: nat): nat
    requires i <= j <= |calls|
  {
    if i == j then 0
    else Allowed(b, calls, i, j - 1) + if Allows(Run(b, calls[..j - 1]), calls[j - 1]) then 1 else 0
  }

  /** The clock does not go back. */
  ghost predicate Ordered(start: int, calls: seq<int>) {
    && (forall i :: 0 <= i < |calls| ==> start <= calls[i])
    && forall i, j :: 0 <= i < j < |calls| ==> calls[i] <= calls[j]
  }

  ghost predicate Sound(b: Bucket) {
    0 <= b.tokens <= b.capacity * TOKEN && b.rate >= 0
  }

  lemma CallKeepsSound(b: Bucket, now: int)
    requires Sound(b) && b.lastRefill <= now
    ensures 0 <= Refilled(b, now) <= b.capacity * TOKEN && Sound(AfterCall(b, now))
  {
    assert (now - b.lastRefill) * b.rate >= 0;
  }

  /** Over any call history the bucket holds between 0 and `capacity` tokens. */
  lemma {:induction false} TokensInRange(b: Bucket, calls: seq<int>)
    requires Sound(b) && Ordered(b.lastRefill, calls)
    ensures var c := Run(b, calls);
            && c.capacity == b.capacity && c.rate == b.rate && 0 <= c.tokens <= c.capacity * TOKEN
            && c.lastRefill == if calls == [] then b.lastRefill else calls[|calls| - 1]
  {
    if calls != [] {
      TokensInRange(b, calls[..|calls| - 1]);
      CallKeepsSound(Run(b, calls[..|calls| - 1]), calls[|calls| - 1]);
    }
  }

  /** One call moves at most one token from the bucket to the count. */
  lemma PotentialStep(b: Bucket, now: int, taken: int, first: int)
    requires Sound(b) && b.lastRefill <= now
    requires taken * TOKEN + b.tokens <= b.capacity * TOKEN + b.rate * (b.lastRefill - first)
    ensures (taken + if Allows(b, now) then 1 else 0) * TOKEN + AfterCall(b, now).tokens <= b.capacity * TOKEN + b.rate * (now - first)
  {
    assert b.rate * (now - first) == b.rate * (b.lastRefill - first) + (now - b.lastRefill) * b.rate;
  }

  /** What a window has taken and what is left never exceeds the capacity and the refill since
      the window's first call. */
  lemma {:induction false} WindowPotential(b: Bucket, calls: seq<int>, i: nat, j: nat)
    requires Sound(b) && Ordered(b.lastRefill, calls) && i < j <= |calls|
    ensures Allowed(b, calls, i, j) * TOKEN + Run(b, calls[..j]).tokens <= b.capacity * TOKEN + b.rate * (calls[j - 1] - calls[i])
  {
    assert calls[..j][..j - 1] == calls[..j - 1];
    TokensInRange(b, calls[..j - 1]);
    var before := Run(b, calls[..j - 1]);
    if i < j - 1 {
      WindowPotential(b, calls, i, j - 1);
      PotentialStep(before, calls[j - 1], Allowed(b, calls, i, j - 1), calls[i]);
    } else {
      CallKeepsSound(before, calls[i]);
    }
  }

  /** Between any two instants s and t at most capacity + rate * (t - s) calls are allowed. */
  lemma WindowBound(b: Bucket, calls: seq<int>, i: nat, j: nat, s: int, t: int)
    requires Sound(b) && Ordered(b.lastRefill, calls) && i <= j <= |calls| && s <= t
    requires forall k :: i <= k < j ==> s <= calls[k] <= t
    ensures Allowed(b, calls, i, j) * TOKEN <= b.capacity * TOKEN + b.rate * (t - s)
  {
    if i < j {
      WindowPotential(b, calls, i, j);
      TokensInRange(b, calls[..j]);
      LongerSpan(b.rate, calls[j - 1] - calls[i], t - s);
    } else {
      LongerSpan(b.rate, 0, t - s);
    }
  }

  lemma LongerSpan(rate: int, d: int, span: int)
    requires rate >= 0 && d <= span
    ensures rate * d <= rate * span
  {
    assert rate * (span - d) >= 0;
  }

  lemma {:induction false} FirstCallsLeave(b: Bucket, calls: seq<int>, n: nat)
    requires Sound(b) && Ordered(b.lastRefill, calls) && n <= |calls| && n <= b.capacity && b.tokens == b.capacity * TOKEN
    ensures Run(b, calls[..n]).tokens >= (b.capacity - n) * TOKEN
  {
    if n > 0 {
      FirstCallsLeave(b, calls, n - 1);
      TokensInRange(b, calls[..n - 1]);
      assert calls[..n][..n - 1] == calls[..n - 1];
      CallKeepsMost(Run(b, calls[..n - 1]), calls[n - 1]);
    }
  }

  lemma CallKeepsMost(b: Bucket, now: int)
    requires Sound(b) && b.lastRefill <= now
    ensures Refilled(b, now) >= b.tokens && AfterCall(b, now).tokens >= b.tokens - TOKEN
  {
    assert (now - b.lastRefill) * b.rate >= 0;
  }

  /** A full bucket allows its first `capacity` calls, however close together they come. */
  lemma BurstIsAllowed(b: Bucket, calls: seq<int>, n: nat)
    requires Sound(b) && Ordered(b.lastRefill, calls) && n < |calls| && n < b.capacity && b.tokens == b.capacity * TOKEN
    ensures Allows(Run(b, calls[..n]), calls[n])
  {
    FirstCallsLeave(b, calls, n);
    TokensInRange(b, calls[..n]);
    CallKeepsMost(Run(b, calls[..n]), calls[n]);
  }

  /** A bucket that holds less than one token never allows a call. */
  lemma {:induction false} NoTokensNoCalls(b: Bucket, calls: seq<int>, i: nat, j: nat)
    requires b.capacity < 1 && i <= j <= |calls|
    ensures Allowed(b, calls, i, j) == 0
  {
    if i < j {
      NoTokensNoCalls(b, calls, i, j - 1);
      CapacityIsFixed(b, calls[..j - 1]);
    }
  }

  lemma {:induction false} CapacityIsFixed(b: Bucket, calls: seq<int>)
    ensures Run(b, calls).capacity == b.capacity
  {
    if calls != [] {
      CapacityIsFixed(b, calls[..|calls| - 1]);
    }
  }

  /** After any history, waiting for one token's time is enough to be allowed. */
  lemma WaitingIsEnough(b: Bucket, calls: seq<int>, now: int)
    requires Sound(b) && Ordered(b.lastRefill, calls) && b.capacity >= 1
    requires (now - Run(b, calls).lastRefill) * b.rate >= TOKEN
    ensures Allows(Run(b, calls), now)
  {
    TokensInRange(b, calls);
  }
}
