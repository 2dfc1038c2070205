/** SendMulticast: the push sender behind its circuit breaker and its token bucket
    (notifications/fcm.go:195-269). */
module PushSender {
  import opened Common
  import CB = CircuitBreaker
  import opened RateLimit

  /** One call: when it starts, to how many devices, and when and with how many failures the
      batch comes back; without a client nothing is sent. */
  datatype Call = Call(now: int, devices: nat, hasClient: bool, done: int, failures: nat)

  datatype Outcome = NoDevices | BreakerOpen | RateLimited | LoggedOnly | Sent

  datatype Sender = Sender(breaker: CB.State, bucket: Bucket)

  /** Go's integer halving: a strict majority of the devices. */
  predicate MostFailed(c: Call) {
    c.failures > c.devices / 2
  }

  function OutcomeOf(s: Sender, c: Call): Outcome {
    if c.devices == 0 then NoDevices
    else if CB.Refuses(s.breaker, c.now) then BreakerOpen
    else if !Allows(s.bucket, c.now) then RateLimited
    else if !c.hasClient then LoggedOnly
    else Sent
  }

  /** What the breaker sees of a call, in order. */
  function BreakerEvents(s: Sender, c: Call): seq<CB.Event> {
    match OutcomeOf(s, c)
    case NoDevices => []
    case Sent => [CB.Check(c.now), if MostFailed(c) then CB.Failure(c.done) else CB.Success]
    case _ => [CB.Check(c.now)]
  }

  /** Whether a call asks the bucket. */
  predicate AsksBucket(s: Sender, c: Call) {
    OutcomeOf(s, c) in {RateLimited, LoggedOnly, Sent}
  }

  function AfterSend(s: Sender, c: Call): Sender {
    var checked := CB.Checked(s.breaker, c.now);
    Sender(if c.devices == 0 then s.breaker
           else if OutcomeOf(s, c) != Sent then checked
           else if MostFailed(c) then CB.Failed(checked, c.done) else CB.Succeeded(checked),
           if AsksBucket(s, c) then AfterCall(s.bucket, c.now) else s.bucket)
  }

  class FCMService {
    const breaker: CB.Breaker
    const bucket: TokenBucket

    /** Five failures, 30 seconds, 100 requests a second; times in nanoseconds. */
    constructor (now: int)
      ensures fresh(breaker) && fresh(bucket)
      ensures State() == Sender(CB.New(5, 30 * TOKEN, now), NewBucket(100, now))
    {
      breaker := new CB.Breaker(5, 30 * TOKEN, now);
      bucket := new TokenBucket(100, now);
    }

    ghost function State(): Sender
      reads this, breaker, bucket
    {
      Sender(breaker.Now(), bucket.State())
    }

    method SendMulticast(c: Call) returns (out: Outcome)
      modifies breaker, bucket
      ensures out == OutcomeOf(old(State()), c)
      ensures out == NoDevices <==> c.devices == 0
      ensures out == BreakerOpen <==> c.devices > 0 && old(CB.Refuses(breaker.Now(), c.now))
      ensures out == RateLimited <==> c.devices > 0 && !old(CB.Refuses(breaker.Now(), c.now)) && !old(Allows(bucket.State(), c.now))
      ensures out == Sent ==> c.hasClient
      ensures out == Sent ==>
                var checked := old(CB.Checked(breaker.Now(), c.now));
                breaker.Now() == if 2 * c.failures > c.devices then CB.Failed(checked, c.done) else CB.Succeeded(checked)
      ensures out == RateLimited || out == LoggedOnly || out == Sent ==> bucket.State() == AfterCall(old(bucket.State()), c.now)
      ensures out == NoDevices || out == BreakerOpen ==> bucket.State() == old(bucket.State())
      ensures State() == AfterSend(old(State()), c)
    {
      if c.devices == 0 { return NoDevices; }
      var open := breaker.IsOpen(c.now);
      if open { return BreakerOpen; }
      var allowed := bucket.Allow(c.now);
      if !allowed { return RateLimited; }
      if !c.hasClient { return LoggedOnly; }
      if c.failures > c.devices / 2 {
        breaker.RecordFailure(c.done);
      } else {
        breaker.RecordSuccess();
      }
      return Sent;
    }
  }

  // ---------------------------------------------------------------- histories

  function Run(s: Sender, calls: seq<Call>): Sender {
    if calls == [] then s else AfterSend(Run(s, calls[..|calls| - 1]), calls[|calls| - 1])
  }

  /** The events of a whole history, and the times at which it asked the bucket. */
  function Trace(s: Sender, calls: seq<Call>): seq<CB.Event> {
    if calls == [] then []
    else
      var init := calls[..|calls| - 1];
      Trace(s, init) + BreakerEvents(Run(s, init), calls[|calls| - 1])
  }

  function BucketTimes(s: Sender, calls: seq<Call>): seq<int> {
    if calls == [] then []
    else
      var init, last := calls[..|calls| - 1], calls[|calls| - 1];
      BucketTimes(s, init) + if AsksBucket(Run(s, init), last) then [last.now] else []
  }

  lemma EventsOfCall(b: CB.State, trace: seq<CB.Event>, s: Sender, c: Call)
    requires CB.Run(b, trace) == s.breaker
    ensures CB.Run(b, trace + BreakerEvents(s, c)) == AfterSend(s, c).breaker
  {
    var events := BreakerEvents(s, c);
    if |events| == 2 {
      CB.RunMore(b, trace, events[0]);
      CB.RunMore(b, trace + [events[0]], events[1]);
      assert trace + events == trace + [events[0]] + [events[1]];
    } else if |events| == 1 {
      CB.RunMore(b, trace, events[0]);
      assert trace + events == trace + [events[0]];
    } else {
      assert trace + events == trace;
    }
  }

  /** A sender is its breaker after its trace and its bucket after its requests, so whatever
      holds of every trace and every request history holds here. */
  lemma {:induction false} SenderIsBreakerAndBucket(s: Sender, calls: seq<Call>)
    ensures Run(s, calls).breaker == CB.Run(s.breaker, Trace(s, calls))
    ensures Run(s, calls).bucket == RateLimit.Run(s.bucket, BucketTimes(s, calls))
  {
    if calls != [] {
      var init, last := calls[..|calls| - 1], calls[|calls| - 1];
      SenderIsBreakerAndBucket(s, init);
      EventsOfCall(s.breaker, Trace(s, init), Run(s, init), last);
      var times := BucketTimes(s, init);
      assert AsksBucket(Run(s, init), last) ==> (times + [last.now])[..|times|] == times;
      assert times + [] == times;
    }
  }

  /** Failed batches, in which more than half of the devices failed, since the last good one. */
  function FailedBatches(s: Sender, calls: seq<Call>): nat {
    if calls == [] then 0
    else
      var init, last := calls[..|calls| - 1], calls[|calls| - 1];
      if OutcomeOf(Run(s, init), last) != Sent then FailedBatches(s, init)
      else if 2 * last.failures > last.devices then FailedBatches(s, init) + 1 else 0
  }

  lemma FailureRunMore(trace: seq<CB.Event>, e: CB.Event)
    ensures CB.FailureRun(trace + [e]) == if e.Success? then 0 else CB.FailureRun(trace) + if e.Failure? then 1 else 0
  {
    assert (trace + [e])[..|trace|] == trace;
  }

  lemma {:induction false} TraceCountsBatches(s: Sender, calls: seq<Call>)
    ensures CB.FailureRun(Trace(s, calls)) == FailedBatches(s, calls)
  {
    if calls != [] {
      var init, last := calls[..|calls| - 1], calls[|calls| - 1];
      TraceCountsBatches(s, init);
      var trace, events := Trace(s, init), BreakerEvents(Run(s, init), last);
      if |events| == 2 {
        FailureRunMore(trace, events[0]);
        FailureRunMore(trace + [events[0]], events[1]);
        assert trace + events == trace + [events[0]] + [events[1]];
      } else if |events| == 1 {
        FailureRunMore(trace, events[0]);
        assert trace + events == trace + [events[0]];
      } else {
        assert trace + events == trace;
      }
    }
  }

  /** Whatever the history, a sender that still sends freely has fewer failed batches in a row
      than the threshold. */
  lemma ClosedMeansFewFailedBatches(s: Sender, calls: seq<Call>)
    requires CB.Fresh(s.breaker) && s.breaker.threshold >= 1
    ensures Run(s, calls).breaker.mode == CB.Closed ==> FailedBatches(s, calls) < s.breaker.threshold
  {
    SenderIsBreakerAndBucket(s, calls);
    CB.ClosedMeansFewFailures(s.breaker, Trace(s, calls));
    TraceCountsBatches(s, calls);
  }

  // ---------------------------------------------------------------- how many get through

  ghost predicate ForwardCalls(start: int, calls: seq<Call>) {
    && (forall i :: 0 <= i < |calls| ==> start <= calls[i].now)
    && forall i, j :: 0 <= i < j < |calls| ==> calls[i].now <= calls[j].now
  }

  predicate GoesThrough(s: Sender, c: Call) {
    OutcomeOf(s, c) in {LoggedOnly, Sent}
  }

  /** How many of the calls from the i-th to before the j-th got past breaker and bucket. */
  ghost function Through(s: Sender, calls: seq<Call>, i: nat, j: nat): nat
    requires i <= j <= |calls|
  {
    if i == j then 0
    else Through(s, calls, i, j - 1) + if GoesThrough(Run(s, calls[..j - 1]), calls[j - 1]) then 1 else 0
  }

  /** The bucket requests of a longer history start with those of the shorter one. */
  lemma {:induction false} TimesGrow(s: Sender, calls: seq<Call>, i: nat, j: nat)
    requires i <= j <= |calls|
    ensures BucketTimes(s, calls[..i]) <= BucketTimes(s, calls[..j])
    ensures forall k :: |BucketTimes(s, calls[..i])| <= k < |BucketTimes(s, calls[..j])| ==>
              exists m :: i <= m < j && BucketTimes(s, calls[..j])[k] == calls[m].now
  {
    if i < j {
      TimesGrow(s, calls, i, j - 1);
      assert calls[..j][..j - 1] == calls[..j - 1];
    }
  }

  lemma {:induction false} TimesOrderedUpTo(s: Sender, calls: seq<Call>, start: int, n: nat)
    requires ForwardCalls(start, calls) && n <= |calls|
    ensures Ordered(start, BucketTimes(s, calls[..n]))
    ensures forall k :: 0 <= k < |BucketTimes(s, calls[..n])| ==> n > 0 && BucketTimes(s, calls[..n])[k] <= calls[n - 1].now
  {
    if n > 0 {
      TimesOrderedUpTo(s, calls, start, n - 1);
      assert calls[..n][..n - 1] == calls[..n - 1];
    }
  }

  lemma {:induction false} AllowedExtends(b: Bucket, times: seq<int>, more: seq<int>, i: nat, j: nat)
    requires i <= j <= |times|
    ensures Allowed(b, times + more, i, j) == Allowed(b, times, i, j)
  {
    if i < j {
      AllowedExtends(b, times, more, i, j - 1);
      assert (times + more)[..j - 1] == times[..j - 1];
    }
  }

  lemma OneMoreRequest(b: Bucket, times: seq<int>, now: int, from: nat)
    requires from <= |times|
    ensures Allowed(b, times + [now], from, |times| + 1) ==
            Allowed(b, times, from, |times|) + if Allows(RateLimit.Run(b, times), now) then 1 else 0
  {
    AllowedExtends(b, times, [now], from, |times|);
    assert (times + [now])[..|times|] == times;
  }

  lemma ThroughMeansAllowed(s: Sender, c: Call)
    ensures GoesThrough(s, c) <==> AsksBucket(s, c) && Allows(s.bucket, c.now)
  {
  }

  lemma TimesNext(s: Sender, calls: seq<Call>, j: nat)
    requires 0 < j <= |calls|
    ensures BucketTimes(s, calls[..j]) ==
            BucketTimes(s, calls[..j - 1]) + if AsksBucket(Run(s, calls[..j - 1]), calls[j - 1]) then [calls[j - 1].now] else []
  {
    assert calls[..j][..j - 1] == calls[..j - 1];
  }

  /** The calls that get through are the bucket's allowed requests. */
  lemma {:induction false} ThroughIsAllowed(s: Sender, calls: seq<Call>, i: nat, j: nat)
    requires i <= j <= |calls|
    ensures |BucketTimes(s, calls[..i])| <= |BucketTimes(s, calls[..j])|
    ensures Through(s, calls, i, j) ==
            Allowed(s.bucket, BucketTimes(s, calls[..j]), |BucketTimes(s, calls[..i])|, |BucketTimes(s, calls[..j])|)
  {
    if i < j {
      ThroughIsAllowed(s, calls, i, j - 1);
      var init, c := calls[..j - 1], calls[j - 1];
      SenderIsBreakerAndBucket(s, init);
      ThroughMeansAllowed(Run(s, init), c);
      TimesNext(s, calls, j);
      OneMoreRequest(s.bucket, BucketTimes(s, init), c.now, |BucketTimes(s, calls[..i])|);
      assert BucketTimes(s, init) + [] == BucketTimes(s, init);
    }
  }

  /** Between any two instants at most capacity + rate * (t - s) calls get through, whatever the
      breaker does in between. */
  lemma WindowOfSends(s: Sender, calls: seq<Call>, i: nat, j: nat, from: int, to: int)
    requires Sound(s.bucket) && ForwardCalls(s.bucket.lastRefill, calls) && i <= j <= |calls| && from <= to
    requires forall k :: i <= k < j ==> from <= calls[k].now <= to
    ensures Through(s, calls, i, j) * TOKEN <= s.bucket.capacity * TOKEN + s.bucket.rate * (to - from)
  {
    var times := BucketTimes(s, calls[..j]);
    TimesGrow(s, calls, i, j);
    TimesOrderedUpTo(s, calls, s.bucket.lastRefill, j);
    ThroughIsAllowed(s, calls, i, j);
    forall k | |BucketTimes(s, calls[..i])| <= k < |times|
      ensures from <= times[k] <= to
    {
      var m :| i <= m < j && times[k] == calls[m].now;
    }
    WindowBound(s.bucket, times, |BucketTimes(s, calls[..i])|, |times|, from, to);
  }
}
