/** How captures stack up in a subscription's end (billing/repository.go:154-171), and the time
    a user is entitled to (billing/repository.go:188-202). Times are in any unit; a month has a
    fixed length in it, which the results leave open. */
module Subscriptions {
  import opened Common

  type Time = nat

  /** The CASE of UpsertActiveSubscription for an active row. */
  function Extend(endsAt: Time, now: Time, month: nat): Time {
    if endsAt > now then endsAt + month else now + month
  }

  /** The end after captures at the given times. */
  function EndsAt(times: seq<Time>, month: nat): Time
    requires times != []
  {
    if |times| == 1 then times[0] + month
    else Extend(EndsAt(times[..|times| - 1], month), times[|times| - 1], month)
  }

  ghost predicate Ordered(times: seq<Time>) {
    forall i, j :: 0 <= i < j < |times| ==> times[i] <= times[j]
  }

  /** What the i-th of n captures alone would demand: its time and a month for each from it on. */
  function Demand(times: seq<Time>, i: nat, month: nat): Time
    requires i < |times|
  {
    times[i] + (|times| - i) * month
  }

  /** Closed form: the end is the largest demand. */
  lemma {:induction false} EndIsLargestDemand(times: seq<Time>, month: nat)
    requires times != []
    ensures forall i :: 0 <= i < |times| ==> Demand(times, i, month) <= EndsAt(times, month)
    ensures exists i :: 0 <= i < |times| && Demand(times, i, month) == EndsAt(times, month)
  {
    var n := |times| - 1;
    assert Demand(times, n, month) == times[n] + month;
    if n > 0 {
      var init := times[..n];
      EndIsLargestDemand(init, month);
      forall i | 0 <= i < n
        ensures Demand(times, i, month) == Demand(init, i, month) + month
      {
        DemandGrows(times, i, month);
      }
      var k :| 0 <= k < n && Demand(init, k, month) == EndsAt(init, month);
      assert Demand(times, k, month) == EndsAt(init, month) + month;
    }
  }

  lemma DemandGrows(times: seq<Time>, i: nat, month: nat)
    requires i < |times| - 1
    ensures Demand(times, i, month) == Demand(times[..|times| - 1], i, month) + month
  {
    var m := |times| - 1 - i;
    assert (m + 1) * month == m * month + month;
  }

  // ---------------------------------------------------------------- entitled time

  /** The captures up to an instant. */
  ghost function UpTo(times: seq<Time>, x: Time): seq<Time> {
    if times == [] then []
    else if times[|times| - 1] <= x then times
    else UpTo(times[..|times| - 1], x)
  }

  /** GetEntitlements at the instant x finds the subscription active. */
  ghost predicate Entitled(times: seq<Time>, x: Time, month: nat) {
    UpTo(times, x) != [] && EndsAt(UpTo(times, x), month) > x
  }

  /** `n` instants from `from` on. */
  function Interval(from: Time, n: nat): (s: set<Time>)
    ensures forall x :: x in s <==> from <= x < from + n
    ensures |s| == n
  {
    if n == 0 then {} else Interval(from, n - 1) + {from + n - 1}
  }

  /** Where the time bought by the last capture starts. */
  function LastStart(times: seq<Time>, month: nat): Time
    requires times != []
  {
    if |times| == 1 then times[0] else Max(EndsAt(times[..|times| - 1], month), times[|times| - 1])
  }

  ghost function EntitledTimes(times: seq<Time>, month: nat): set<Time> {
    if times == [] then {}
    else EntitledTimes(times[..|times| - 1], month) + Interval(LastStart(times, month), month)
  }

  lemma {:induction false} EntitledTimesEnd(times: seq<Time>, month: nat)
    requires times != []
    ensures forall x :: x in EntitledTimes(times, month) ==> x < EndsAt(times, month)
  {
    var n := |times| - 1;
    if n > 0 {
      EntitledTimesEnd(times[..n], month);
    }
  }

  lemma LastMonth(times: seq<Time>, x: Time, month: nat)
    requires times != []
    ensures EndsAt(times, month) == LastStart(times, month) + month
    ensures x in EntitledTimes(times, month) <==>
              x in EntitledTimes(times[..|times| - 1], month) || LastStart(times, month) <= x < EndsAt(times, month)
  {
  }

  /** The set is exactly the entitled instants. */
  lemma {:induction false} EntitledTimesAre(times: seq<Time>, x: Time, month: nat)
    requires Ordered(times)
    ensures x in EntitledTimes(times, month) <==> Entitled(times, x, month)
  {
    if times != [] {
      var init, last := times[..|times| - 1], times[|times| - 1];
      EntitledTimesAre(init, x, month);
      LastMonth(times, x, month);
      if last <= x {
        if init != [] { LastCapturesCount(init, x); }
      } else {
        assert UpTo(times, x) == UpTo(init, x) && x < LastStart(times, month);
      }
    }
  }

  lemma LastCapturesCount(times: seq<Time>, x: Time)
    requires times != [] && Ordered(times) && times[|times| - 1] <= x
    ensures UpTo(times, x) == times
  {
  }

  lemma OneMoreMonth(times: seq<Time>, month: nat)
    requires times != []
    ensures |EntitledTimes(times, month)| == |EntitledTimes(times[..|times| - 1], month)| + month
  {
    var n := |times| - 1;
    if n > 0 { EntitledTimesEnd(times[..n], month); }
    DisjointSize(EntitledTimes(times[..n], month), Interval(LastStart(times, month), month));
  }

  lemma DisjointSize(a: set<Time>, b: set<Time>)
    requires a !! b
    ensures |a + b| == |a| + |b|
  {
    assert (a + b) - b == a;
  }

  /** Conservation: n captures give exactly n months of entitled time, however they overlap or
      lapse. */
  lemma {:induction false} EntitledTimeIsMonths(times: seq<Time>, month: nat)
    ensures |EntitledTimes(times, month)| == |times| * month
  {
    if times != [] {
      var n := |times| - 1;
      EntitledTimeIsMonths(times[..n], month);
      OneMoreMonth(times, month);
      assert (n + 1) * month == n * month + month;
    }
  }
}
