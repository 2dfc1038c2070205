/** The circuit breaker in front of the push service (notifications/fcm.go:271-335), as a
    machine over the events it sees. Times are in any unit. */
module CircuitBreaker {

  datatype Mode = Closed | Open | HalfOpen

  /** `probes` is the number of successes a half-open breaker still waits for. */
  datatype State = State(mode: Mode, failures: nat, threshold: int, probes: int, lastFailure: int, timeout: int)

  datatype Event = Failure(at: int) | Success | Check(at: int)

  function New(threshold: int, timeout: int, now: int): State {
    State(Closed, 0, threshold, 2, now, timeout)
  }

  function Failed(s: State, now: int): State {
    s.(failures := s.failures + 1, lastFailure := now, mode := if s.failures + 1 >= s.threshold then Open else s.mode)
  }

  function Succeeded(s: State): State {
    s.(probes := if s.mode == HalfOpen then s.probes - 1 else s.probes,
       mode := if s.mode == HalfOpen && s.probes <= 1 then Closed else s.mode,
       failures := if s.mode == Closed || (s.mode == HalfOpen && s.probes <= 1) then 0 else s.failures)
  }

  predicate Refuses(s: State, now: int) {
    s.mode == Open && now - s.lastFailure <= s.timeout
  }

  function Checked(s: State, now: int): State {
    s.(mode := if s.mode == Open && !Refuses(s, now) then HalfOpen else s.mode,
       probes := if s.mode == Open && !Refuses(s, now) then 2 else s.probes)
  }

  class Breaker {
    var mode: Mode
    var failures: nat
    const threshold: int
    var probes: int
    var lastFailure: int
    const timeout: int

    constructor (threshold: int, timeout: int, now: int)
      ensures Now() == New(threshold, timeout, now)
    {
      mode, failures, probes, lastFailure := Closed, 0, 2, now;
      this.threshold, this.timeout := threshold, timeout;
    }

    ghost function Now(): State
      reads this
    {
      State(mode, failures, threshold, probes, lastFailure, timeout)
    }

    method RecordFailure(now: int)
      modifies this
      ensures Now() == Failed(old(Now()), now)
    {
      failures := failures + 1;
      lastFailure := now;
      if failures >= threshold {
        mode := Open;
      }
    }

    method RecordSuccess()
      modifies this
      ensures Now() == Succeeded(old(Now()))
    {
      if mode == HalfOpen {
        probes := probes - 1;
        if probes <= 0 {
          mode := Closed;
          failures := 0;
        }
      } else if mode == Closed {
        failures := 0;
      }
    }

    method IsOpen(now: int) returns (open: bool)
      modifies this
      ensures open == Refuses(old(Now()), now)
      ensures Now() == Checked(old(Now()), now)
    {
      if mode != Open { return false; }
      if now - lastFailure > timeout {
        mode := HalfOpen;
        probes := 2;
        return false;
      }
      return true;
    }
  }

  // ---------------------------------------------------------------- traces

  function Apply(s: State, e: Event): State {
    match e
    case Failure(at) => Failed(s, at)
    case Success => Succeeded(s)
    case Check(at) => Checked(s, at)
  }

  function Run(s: State, trace: seq<Event>): State {
    if trace == [] then s else Apply(Run(s, trace[..|trace| - 1]), trace[|trace| - 1])
  }

  ghost predicate Fresh(s: State) {
    s == New(s.threshold, s.timeout, s.lastFailure)
  }

  /** Failures since the last success in the trace. */
  function FailureRun(trace: seq<Event>): nat {
    if trace == [] || trace[|trace| - 1].Success? then 0
    else FailureRun(trace[..|trace| - 1]) + if trace[|trace| - 1].Failure? then 1 else 0
  }

  /** The time of the last failure in the trace, or the given one. */
  function LastFailure(trace: seq<Event>, start: int): int {
    if trace == [] then start
    else if trace[|trace| - 1].Failure? then trace[|trace| - 1].at
    else LastFailure(trace[..|trace| - 1], start)
  }

  /** The breaker is closed exactly when its failure count is below the threshold, and then the
      count is the current run of failures. */
  lemma {:induction false} ClosedMeansFewFailures(s: State, trace: seq<Event>)
    requires Fresh(s) && s.threshold >= 1
    ensures var t := Run(s, trace);
            && t.threshold == s.threshold && t.timeout == s.timeout
            && (t.mode == Closed <==> t.failures < t.threshold)
            && (t.mode == Closed ==> t.failures == FailureRun(trace))
            && (t.mode == HalfOpen ==> 1 <= t.probes <= 2)
            && t.lastFailure == LastFailure(trace, s.lastFailure)
  {
    if trace != [] {
      ClosedMeansFewFailures(s, trace[..|trace| - 1]);
    }
  }

  /** In particular a closed breaker opens with the threshold-th failure in a row and not
      before. */
  lemma OpensAtThreshold(s: State, trace: seq<Event>, at: int)
    requires Fresh(s) && s.threshold >= 1 && Run(s, trace).mode == Closed
    ensures Run(s, trace + [Failure(at)]).mode == if FailureRun(trace) + 1 >= s.threshold then Open else Closed
  {
    ClosedMeansFewFailures(s, trace);
    assert (trace + [Failure(at)])[..|trace|] == trace;
  }

  /** The i-th event is a success that a half-open breaker sees. */
  ghost predicate Probe(s: State, trace: seq<Event>, i: int) {
    0 <= i < |trace| && trace[i].Success? && Run(s, trace[..i]).mode == HalfOpen
  }

  /** From the i-th event on, no failure. */
  ghost predicate NoFailureSince(trace: seq<Event>, i: int) {
    forall k :: i <= k < |trace| && 0 <= k ==> !trace[k].Failure?
  }

  ghost predicate ProbedOnce(s: State, trace: seq<Event>) {
    exists i :: Probe(s, trace, i) && NoFailureSince(trace, i)
  }

  lemma ProbedOnceExtends(s: State, trace: seq<Event>, e: Event)
    requires ProbedOnce(s, trace) && !e.Failure?
    ensures ProbedOnce(s, trace + [e])
  {
    var i :| Probe(s, trace, i) && NoFailureSince(trace, i);
    assert (trace + [e])[..i] == trace[..i];
    assert Probe(s, trace + [e], i) && NoFailureSince(trace + [e], i);
  }

  lemma {:induction false} HalfOpenProbes(s: State, trace: seq<Event>)
    requires Fresh(s) && s.threshold >= 1
    ensures Run(s, trace).mode == HalfOpen && Run(s, trace).probes == 1 ==> ProbedOnce(s, trace)
  {
    if trace != [] {
      var init, e := trace[..|trace| - 1], trace[|trace| - 1];
      HalfOpenProbes(s, init);
      ClosedMeansFewFailures(s, init);
      assert trace == init + [e];
      var before, after := Run(s, init), Run(s, trace);
      if after.mode == HalfOpen && after.probes == 1 {
        if before.mode == HalfOpen && before.probes == 1 {
          ProbedOnceExtends(s, init, e);
        } else {
          assert Probe(s, trace, |trace| - 1) && NoFailureSince(trace, |trace| - 1);
        }
      }
    }
  }

  /** An open or half-open breaker closes only with a half-open success that follows another
      half-open success, without a failure between them. */
  lemma ClosesAfterTwoProbes(s: State, trace: seq<Event>, e: Event)
    requires Fresh(s) && s.threshold >= 1
    requires Run(s, trace).mode != Closed && Run(s, trace + [e]).mode == Closed
    ensures Probe(s, trace + [e], |trace|) && ProbedOnce(s, trace)
  {
    assert (trace + [e])[..|trace|] == trace;
    ClosedMeansFewFailures(s, trace);
    HalfOpenProbes(s, trace);
  }

  /** And it does close: once a check has let a half-open breaker through, two successes in a row
      close it and clear the count, while a single failure opens it again. */
  lemma TwoProbesClose(s: State, trace: seq<Event>, now: int, at: int)
    requires Fresh(s) && s.threshold >= 1 && Run(s, trace).mode == Open && !Refuses(Run(s, trace), now)
    ensures var t := Run(s, trace + [Check(now), Success, Success]); t.mode == Closed && t.failures == 0
    ensures Run(s, trace + [Check(now), Failure(at)]).mode == Open
  {
    ClosedMeansFewFailures(s, trace);
    RunMore(s, trace, Check(now));
    RunMore(s, trace + [Check(now)], Success);
    RunMore(s, trace + [Check(now)] + [Success], Success);
    RunMore(s, trace + [Check(now)], Failure(at));
    assert trace + [Check(now), Success, Success] == trace + [Check(now)] + [Success] + [Success];
    assert trace + [Check(now), Failure(at)] == trace + [Check(now)] + [Failure(at)];
  }

  lemma RunMore(s: State, trace: seq<Event>, e: Event)
    ensures Run(s, trace + [e]) == Apply(Run(s, trace), e)
  {
    assert (trace + [e])[..|trace|] == trace;
  }

  /** While open, a check is refused exactly within the recovery timeout of the last failure;
      there has been one. */
  lemma OpenRefusesIff(s: State, trace: seq<Event>, now: int)
    requires Fresh(s) && s.threshold >= 1 && Run(s, trace).mode == Open
    ensures Refuses(Run(s, trace), now) <==> now - LastFailure(trace, s.lastFailure) <= s.timeout
    ensures exists i :: 0 <= i < |trace| && trace[i].Failure?
  {
    ClosedMeansFewFailures(s, trace);
    OpenedByFailure(s, trace);
  }

  lemma {:induction false} OpenedByFailure(s: State, trace: seq<Event>)
    requires s.mode == Closed && Run(s, trace).mode != Closed
    ensures exists i :: 0 <= i < |trace| && trace[i].Failure?
  {
    var init, e := trace[..|trace| - 1], trace[|trace| - 1];
    if Run(s, init).mode != Closed {
      OpenedByFailure(s, init);
      var i :| 0 <= i < |init| && init[i].Failure?;
      assert trace[i].Failure?;
    } else {
      assert e.Failure?;
    }
  }

  /** Whatever comes in, until the timeout after the last failure has passed an open breaker
      stays open and refuses every check. */
  lemma {:induction false} StaysOpenWithinTimeout(s: State, trace: seq<Event>, more: seq<Event>)
    requires Fresh(s) && s.threshold >= 1 && Run(s, trace).mode == Open
    requires forall i :: 0 <= i < |more| && !more[i].Success? ==>
               LastFailure(trace, s.lastFailure) <= more[i].at <= LastFailure(trace, s.lastFailure) + s.timeout
    ensures Run(s, trace + more).mode == Open
    ensures forall now :: now <= LastFailure(trace, s.lastFailure) + s.timeout ==> Refuses(Run(s, trace + more), now)
    decreases |more|
  {
    ClosedMeansFewFailures(s, trace);
    if more == [] {
      assert trace + more == trace;
    } else {
      var init := more[..|more| - 1];
      assert (trace + more)[..|trace + more| - 1] == trace + init;
      StaysOpenWithinTimeout(s, trace, init);
      ClosedMeansFewFailures(s, trace + init);
      assert Refuses(Run(s, trace + init), LastFailure(trace, s.lastFailure) + s.timeout);
    }
  }
}
