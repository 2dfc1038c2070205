/** The notification worker: main queue, retry queue, dead-letter queue and the two loops that
    serve them (notifications/worker.go:81-189, 358-383). Whether an attempt at delivery asks
    for a retry is left open. */
module NotificationQueue {
  import opened Common

  type JobId = nat

  const MAX_CONCURRENT := 10
  const MAX_ATTEMPTS := 5

  /** Seconds. */
  const RETRY_BACKOFFS := [30, 60, 120, 240, 480]

  /** `attempts` is the payload's attempt_count. `tries` and `waited` are the job's history:
      the attempts at delivery begun and the seconds of backoff served. */
  datatype Job = Job(id: JobId, attempts: nat, tries: nat, waited: nat)

  /** What the retry loop holds: a job waiting for its timer, or one being processed. */
  datatype Held = Idle | Delayed(job: Job) | Retrying(job: Job)

  /** What the main loop holds: nothing, or a job waiting for the semaphore. */
  datatype Popped = Nothing | Waiting(job: Job)

  /** A finished job was recorded, or moved to the dead-letter queue and recorded. `known` are
      the ids given to jobs so far. */
  datatype State = State(main: seq<Job>, popped: Popped, inFlight: seq<Job>, retry: seq<Job>, held: Held,
                         dlq: seq<Job>, finished: seq<Job>, known: set<JobId>)

  datatype Step =
    | Enqueue(id: JobId)
    | PopMain
    | Acquire
    | FinishMain(slot: nat, again: bool)
    | PopRetry
    | TimerFires
    | FinishRetry(again: bool)

  function BackoffIndex(attempts: int): int {
    Min(attempts, |RETRY_BACKOFFS| - 1)
  }

  function Backoff(attempts: nat): nat {
    RETRY_BACKOFFS[BackoffIndex(attempts)]
  }

  function RemoveAt(jobs: seq<Job>, i: nat): seq<Job>
    requires i < |jobs|
  {
    jobs[..i] + jobs[i + 1..]
  }

  function Tried(job: Job): Job {
    job.(tries := job.tries + 1)
  }

  function Again(job: Job): Job {
    job.(attempts := job.attempts + 1)
  }

  /** scheduleRetry, or recordJob when the attempt does not ask for a retry. */
  function Settled(s: State, job: Job, again: bool): State {
    var dead := again && job.attempts + 1 >= MAX_ATTEMPTS;
    s.(retry := if again && !dead then s.retry + [Again(job)] else s.retry,
       dlq := if dead then s.dlq + [Again(job)] else s.dlq,
       finished := if !again then s.finished + [job] else if dead then s.finished + [Again(job)] else s.finished)
  }

  /** A step that is possible in the state; ids are fresh UUIDs. */
  predicate Enabled(s: State, step: Step) {
    match step
    case Enqueue(id) => id !in s.known
    case PopMain => s.popped == Nothing && s.main != []
    case Acquire => s.popped != Nothing && |s.inFlight| < MAX_CONCURRENT
    case FinishMain(slot, _) => slot < |s.inFlight|
    case PopRetry => s.held.Idle? && s.retry != []
    case TimerFires => s.held.Delayed?
    case FinishRetry(_) => s.held.Retrying?
  }

  /** The retry loop takes a job: dead-lettered at once, or delayed. */
  function Taken(s: State): State
    requires s.retry != []
  {
    var job := s.retry[0];
    var dead := job.attempts >= MAX_ATTEMPTS;
    s.(retry := s.retry[1..],
       dlq := if dead then s.dlq + [job] else s.dlq,
       finished := if dead then s.finished + [job] else s.finished,
       held := if dead then s.held else Delayed(job))
  }

  function Fired(job: Job): Job {
    Tried(job.(waited := job.waited + Backoff(job.attempts)))
  }

  function Apply(s: State, step: Step): State {
    if !Enabled(s, step) then s
    else
      match step
      case Enqueue(id) => s.(main := s.main + [Job(id, 0, 0, 0)], known := s.known + {id})
      case PopMain => s.(popped := Waiting(s.main[0]), main := s.main[1..])
      case Acquire => s.(inFlight := s.inFlight + [Tried(s.popped.job)], popped := Nothing)
      case FinishMain(slot, again) => Settled(s.(inFlight := RemoveAt(s.inFlight, slot)), s.inFlight[slot], again)
      case PopRetry => Taken(s)
      case TimerFires => s.(held := Retrying(Fired(s.held.job)))
      case FinishRetry(again) => Settled(s.(held := Idle), s.held.job, again)
  }

  const EMPTY := State([], Nothing, [], [], Idle, [], [], {})

  function RunFrom(s: State, steps: seq<Step>): State {
    if steps == [] then s else Apply(RunFrom(s, steps[..|steps| - 1]), steps[|steps| - 1])
  }

  function Run(steps: seq<Step>): State {
    RunFrom(EMPTY, steps)
  }

  // ---------------------------------------------------------------- conservation

  function Count(jobs: seq<Job>, id: JobId): nat {
    if jobs == [] then 0 else Count(jobs[..|jobs| - 1], id) + if jobs[|jobs| - 1].id == id then 1 else 0
  }

  function One(job: Job, id: JobId): nat {
    if job.id == id then 1 else 0
  }

  lemma CountPush(jobs: seq<Job>, job: Job, id: JobId)
    ensures Count(jobs + [job], id) == Count(jobs, id) + One(job, id)
  {
    assert (jobs + [job])[..|jobs|] == jobs;
  }

  lemma {:induction false} CountRemove(jobs: seq<Job>, i: nat, id: JobId)
    requires i < |jobs|
    ensures Count(jobs, id) == Count(RemoveAt(jobs, i), id) + One(jobs[i], id)
  {
    var n := |jobs| - 1;
    if i == n {
      assert RemoveAt(jobs, i) == jobs[..n];
    } else {
      assert RemoveAt(jobs, i) == RemoveAt(jobs[..n], i) + [jobs[n]];
      CountRemove(jobs[..n], i, id);
      CountPush(RemoveAt(jobs[..n], i), jobs[n], id);
    }
  }

  lemma CountHead(jobs: seq<Job>, id: JobId)
    requires jobs != []
    ensures Count(jobs, id) == One(jobs[0], id) + Count(jobs[1..], id)
  {
    CountRemove(jobs, 0, id);
    assert RemoveAt(jobs, 0) == jobs[1..];
  }

  /** In how many places a job is. */
  function Everywhere(s: State, id: JobId): nat {
    Count(s.main, id) + (if s.popped == Nothing then 0 else One(s.popped.job, id)) + Count(s.inFlight, id)
    + Count(s.retry, id) + (if s.held.Idle? then 0 else One(s.held.job, id)) + Count(s.finished, id)
  }

  lemma SettledCount(s: State, job: Job, again: bool, id: JobId)
    ensures Everywhere(Settled(s, job, again), id) == Everywhere(s, id) + One(job, id)
  {
    CountPush(s.finished, job, id);
    CountPush(s.finished, Again(job), id);
    CountPush(s.retry, Again(job), id);
  }

  lemma MainLoopConserves(s: State, step: Step, id: JobId)
    requires Enabled(s, step) && (step.PopMain? || step.Acquire? || step.FinishMain?)
    ensures Everywhere(Apply(s, step), id) == Everywhere(s, id)
  {
    match step
    case PopMain => CountHead(s.main, id);
    case Acquire => CountPush(s.inFlight, Tried(s.popped.job), id);
    case FinishMain(slot, again) =>
      CountRemove(s.inFlight, slot, id);
      SettledCount(s.(inFlight := RemoveAt(s.inFlight, slot)), s.inFlight[slot], again, id);
  }

  lemma RetryLoopConserves(s: State, step: Step, id: JobId)
    requires Enabled(s, step) && (step.PopRetry? || step.TimerFires? || step.FinishRetry?)
    ensures Everywhere(Apply(s, step), id) == Everywhere(s, id)
  {
    match step
    case PopRetry =>
      CountHead(s.retry, id);
      CountPush(s.finished, s.retry[0], id);
    case TimerFires =>
    case FinishRetry(again) => SettledCount(s.(held := Idle), s.held.job, again, id);
  }

  /** Conservation: in every run, each job ever enqueued is in exactly one place, and no other
      job is anywhere. */
  lemma {:induction false} EveryJobIsInOnePlace(steps: seq<Step>, id: JobId)
    ensures Everywhere(Run(steps), id) == if id in Run(steps).known then 1 else 0
  {
    if steps != [] {
      var before, step := Run(steps[..|steps| - 1]), steps[|steps| - 1];
      EveryJobIsInOnePlace(steps[..|steps| - 1], id);
      if Enabled(before, step) {
        match step {
          case Enqueue(new_) => CountPush(before.main, Job(new_, 0, 0, 0), id);
          case PopMain => MainLoopConserves(before, step, id);
          case Acquire => MainLoopConserves(before, step, id);
          case FinishMain(_, _) => MainLoopConserves(before, step, id);
          case _ => RetryLoopConserves(before, step, id);
        }
      }
    }
  }

  // ---------------------------------------------------------------- attempts and backoff

  /** The backoff a job has served once the timer of its `attempts`-th retry has fired. */
  function BackoffTotal(attempts: nat): nat {
    if attempts == 0 then 0 else BackoffTotal(attempts - 1) + Backoff(attempts)
  }

  /** A job in the retry queue: its attempt number, and what it has been through. */
  predicate InRetry(job: Job) {
    1 <= job.attempts < MAX_ATTEMPTS && job.tries == job.attempts && job.waited == BackoffTotal(job.attempts - 1)
  }

  predicate AfterTimer(job: Job) {
    1 <= job.attempts < MAX_ATTEMPTS && job.tries == job.attempts + 1 && job.waited == BackoffTotal(job.attempts)
  }

  /** A job on its first attempt. */
  predicate First(job: Job) {
    job.attempts == 0 && job.tries == 1 && job.waited == 0
  }

  predicate Ended(job: Job) {
    1 <= job.tries <= MAX_ATTEMPTS && job.attempts <= MAX_ATTEMPTS && job.waited <= 900
  }

  predicate Exhausted(job: Job) {
    job.tries == MAX_ATTEMPTS && job.waited == 900
  }

  ghost predicate All(jobs: seq<Job>, p: Job -> bool) {
    forall i :: 0 <= i < |jobs| ==> p(jobs[i])
  }

  predicate New(job: Job) {
    job.attempts == 0 && job.tries == 0 && job.waited == 0
  }

  ghost predicate Valid(s: State) {
    && All(s.main, New) && (s.popped.Waiting? ==> New(s.popped.job))
    && All(s.inFlight, First) && |s.inFlight| <= MAX_CONCURRENT
    && All(s.retry, InRetry)
    && (s.held.Delayed? ==> InRetry(s.held.job)) && (s.held.Retrying? ==> AfterTimer(s.held.job))
    && All(s.finished, Ended)
    && All(s.dlq, Exhausted)
  }

  lemma BackoffSteps()
    ensures BackoffTotal(1) == 60 && BackoffTotal(2) == 180 && BackoffTotal(3) == 420 && BackoffTotal(4) == 900
  {
    assert Backoff(1) == 60 && Backoff(2) == 120 && Backoff(3) == 240 && Backoff(4) == 480;
  }

  lemma SettledFirst(s: State, job: Job, again: bool)
    requires Valid(s) && First(job)
    ensures Valid(Settled(s, job, again))
  {
  }

  lemma AfterTimerFacts(job: Job)
    requires AfterTimer(job)
    ensures Ended(job) && Ended(Again(job))
    ensures if job.attempts + 1 < MAX_ATTEMPTS then InRetry(Again(job)) else Exhausted(Again(job))
  {
    BackoffSteps();
    assert job.attempts in {1, 2, 3, 4};
  }

  lemma SettledRetry(s: State, job: Job, again: bool)
    requires Valid(s) && AfterTimer(job)
    ensures Valid(Settled(s, job, again))
  {
    AfterTimerFacts(job);
  }

  lemma ValidStep(s: State, step: Step)
    requires Valid(s)
    ensures Valid(Apply(s, step))
  {
    if Enabled(s, step) {
      match step
      case FinishMain(slot, again) => SettledFirst(s.(inFlight := RemoveAt(s.inFlight, slot)), s.inFlight[slot], again);
      case FinishRetry(again) => SettledRetry(s.(held := Idle), s.held.job, again);
      case TimerFires => assert AfterTimer(Fired(s.held.job));
      case _ =>
    }
  }

  lemma {:induction false} ValidRun(steps: seq<Step>)
    ensures Valid(Run(steps))
  {
    if steps != [] {
      ValidRun(steps[..|steps| - 1]);
      ValidStep(Run(steps[..|steps| - 1]), steps[|steps| - 1]);
    }
  }

  /** In every run at most ten jobs of the main loop are processed at once, jobs in the retry
      queue have attempt number 1 to 4, every finished job was tried one to five times and
      waited at most 900 seconds, and a dead-lettered one exactly five times and 900 seconds. */
  lemma Bounds(steps: seq<Step>)
    ensures var s := Run(steps);
            && |s.inFlight| <= MAX_CONCURRENT
            && (forall i :: 0 <= i < |s.retry| ==> 1 <= s.retry[i].attempts <= 4)
            && (forall i :: 0 <= i < |s.finished| ==> 1 <= s.finished[i].tries <= 5 && s.finished[i].waited <= 900)
            && (forall i :: 0 <= i < |s.dlq| ==> s.dlq[i].tries == 5 && s.dlq[i].waited == 900)
  {
    ValidRun(steps);
  }

  /** The retry loop's own check for exhausted jobs never fires, and the backoff of 30 seconds is
      never used. */
  lemma RetryLoopNeverDeadLetters(steps: seq<Step>)
    requires Enabled(Run(steps), PopRetry)
    ensures Apply(Run(steps), PopRetry).dlq == Run(steps).dlq
    ensures Apply(Run(steps), PopRetry).held.Delayed?
    ensures 1 <= BackoffIndex(Apply(Run(steps), PopRetry).held.job.attempts) <= 4
  {
    ValidRun(steps);
    assert InRetry(Run(steps).retry[0]);
  }

  // ---------------------------------------------------------------- sums

  function Sum(jobs: seq<Job>, weight: Job -> nat): nat {
    if jobs == [] then 0 else Sum(jobs[..|jobs| - 1], weight) + weight(jobs[|jobs| - 1])
  }

  lemma SumPush(jobs: seq<Job>, job: Job, weight: Job -> nat)
    ensures Sum(jobs + [job], weight) == Sum(jobs, weight) + weight(job)
  {
    assert (jobs + [job])[..|jobs|] == jobs;
  }

  lemma {:induction false} SumRemove(jobs: seq<Job>, i: nat, weight: Job -> nat)
    requires i < |jobs|
    ensures Sum(jobs, weight) == Sum(RemoveAt(jobs, i), weight) + weight(jobs[i])
  {
    var n := |jobs| - 1;
    if i == n {
      assert RemoveAt(jobs, i) == jobs[..n];
    } else {
      assert RemoveAt(jobs, i) == RemoveAt(jobs[..n], i) + [jobs[n]];
      SumRemove(jobs[..n], i, weight);
      SumPush(RemoveAt(jobs[..n], i), jobs[n], weight);
    }
  }

  // ---------------------------------------------------------------- first come, first started

  function Ids(jobs: seq<Job>): (ids: seq<JobId>)
    ensures |ids| == |jobs|
  {
    seq(|jobs|, i requires 0 <= i < |jobs| => jobs[i].id)
  }

  ghost function Enqueued(steps: seq<Step>): seq<JobId> {
    if steps == [] then []
    else
      var init, last := steps[..|steps| - 1], steps[|steps| - 1];
      Enqueued(init) + if last.Enqueue? && Enabled(Run(init), last) then [last.id] else []
  }

  /** The jobs whose first delivery began, in that order. */
  ghost function Started(steps: seq<Step>): seq<JobId> {
    if steps == [] then []
    else
      var init, last := steps[..|steps| - 1], steps[|steps| - 1];
      Started(init) + if last.Acquire? && Enabled(Run(init), last) then [Run(init).popped.job.id] else []
  }

  function Pending(s: State): seq<JobId> {
    (if s.popped == Nothing then [] else [s.popped.job.id]) + Ids(s.main)
  }

  lemma PendingStep(s: State, step: Step)
    requires Enabled(s, step)
    ensures match step
            case Enqueue(id) => Pending(Apply(s, step)) == Pending(s) + [id]
            case Acquire => Pending(s) == [s.popped.job.id] + Pending(Apply(s, step))
            case _ => Pending(Apply(s, step)) == Pending(s)
  {
    match step
    case PopMain => assert Ids(s.main) == [s.main[0].id] + Ids(s.main[1..]);
    case Enqueue(id) => assert Ids(s.main + [Job(id, 0, 0, 0)]) == Ids(s.main) + [id];
    case _ =>
  }

  /** Jobs start in the order in which they were enqueued, and the others wait in that order. */
  lemma {:induction false} FirstComeFirstStarted(steps: seq<Step>)
    ensures Enqueued(steps) == Started(steps) + Pending(Run(steps))
  {
    if steps != [] {
      var init, last := steps[..|steps| - 1], steps[|steps| - 1];
      FirstComeFirstStarted(init);
      if Enabled(Run(init), last) { PendingStep(Run(init), last); }
    }
  }

  // ---------------------------------------------------------------- the dead-letter queue

  /** The finished jobs that used up all attempts. */
  function Spent(jobs: seq<Job>): seq<Job> {
    if jobs == [] then []
    else
      var last := jobs[|jobs| - 1];
      Spent(jobs[..|jobs| - 1]) + if last.attempts == 5 then [last] else []
  }

  lemma SpentPush(jobs: seq<Job>, job: Job)
    ensures Spent(jobs + [job]) == Spent(jobs) + if job.attempts == 5 then [job] else []
  {
    assert (jobs + [job])[..|jobs|] == jobs;
  }

  /** A delivery of the job ends, asking for a retry or not. */
  predicate Ends(s: State, step: Step, id: JobId, again: bool) {
    Enabled(s, step) && match step
                        case FinishMain(slot, asks) => s.inFlight[slot].id == id && asks == again
                        case FinishRetry(asks) => s.held.job.id == id && asks == again
                        case _ => false
  }

  /** How many deliveries of a job ended that way. */
  ghost function Deliveries(steps: seq<Step>, id: JobId, again: bool): nat {
    if steps == [] then 0
    else
      var init, last := steps[..|steps| - 1], steps[|steps| - 1];
      Deliveries(init, id, again) + if Ends(Run(init), last, id, again) then 1 else 0
  }

  function AttemptsOf(id: JobId): Job -> nat {
    (job: Job) => if job.id == id then job.attempts else 0
  }

  /** The attempt numbers of a job, over all places it can be in. */
  function AttemptsEverywhere(s: State, id: JobId): nat {
    var w := AttemptsOf(id);
    Sum(s.main, w) + (if s.popped == Nothing then 0 else w(s.popped.job)) + Sum(s.inFlight, w)
    + Sum(s.retry, w) + (if s.held.Idle? then 0 else w(s.held.job)) + Sum(s.finished, w)
  }

  lemma SettledAttempts(s: State, job: Job, again: bool, id: JobId)
    ensures AttemptsEverywhere(Settled(s, job, again), id)
            == AttemptsEverywhere(s, id) + AttemptsOf(id)(job) + (if job.id == id && again then 1 else 0)
  {
    SumPush(s.finished, job, AttemptsOf(id));
    SumPush(s.finished, Again(job), AttemptsOf(id));
    SumPush(s.retry, Again(job), AttemptsOf(id));
  }

  lemma SettledFate(s: State, job: Job, again: bool, id: JobId)
    requires job.attempts <= 4 && s.dlq == Spent(s.finished)
    ensures var t := Settled(s, job, again);
            && t.dlq == Spent(t.finished)
            && Count(t.finished, id) - Count(t.dlq, id)
               == Count(s.finished, id) - Count(s.dlq, id) + (if !again then One(job, id) else 0)
  {
    SpentPush(s.finished, job);
    SpentPush(s.finished, Again(job));
    CountPush(s.finished, job, id);
    CountPush(s.finished, Again(job), id);
    CountPush(s.dlq, Again(job), id);
  }

  /** What a step does to the attempt numbers, the dead letters and the finished jobs. */
  ghost predicate FateAfter(s: State, step: Step, id: JobId) {
    var t := Apply(s, step);
    && t.dlq == Spent(t.finished)
    && AttemptsEverywhere(t, id) == AttemptsEverywhere(s, id) + (if Ends(s, step, id, true) then 1 else 0)
    && Count(t.finished, id) - Count(t.dlq, id)
       == Count(s.finished, id) - Count(s.dlq, id) + (if Ends(s, step, id, false) then 1 else 0)
  }

  lemma GoroutineFate(s: State, slot: nat, again: bool, id: JobId)
    requires Valid(s) && s.dlq == Spent(s.finished) && slot < |s.inFlight|
    ensures FateAfter(s, FinishMain(slot, again), id)
  {
    var freed := s.(inFlight := RemoveAt(s.inFlight, slot));
    SumRemove(s.inFlight, slot, AttemptsOf(id));
    SettledAttempts(freed, s.inFlight[slot], again, id);
    SettledFate(freed, s.inFlight[slot], again, id);
  }

  lemma MainLoopFate(s: State, step: Step, id: JobId)
    requires Valid(s) && s.dlq == Spent(s.finished) && Enabled(s, step) && (step.PopMain? || step.Acquire?)
    ensures FateAfter(s, step, id)
  {
    match step
    case PopMain =>
      SumRemove(s.main, 0, AttemptsOf(id));
      assert RemoveAt(s.main, 0) == s.main[1..];
    case Acquire => SumPush(s.inFlight, Tried(s.popped.job), AttemptsOf(id));
  }

  lemma RetryLoopFate(s: State, step: Step, id: JobId)
    requires Valid(s) && s.dlq == Spent(s.finished) && Enabled(s, step) && (step.PopRetry? || step.TimerFires? || step.FinishRetry?)
    ensures FateAfter(s, step, id)
  {
    match step
    case PopRetry =>
      assert InRetry(s.retry[0]);
      SumRemove(s.retry, 0, AttemptsOf(id));
      assert RemoveAt(s.retry, 0) == s.retry[1..];
    case TimerFires =>
    case FinishRetry(again) =>
      SettledAttempts(s.(held := Idle), s.held.job, again, id);
      SettledFate(s.(held := Idle), s.held.job, again, id);
  }

  lemma StepFate(s: State, step: Step, id: JobId)
    requires Valid(s) && s.dlq == Spent(s.finished)
    ensures FateAfter(s, step, id)
  {
    if Enabled(s, step) {
      match step {
        case Enqueue(new_) => SumPush(s.main, Job(new_, 0, 0, 0), AttemptsOf(id));
        case PopMain => MainLoopFate(s, step, id);
        case Acquire => MainLoopFate(s, step, id);
        case FinishMain(slot, again) => GoroutineFate(s, slot, again, id);
        case _ => RetryLoopFate(s, step, id);
      }
    }
  }

  lemma {:induction false} FateInEveryRun(steps: seq<Step>, id: JobId)
    ensures Run(steps).dlq == Spent(Run(steps).finished)
    ensures AttemptsEverywhere(Run(steps), id) == Deliveries(steps, id, true)
    ensures Count(Run(steps).finished, id) == Count(Run(steps).dlq, id) + Deliveries(steps, id, false)
  {
    if steps != [] {
      var init, last := steps[..|steps| - 1], steps[|steps| - 1];
      FateInEveryRun(init, id);
      ValidRun(init);
      StepFate(Run(init), last, id);
    }
  }

  lemma {:induction false} AttemptsWithin(jobs: seq<Job>, id: JobId)
    requires forall i :: 0 <= i < |jobs| ==> jobs[i].attempts <= 5
    ensures 5 * Count(Spent(jobs), id) <= Sum(jobs, AttemptsOf(id)) <= 4 * Count(jobs, id) + Count(Spent(jobs), id)
    ensures Count(Spent(jobs), id) <= Count(jobs, id)
  {
    if jobs != [] {
      var init, last := jobs[..|jobs| - 1], jobs[|jobs| - 1];
      AttemptsWithin(init, id);
      CountPush(Spent(init), last, id);
      assert Spent(jobs) == if last.attempts == 5 then Spent(init) + [last] else Spent(init);
    }
  }

  lemma {:induction false} NoneSpent(jobs: seq<Job>, id: JobId)
    requires forall i :: 0 <= i < |jobs| ==> jobs[i].attempts <= 4
    ensures Spent(jobs) == [] && Sum(jobs, AttemptsOf(id)) <= 4 * Count(jobs, id)
  {
    if jobs != [] { NoneSpent(jobs[..|jobs| - 1], id); }
  }

  lemma AttemptsTotal(s: State, id: JobId)
    requires Valid(s) && s.dlq == Spent(s.finished)
    ensures 5 * Count(s.dlq, id) <= AttemptsEverywhere(s, id) <= 4 * Everywhere(s, id) + Count(s.dlq, id)
    ensures Count(s.dlq, id) <= Count(s.finished, id) <= Everywhere(s, id)
  {
    assert forall i :: 0 <= i < |s.retry| ==> InRetry(s.retry[i]);
    assert forall i :: 0 <= i < |s.finished| ==> Ended(s.finished[i]);
    NoneSpent(s.main, id);
    NoneSpent(s.inFlight, id);
    NoneSpent(s.retry, id);
    AttemptsWithin(s.finished, id);
  }

  /** The fate of every job in every run: it is dead-lettered, once, exactly when five deliveries
      asked for a retry, and it is finished exactly when it is dead-lettered or one delivery did
      not ask. The dead letters are the finished jobs that used up their attempts, in order. */
  lemma DeadLetteredIff(steps: seq<Step>, id: JobId)
    ensures var s, asked, done := Run(steps), Deliveries(steps, id, true), Deliveries(steps, id, false);
            && s.dlq == Spent(s.finished)
            && asked <= 5 && done <= 1
            && Count(s.dlq, id) == (if asked == 5 then 1 else 0)
            && Count(s.finished, id) == (if asked == 5 || done == 1 then 1 else 0)
            && (asked == 5 ==> done == 0)
  {
    FateInEveryRun(steps, id);
    EveryJobIsInOnePlace(steps, id);
    ValidRun(steps);
    AttemptsTotal(Run(steps), id);
  }

  // ---------------------------------------------------------------- termination

  /** Steps a job still needs at most: three for each retry it can have. */
  function RetryWork(job: Job): nat {
    if job.attempts < MAX_ATTEMPTS then 3 * (MAX_ATTEMPTS - job.attempts) else 1
  }

  function InFlightWork(job: Job): nat {
    1 + if job.attempts + 1 < MAX_ATTEMPTS then RetryWork(Again(job)) else 0
  }

  function HeldWork(h: Held): nat {
    match h
    case Idle => 0
    case Delayed(job) => if job.attempts < MAX_ATTEMPTS then RetryWork(job) - 1 else 1
    case Retrying(job) => if job.attempts < MAX_ATTEMPTS then RetryWork(job) - 2 else 1
  }

  function MainWork(job: Job): nat {
    InFlightWork(job) + 2
  }

  /** The steps left in the whole worker if nothing more is enqueued. */
  function WorkLeft(s: State): nat {
    Sum(s.main, MainWork) + (if s.popped == Nothing then 0 else InFlightWork(s.popped.job) + 1) + Sum(s.inFlight, InFlightWork)
    + Sum(s.retry, RetryWork) + HeldWork(s.held)
  }

  lemma SettlingCost(s: State, job: Job, again: bool)
    ensures WorkLeft(Settled(s, job, again)) < WorkLeft(s) + InFlightWork(job)
  {
    SumPush(s.retry, Again(job), RetryWork);
  }

  lemma MainLoopProgress(s: State, step: Step)
    requires Enabled(s, step) && (step.PopMain? || step.Acquire? || step.FinishMain?)
    ensures WorkLeft(Apply(s, step)) < WorkLeft(s)
  {
    match step
    case PopMain =>
      SumRemove(s.main, 0, MainWork);
      assert RemoveAt(s.main, 0) == s.main[1..];
    case Acquire => SumPush(s.inFlight, Tried(s.popped.job), InFlightWork);
    case FinishMain(slot, again) =>
      SumRemove(s.inFlight, slot, InFlightWork);
      SettlingCost(s.(inFlight := RemoveAt(s.inFlight, slot)), s.inFlight[slot], again);
  }

  lemma PopRetryProgress(s: State)
    requires s.held.Idle? && s.retry != [] && InRetry(s.retry[0])
    ensures WorkLeft(Taken(s)) < WorkLeft(s)
  {
    SumRemove(s.retry, 0, RetryWork);
    assert RemoveAt(s.retry, 0) == s.retry[1..];
  }

  lemma RetryLoopProgress(s: State, step: Step)
    requires Valid(s) && Enabled(s, step) && (step.PopRetry? || step.TimerFires? || step.FinishRetry?)
    ensures WorkLeft(Apply(s, step)) < WorkLeft(s)
  {
    match step
    case PopRetry => PopRetryProgress(s);
    case TimerFires =>
    case FinishRetry(again) => SettlingCost(s.(held := Idle), s.held.job, again);
  }

  /** Every step but an enqueue brings the worker closer to rest. */
  lemma StepMakesProgress(s: State, step: Step)
    requires Valid(s) && Enabled(s, step) && !step.Enqueue?
    ensures WorkLeft(Apply(s, step)) < WorkLeft(s)
  {
    if step.PopMain? || step.Acquire? || step.FinishMain? {
      MainLoopProgress(s, step);
    } else {
      RetryLoopProgress(s, step);
    }
  }

  /** Unless every job is finished, some step is possible. */
  lemma NeverStuck(s: State)
    requires Valid(s) && (s.main != [] || s.popped != Nothing || s.inFlight != [] || s.retry != [] || !s.held.Idle?)
    ensures exists step: Step :: !step.Enqueue? && Enabled(s, step)
  {
    if s.inFlight != [] {
      assert Enabled(s, FinishMain(0, false));
    } else if s.popped != Nothing {
      assert Enabled(s, Acquire);
    } else if s.main != [] {
      assert Enabled(s, PopMain);
    } else if s.held.Delayed? {
      assert Enabled(s, TimerFires);
    } else if s.held.Retrying? {
      assert Enabled(s, FinishRetry(false));
    } else {
      assert Enabled(s, PopRetry);
    }
  }

  /** Steps that are possible where they are taken, and enqueue nothing. */
  ghost predicate Quiet(s: State, steps: seq<Step>) {
    steps == [] ||
    (Quiet(s, steps[..|steps| - 1]) && !steps[|steps| - 1].Enqueue?
     && Enabled(RunFrom(s, steps[..|steps| - 1]), steps[|steps| - 1]))
  }

  /** Termination: once nothing more is enqueued, the worker can take only as many steps as
      there is work left, whatever the deliveries do. */
  lemma {:induction false} WorkerComesToRest(s: State, steps: seq<Step>)
    requires Valid(s) && Quiet(s, steps)
    ensures Valid(RunFrom(s, steps)) && |steps| + WorkLeft(RunFrom(s, steps)) <= WorkLeft(s)
  {
    if steps != [] {
      var before, step := RunFrom(s, steps[..|steps| - 1]), steps[|steps| - 1];
      WorkerComesToRest(s, steps[..|steps| - 1]);
      ValidStep(before, step);
      StepMakesProgress(before, step);
    }
  }

  /** The steps of a history that were possible and enqueued nothing. */
  ghost function StepsTaken(steps: seq<Step>): nat {
    if steps == [] then 0
    else
      var init, last := steps[..|steps| - 1], steps[|steps| - 1];
      StepsTaken(init) + if Enabled(Run(init), last) && !last.Enqueue? then 1 else 0
  }

  /** Over any history the worker takes at most 15 steps for each job ever enqueued. */
  lemma {:induction false} FifteenStepsPerJob(steps: seq<Step>)
    ensures StepsTaken(steps) + WorkLeft(Run(steps)) <= 15 * |Run(steps).known|
  {
    if steps != [] {
      var init, last := steps[..|steps| - 1], steps[|steps| - 1];
      FifteenStepsPerJob(init);
      ValidRun(init);
      if Enabled(Run(init), last) {
        if last.Enqueue? {
          SumPush(Run(init).main, Job(last.id, 0, 0, 0), MainWork);
        } else {
          StepMakesProgress(Run(init), last);
          KnownStays(Run(init), last);
        }
      }
    }
  }

  lemma KnownStays(s: State, step: Step)
    requires !step.Enqueue?
    ensures Apply(s, step).known == s.known
  {
  }

  // ---------------------------------------------------------------- the worker

  class NotificationWorker {
    var main: seq<Job>
    var popped: Popped
    var inFlight: seq<Job>
    var retry: seq<Job>
    var held: Held
    var dlq: seq<Job>
    var finished: seq<Job>
    var known: set<JobId>

    constructor ()
      ensures Now() == EMPTY
    {
      main, popped, inFlight, retry, held, dlq, finished, known := [], Nothing, [], [], Idle, [], [], {};
    }

    ghost function Now(): State
      reads this
    {
      State(main, popped, inFlight, retry, held, dlq, finished, known)
    }

    method EnqueueJob(id: JobId)
      requires id !in known
      modifies this`main, this`known
      ensures Now() == Apply(old(Now()), Enqueue(id))
      ensures main == old(main) + [Job(id, 0, 0, 0)] && known == old(known) + {id}
    {
      main := main + [Job(id, 0, 0, 0)];
      known := known + {id};
    }

    /** The main loop up to the semaphore. */
    method MainLoopPops()
      requires popped == Nothing && main != []
      modifies this`main, this`popped
      ensures Now() == Apply(old(Now()), PopMain)
      ensures popped == Waiting(old(main)[0]) && main == old(main)[1..]
    {
      popped := Waiting(main[0]);
      main := main[1..];
    }

    /** The semaphore has room: the job's goroutine starts. */
    method MainLoopStarts()
      requires popped != Nothing && |inFlight| < MAX_CONCURRENT
      modifies this`popped, this`inFlight
      ensures Now() == Apply(old(Now()), Acquire)
      ensures var job := old(popped).job; inFlight == old(inFlight) + [Job(job.id, job.attempts, job.tries + 1, job.waited)]
      ensures popped == Nothing
    {
      inFlight := inFlight + [Tried(popped.job)];
      popped := Nothing;
    }

    method GoroutineEnds(slot: nat, again: bool)
      requires slot < |inFlight|
      modifies this
      ensures Now() == Apply(old(Now()), FinishMain(slot, again))
    {
      var job := inFlight[slot];
      inFlight := RemoveAt(inFlight, slot);
      EndAttempt(job, again);
    }

    method EndAttempt(job: Job, again: bool)
      modifies this`retry, this`dlq, this`finished
      ensures Now() == Settled(old(Now()), job, again)
    {
      if again {
        ScheduleRetry(job);
      } else {
        finished := finished + [job];
      }
    }

    method ScheduleRetry(job: Job)
      modifies this`retry, this`dlq, this`finished
      ensures Now() == Settled(old(Now()), job, true)
      ensures var next := Job(job.id, job.attempts + 1, job.tries, job.waited);
              if next.attempts >= 5
              then retry == old(retry) && dlq == old(dlq) + [next] && finished == old(finished) + [next]
              else retry == old(retry) + [next] && dlq == old(dlq) && finished == old(finished)
    {
      var next := job.(attempts := job.attempts + 1);
      if next.attempts >= MAX_ATTEMPTS {
        MoveToDLQ(next);
      } else {
        retry := retry + [next];
      }
    }

    method MoveToDLQ(job: Job)
      modifies this`dlq, this`finished
      ensures dlq == old(dlq) + [job] && finished == old(finished) + [job]
    {
      dlq := dlq + [job];
      finished := finished + [job];
    }

    /** The retry loop up to the timer. */
    method RetryLoopPops()
      requires held.Idle? && retry != []
      modifies this
      ensures Now() == Apply(old(Now()), PopRetry)
      ensures retry == old(retry)[1..] && (old(retry)[0].attempts < 5 ==> held == Delayed(old(retry)[0]))
    {
      var job := retry[0];
      retry := retry[1..];
      if job.attempts >= MAX_ATTEMPTS {
        MoveToDLQ(job);
      } else {
        held := Delayed(job);
      }
    }

    method RetryLoopResumes()
      requires held.Delayed?
      modifies this`held
      ensures Now() == Apply(old(Now()), TimerFires)
      ensures var job := old(held).job;
              held == Retrying(Job(job.id, job.attempts, job.tries + 1, job.waited + RETRY_BACKOFFS[Min(job.attempts, 4)]))
    {
      held := Retrying(Fired(held.job));
    }

    method RetryLoopEnds(again: bool)
      requires held.Retrying?
      modifies this
      ensures Now() == Apply(old(Now()), FinishRetry(again))
    {
      var job := held.job;
      held := Idle;
      EndAttempt(job, again);
    }
  }
}
