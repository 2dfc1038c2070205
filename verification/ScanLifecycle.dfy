/** Scan jobs, the workers that claim them under a 30-minute lease, and the quizzes, drafts
    and cache entries those workers and the users write (scan/worker.go,
    scan/worker_repository.go, scan/service.go, quiz/review.go).

    Each step below is one database statement, so any interleaving of workers, users, uploads
    and administrators is a sequence of steps. */
module ScanLifecycle {
  import opened Common
  import opened ScanModel

  type JobId = nat
  type Worker = nat
  type QuizId = nat
  type User = nat
  type Hash = nat
  type Request = nat

  /** Seconds. */
  const LEASE := 30 * 60

  datatype Job = Job(owner: User, status: JobStatus, updatedAt: int, quiz: Option<QuizId>, pipeline: Option<string>)

  datatype QuizStatus = Draft | Published

  /** `extracted` quizzes start as drafts; `open` means its worker is still adding questions. */
  datatype Quiz = Quiz(status: QuizStatus, extracted: bool, open: bool, questions: seq<string>)

  /** Where a worker is in ProcessJob. */
  datatype Phase =
    | Claimed
    | TextRead
    | PipelineSaved
    | Hit(quiz: QuizId)
    | HitLinked(quiz: QuizId)
    | Building(quiz: QuizId, extract: bool)
    | Built(quiz: QuizId, extract: bool)
    | RowStored(quiz: QuizId, hash: Hash)
    | Linked(quiz: QuizId, extract: bool)

  datatype Attempt = Attempt(claimedAt: int, phase: Phase)

  /** A worker holds a job at most once: it waits for its whole batch before polling again. */
  type Hold = (Worker, JobId)

  /** `saves`, `publishes` and `strategies` are requests that have passed their status check
      and not yet written; `refills` are lookups that have read a row and not yet copied it. */
  datatype State = State(
    now: int,
    maxConcurrent: nat,
    jobs: map<JobId, Job>,
    runs: map<Hold, Attempt>,
    quizzes: map<QuizId, Quiz>,
    rows: map<Hash, QuizId>,
    valkey: map<Hash, QuizId>,
    saves: map<Request, (QuizId, seq<string>)>,
    publishes: map<Request, (QuizId, User)>,
    strategies: map<Request, JobId>,
    refills: map<Request, (Hash, QuizId)>)

  datatype WorkerStep =
    | Claim(batch: set<JobId>)
    | BeginWork(job: JobId)
    | FinishOCR(job: JobId)
    | FailJob(job: JobId)
    | SavePipeline(job: JobId, text: string)
    | AskStrategy(job: JobId)
    | CacheHit(job: JobId, hash: Hash, fromValkey: bool)
    | LinkHit(job: JobId)
    | FinishHit(job: JobId)
    | RateLimited(job: JobId)
    | CreateQuiz(job: JobId, quiz: QuizId, extract: bool)
    | AddQuestion(job: JobId, question: string)
    | FinishBuild(job: JobId)
    | StoreRow(job: JobId, hash: Hash)
    | StoreValkey(job: JobId)
    | LinkQuiz(job: JobId)
    | FinishQuiz(job: JobId)
    | ClearPipeline(job: JobId)
    | Stop(job: JobId)               // returns an error without a status write, or crashes

  datatype Step =
    | Tick(seconds: nat)
    | CreateJob(newJob: JobId, owner: User, text: bool)
    | Work(worker: Worker, work: WorkerStep)
    | UploadWake(wake: JobId)
    | AdminRetry(retry: JobId)
    | StrategyCheck(request: Request, user: User, ask: JobId)
    | StrategyWrite(request: Request)
    | SaveCheck(request: Request, user: User, quiz: QuizId, questions: seq<string>)
    | SaveCommit(request: Request)
    | PublishCheck(request: Request, user: User, quiz: QuizId)
    | PublishCommit(request: Request)
    | CacheDrop(hash: Hash, fromRows: bool)
    | RefillRead(request: Request, hash: Hash)
    | RefillWrite(request: Request)

  // ---------------------------------------------------------------- table writes

  /** UpdateJobStatus. */
  function WriteStatus(s: State, j: JobId, status: JobStatus): State
    requires j in s.jobs
  {
    s.(jobs := s.jobs[j := s.jobs[j].(status := status, updatedAt := s.now)])
  }

  /** UpdateJobQuizID. */
  function WriteQuiz(s: State, j: JobId, q: QuizId): State
    requires j in s.jobs
  {
    s.(jobs := s.jobs[j := s.jobs[j].(quiz := Some(q), updatedAt := s.now)])
  }

  /** UpdateJobPipeline and ClearJobPipelineText. */
  function WritePipeline(s: State, j: JobId, text: Option<string>): State
    requires j in s.jobs
  {
    s.(jobs := s.jobs[j := s.jobs[j].(pipeline := text, updatedAt := s.now)])
  }

  /** The table without one row. */
  function Without<K, V>(table: map<K, V>, key: K): map<K, V> {
    map k | k in table && k != key :: table[k]
  }

  function Goto(s: State, k: Hold, phase: Phase): State
    requires k in s.runs
  {
    s.(runs := s.runs[k := s.runs[k].(phase := phase)])
  }

  function Release(s: State, k: Hold): State {
    s.(runs := Without(s.runs, k))
  }

  predicate IsPending(status: JobStatus) {
    status == Pending || status == Queued
  }

  /** The WHERE clause of ClaimPendingJobs. */
  predicate Claimable(job: Job, now: int) {
    IsPending(job.status) || (job.status == Processing && job.updatedAt < now - LEASE)
  }

  function InFlight(s: State, w: Worker): set<Hold> {
    set k | k in s.runs && k.0 == w
  }

  function Holds(w: Worker, batch: set<JobId>): (holds: set<Hold>)
    ensures forall k: Hold :: k in holds <==> k.0 == w && k.1 in batch
  {
    set j | j in batch :: (w, j)
  }

  function FinalStatus(extract: bool): JobStatus {
    if extract then ReviewReady else QuizReady
  }

  function OwnsQuiz(s: State, user: User, q: QuizId): bool {
    exists j :: j in s.jobs && s.jobs[j].owner == user && s.jobs[j].quiz == Some(q)
  }

  // ---------------------------------------------------------------- worker steps

  /** The batch is marked `processing` and held. */
  function ClaimedBy(s: State, w: Worker, batch: set<JobId>): State {
    s.(jobs := map j | j in s.jobs :: if j in batch then s.jobs[j].(status := Processing, updatedAt := s.now) else s.jobs[j],
       runs := map k | k in s.runs.Keys + Holds(w, batch) :: if k in s.runs then s.runs[k] else Attempt(s.now, Claimed))
  }

  /** poll and ClaimPendingJobs: an idle worker takes a batch of claimable rows. Which of them
      is left open, so row locks, SKIP LOCKED and the creation order are all covered. */
  function ApplyClaim(s: State, w: Worker, batch: set<JobId>): State {
    if InFlight(s, w) == {} && |batch| <= s.maxConcurrent
       && forall j :: j in batch ==> j in s.jobs && Claimable(s.jobs[j], s.now)
    then ClaimedBy(s, w, batch) else s
  }

  predicate MayFail(phase: Phase) {
    phase == Claimed || phase == TextRead || phase.Building? || phase.Built? || phase.RowStored?
  }

  predicate Builds(work: WorkerStep) {
    work.CreateQuiz? || work.AddQuestion? || work.FinishBuild? || work.StoreRow? || work.StoreValkey?
  }

  function QuizStarted(s: State, k: Hold, q: QuizId, extract: bool): State
    requires k in s.runs
  {
    Goto(s.(quizzes := s.quizzes[q := Quiz(if extract then Draft else Published, extract, true, [])]), k, Building(q, extract))
  }

  function QuestionsAdded(s: State, q: QuizId, questions: seq<string>): State
    requires q in s.quizzes
  {
    s.(quizzes := s.quizzes[q := s.quizzes[q].(questions := s.quizzes[q].questions + questions)])
  }

  function QuizClosed(s: State, k: Hold, q: QuizId, extract: bool): State
    requires k in s.runs && q in s.quizzes
  {
    Goto(s.(quizzes := s.quizzes[q := s.quizzes[q].(open := false)]), k, Built(q, extract))
  }

  function RowWritten(s: State, k: Hold, q: QuizId, hash: Hash): State
    requires k in s.runs
  {
    Goto(s.(rows := s.rows[hash := q]), k, RowStored(q, hash))
  }

  /** persistQuiz: the quiz row, its questions, and the two cache tiers. */
  function ApplyBuild(s: State, k: Hold, work: WorkerStep): State
    requires k in s.runs && Builds(work)
  {
    var phase := s.runs[k].phase;
    match work
    case CreateQuiz(_, q, extract) => if phase == TextRead && q !in s.quizzes then QuizStarted(s, k, q, extract) else s
    case AddQuestion(_, question) =>
      if phase.Building? && phase.quiz in s.quizzes then QuestionsAdded(s, phase.quiz, [question]) else s
    case FinishBuild(_) =>
      if phase.Building? && phase.quiz in s.quizzes then QuizClosed(s, k, phase.quiz, phase.extract) else s
    case StoreRow(_, hash) => if phase.Built? && !phase.extract then RowWritten(s, k, phase.quiz, hash) else s
    case StoreValkey(_) => if phase.RowStored? then s.(valkey := s.valkey[phase.hash := phase.quiz]) else s
  }

  /** The status with which ProcessJob lets go of its job. */
  function LastStatus(work: WorkerStep, phase: Phase): Option<JobStatus> {
    match work
    case FailJob(_) => if MayFail(phase) then Some(Failed) else None
    case AskStrategy(_) => if phase == PipelineSaved then Some(NeedsStrategy) else None
    case RateLimited(_) => if phase == TextRead then Some(Pending) else None
    case FinishHit(_) => if phase.HitLinked? then Some(QuizReady) else None
    case FinishQuiz(_) => if phase.Linked? then Some(FinalStatus(phase.extract)) else None
    case _ => None
  }

  predicate Ends(work: WorkerStep) {
    work.FailJob? || work.AskStrategy? || work.RateLimited? || work.FinishHit? || work.FinishQuiz? || work.Stop?
  }

  function ApplyEnd(s: State, k: Hold, work: WorkerStep): State
    requires k in s.runs && k.1 in s.jobs
  {
    if work.Stop? then Release(s, k)
    else
      match LastStatus(work, s.runs[k].phase)
      case Some(status) => Release(WriteStatus(s, k.1, status), k)
      case None => s
  }

  /** What the holder of a job makes of its row, and where in the code it then is. */
  function Onward(s: State, k: Hold, work: WorkerStep): Option<(Job, Phase)>
    requires k in s.runs && k.1 in s.jobs
  {
    var job, phase := s.jobs[k.1], s.runs[k].phase;
    match work
    case BeginWork(_) =>
      if phase == Claimed && IsPending(job.status) then Some((job.(status := Processing, updatedAt := s.now), phase)) else None
    case FinishOCR(_) =>
      if phase == Claimed then Some((job.(status := OCRComplete, updatedAt := s.now), TextRead)) else None
    case SavePipeline(_, text) =>
      if phase == TextRead then Some((job.(pipeline := Some(text), updatedAt := s.now), PipelineSaved)) else None
    case CacheHit(_, hash, fromValkey) =>
      var tier := if fromValkey then s.valkey else s.rows;
      if phase == TextRead && hash in tier then Some((job, Hit(tier[hash]))) else None
    case LinkHit(_) =>
      if phase.Hit? then Some((job.(quiz := Some(phase.quiz), updatedAt := s.now), HitLinked(phase.quiz))) else None
    case LinkQuiz(_) =>
      if phase.Built? || phase.RowStored?
      then Some((job.(quiz := Some(phase.quiz), updatedAt := s.now), Linked(phase.quiz, phase.Built? && phase.extract))) else None
    case ClearPipeline(_) =>
      if phase.HitLinked? || phase.Linked? then Some((job.(pipeline := None, updatedAt := s.now), phase)) else None
    case _ => None
  }

  /** One statement of the holder of a job on its row. */
  function ApplyOn(s: State, k: Hold, work: WorkerStep): State
    requires k in s.runs && k.1 in s.jobs
  {
    match Onward(s, k, work)
    case Some((job, phase)) => s.(jobs := s.jobs[k.1 := job], runs := s.runs[k := s.runs[k].(phase := phase)])
    case None => s
  }

  function ApplyWork(s: State, k: Hold, work: WorkerStep): State
    requires k in s.runs && k.1 in s.jobs
  {
    if Builds(work) then ApplyBuild(s, k, work)
    else if Ends(work) then ApplyEnd(s, k, work)
    else ApplyOn(s, k, work)
  }

  // ---------------------------------------------------------------- user and admin steps

  /** The transaction of PublishDraft. */
  function Publish(s: State, q: QuizId, user: User): State
    requires q in s.quizzes
  {
    s.(quizzes := s.quizzes[q := s.quizzes[q].(status := Published)],
       jobs := map j | j in s.jobs ::
                 if s.jobs[j].quiz == Some(q) && s.jobs[j].owner == user
                 then s.jobs[j].(status := QuizReady, updatedAt := s.now) else s.jobs[j])
  }

  predicate OnDrafts(step: Step) {
    step.SaveCheck? || step.SaveCommit? || step.PublishCheck? || step.PublishCommit?
  }

  function ApplyDrafts(s: State, step: Step): State
    requires OnDrafts(step)
  {
    match step
    case SaveCheck(r, user, q, questions) =>
      if r !in s.saves && q in s.quizzes && OwnsQuiz(s, user, q) && s.quizzes[q].status == Draft
      then s.(saves := s.saves[r := (q, questions)]) else s
    case SaveCommit(r) =>
      if r in s.saves && s.saves[r].0 in s.quizzes
      then
        var (q, questions) := s.saves[r];
        s.(quizzes := s.quizzes[q := s.quizzes[q].(questions := questions)], saves := Without(s.saves, r))
      else s
    case PublishCheck(r, user, q) =>
      if r !in s.publishes && q in s.quizzes && OwnsQuiz(s, user, q) && s.quizzes[q].status == Draft
      then s.(publishes := s.publishes[r := (q, user)]) else s
    case PublishCommit(r) =>
      if r in s.publishes && s.publishes[r].0 in s.quizzes
      then Publish(s.(publishes := Without(s.publishes, r)), s.publishes[r].0, s.publishes[r].1)
      else s
  }

  predicate OnCache(step: Step) {
    step.CacheDrop? || step.RefillRead? || step.RefillWrite?
  }

  function ApplyCache(s: State, step: Step): State
    requires OnCache(step)
  {
    match step
    case CacheDrop(hash, fromRows) =>
      s.(rows := if fromRows then Without(s.rows, hash) else s.rows,
         valkey := if fromRows then s.valkey else Without(s.valkey, hash))
    case RefillRead(r, hash) =>
      if r !in s.refills && hash in s.rows then s.(refills := s.refills[r := (hash, s.rows[hash])]) else s
    case RefillWrite(r) =>
      if r in s.refills
      then s.(valkey := s.valkey[s.refills[r].0 := s.refills[r].1], refills := Without(s.refills, r)) else s
  }

  function ApplyJobs(s: State, step: Step): State
    requires !step.Work? && !OnDrafts(step) && !OnCache(step)
  {
    match step
    case Tick(d) => s.(now := s.now + d)
    case CreateJob(j, owner, text) =>
      if j !in s.jobs then s.(jobs := s.jobs[j := Job(owner, if text then Pending else Uploading, s.now, None, None)]) else s
    case UploadWake(j) => if j in s.jobs then WriteStatus(s, j, Pending) else s
    case AdminRetry(j) =>
      if j in s.jobs && s.jobs[j].status in {Failed, Processing} then WriteStatus(s, j, Pending) else s
    case StrategyCheck(r, user, j) =>
      if r !in s.strategies && j in s.jobs && s.jobs[j].owner == user && s.jobs[j].status == NeedsStrategy
      then s.(strategies := s.strategies[r := j]) else s
    case StrategyWrite(r) =>
      if r in s.strategies && s.strategies[r] in s.jobs
      then WriteStatus(s.(strategies := Without(s.strategies, r)), s.strategies[r], Pending) else s
  }

  function ApplyUser(s: State, step: Step): State
    requires !step.Work?
  {
    if OnDrafts(step) then ApplyDrafts(s, step)
    else if OnCache(step) then ApplyCache(s, step)
    else ApplyJobs(s, step)
  }

  /** The state after a step; a step that is not enabled changes nothing. */
  function Apply(s: State, step: Step): State {
    if !step.Work? then ApplyUser(s, step)
    else if step.work.Claim? then ApplyClaim(s, step.worker, step.work.batch)
    else
      var k := (step.worker, step.work.job);
      if k in s.runs && k.1 in s.jobs then ApplyWork(s, k, step.work) else s
  }

  function Run(s: State, steps: seq<Step>): State {
    if steps == [] then s else Apply(Run(s, steps[..|steps| - 1]), steps[|steps| - 1])
  }

  ghost predicate Initial(s: State) {
    && s.jobs == map[] && s.runs == map[] && s.quizzes == map[] && s.rows == map[] && s.valkey == map[]
    && s.saves == map[] && s.publishes == map[] && s.strategies == map[] && s.refills == map[]
  }

  lemma RunAppend(s: State, steps: seq<Step>, more: seq<Step>)
    ensures Run(s, steps + more) == Run(Run(s, steps), more)
    decreases |more|
  {
    if more == [] {
      assert steps + more == steps;
    } else {
      assert (steps + more)[..|steps + more| - 1] == steps + more[..|more| - 1];
      RunAppend(s, steps, more[..|more| - 1]);
    }
  }
}
