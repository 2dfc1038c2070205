/** The claim lease: when at most one worker holds a job, and what then ties a job's status to
    its quiz and its saved text. */
module ScanLease {
  import opened Common
  import opened ScanModel
  import opened ScanLifecycle
  import opened ScanBatches
  import opened ScanReferences

  /** No job is held by two workers. */
  ghost predicate Exclusive(runs: map<Hold, Attempt>) {
    forall k, k' :: k in runs && k' in runs && k.1 == k'.1 ==> k == k'
  }

  ghost predicate Held(runs: map<Hold, Attempt>, j: JobId) {
    exists k :: k in runs && k.1 == j
  }

  /** What the row of a held job looks like. */
  ghost predicate HeldOk(job: Job, a: Attempt) {
    match a.phase
    case Claimed => job.status == Processing && job.updatedAt >= a.claimedAt && job.quiz == None
    case PipelineSaved => job.status == OCRComplete && job.quiz == None && job.pipeline.Some?
    case HitLinked(q) => (job.status == OCRComplete || job.status == QuizReady) && job.quiz == Some(q)
    case Linked(q, _) => (job.status == OCRComplete || job.status == QuizReady) && job.quiz == Some(q)
    case _ => job.status == OCRComplete && job.quiz == None
  }

  ghost predicate HoldsOk(jobs: map<JobId, Job>, runs: map<Hold, Attempt>) {
    forall k :: k in runs ==> k.1 in jobs && HeldOk(jobs[k.1], runs[k])
  }

  /** A ready job has a published quiz; a job waiting for a strategy has its text saved. */
  ghost predicate JobOk(quizzes: map<QuizId, Quiz>, job: Job) {
    && (job.quiz.Some? ==> job.status == OCRComplete || job.status == ReviewReady || job.status == QuizReady)
    && (job.status == ReviewReady || job.status == QuizReady ==> job.quiz.Some?)
    && (job.status == QuizReady ==> job.quiz.value in quizzes && quizzes[job.quiz.value].status == Published)
    && (job.status == NeedsStrategy ==> job.pipeline.Some?)
  }

  ghost predicate JobsOk(quizzes: map<QuizId, Quiz>, jobs: map<JobId, Job>) {
    forall j :: j in jobs ==> JobOk(quizzes, jobs[j])
  }

  ghost predicate LeaseOk(s: State) {
    HoldsOk(s.jobs, s.runs) && Exclusive(s.runs) && JobsOk(s.quizzes, s.jobs)
  }

  /** Every worker has made its first status write within the lease. */
  ghost predicate Prompt(s: State) {
    forall k :: k in s.runs && s.runs[k].phase == Claimed ==> s.now - s.runs[k].claimedAt <= LEASE
  }

  /** What the environment must respect for the lease to work: requeueing writes find the job
      in the status they were meant for, and no claim happens while a first write is overdue. */
  ghost predicate Careful(s: State, step: Step) {
    match step
    case UploadWake(j) => j in s.jobs ==> s.jobs[j].status == Uploading
    case AdminRetry(j) => j in s.jobs ==> s.jobs[j].status != Processing
    case StrategyWrite(r) => r in s.strategies && s.strategies[r] in s.jobs ==> s.jobs[s.strategies[r]].status == NeedsStrategy
    case Work(_, work) => work.Claim? ==> Prompt(s)
    case _ => true
  }

  // ---------------------------------------------------------------- single writes

  /** The holder of a job rewrites its row and moves on. */
  lemma HolderWrites(quizzes: map<QuizId, Quiz>, jobs: map<JobId, Job>, runs: map<Hold, Attempt>, k: Hold, job: Job, phase: Phase)
    requires HoldsOk(jobs, runs) && Exclusive(runs) && JobsOk(quizzes, jobs) && k in runs
    requires HeldOk(job, runs[k].(phase := phase)) && JobOk(quizzes, job)
    ensures HoldsOk(jobs[k.1 := job], runs[k := runs[k].(phase := phase)])
    ensures Exclusive(runs[k := runs[k].(phase := phase)])
    ensures JobsOk(quizzes, jobs[k.1 := job])
  {
  }

  /** The holder of a job rewrites its row and is done with it. */
  lemma HolderEnds(quizzes: map<QuizId, Quiz>, jobs: map<JobId, Job>, runs: map<Hold, Attempt>, k: Hold, job: Job)
    requires HoldsOk(jobs, runs) && Exclusive(runs) && JobsOk(quizzes, jobs) && k in runs && JobOk(quizzes, job)
    ensures HoldsOk(jobs[k.1 := job], Without(runs, k)) && Exclusive(Without(runs, k))
    ensures JobsOk(quizzes, jobs[k.1 := job])
  {
  }

  /** Someone else rewrites the row of a job nobody holds. */
  lemma FreeRowWritten(quizzes: map<QuizId, Quiz>, jobs: map<JobId, Job>, runs: map<Hold, Attempt>, j: JobId, job: Job)
    requires HoldsOk(jobs, runs) && JobsOk(quizzes, jobs) && !Held(runs, j) && JobOk(quizzes, job)
    ensures HoldsOk(jobs[j := job], runs) && JobsOk(quizzes, jobs[j := job])
  {
  }

  lemma PersistKeepsJobs(before: map<QuizId, Quiz>, after: map<QuizId, Quiz>, jobs: map<JobId, Job>)
    requires JobsOk(before, jobs) && Persist(before, after)
    ensures JobsOk(after, jobs)
  {
    forall j | j in jobs
      ensures JobOk(after, jobs[j])
    {
      assert JobOk(before, jobs[j]);
      assert jobs[j].quiz.Some? && jobs[j].quiz.value in before ==> jobs[j].quiz.value in after;
    }
  }

  // ---------------------------------------------------------------- worker steps

  lemma LeaseEnds(s: State, k: Hold, status: JobStatus)
    requires LeaseOk(s) && k in s.runs && JobOk(s.quizzes, s.jobs[k.1].(status := status))
    ensures LeaseOk(Release(WriteStatus(s, k.1, status), k))
  {
    HolderEnds(s.quizzes, s.jobs, s.runs, k, s.jobs[k.1].(status := status, updatedAt := s.now));
  }

  lemma LeaseStops(s: State, k: Hold)
    requires LeaseOk(s) && k in s.runs
    ensures LeaseOk(Release(s, k))
  {
    HolderEnds(s.quizzes, s.jobs, s.runs, k, s.jobs[k.1]);
    assert s.jobs[k.1 := s.jobs[k.1]] == s.jobs;
  }

  /** Every status with which ProcessJob ends fits what the job then shows. */
  lemma LastStatusOk(s: State, k: Hold, work: WorkerStep, status: JobStatus)
    requires LeaseOk(s) && k in s.runs && QuizKinds(s.quizzes) && PhaseRefs(s.quizzes, s.runs[k].phase)
    requires LastStatus(work, s.runs[k].phase) == Some(status)
    ensures JobOk(s.quizzes, s.jobs[k.1].(status := status))
  {
    assert HeldOk(s.jobs[k.1], s.runs[k]);
  }

  lemma LeaseEnd(s: State, k: Hold, work: WorkerStep)
    requires LeaseOk(s) && k in s.runs && QuizKinds(s.quizzes) && PhaseRefs(s.quizzes, s.runs[k].phase)
    ensures LeaseOk(ApplyEnd(s, k, work))
  {
    assert HeldOk(s.jobs[k.1], s.runs[k]);
    LeaseStops(s, k);
    match LastStatus(work, s.runs[k].phase)
    case Some(status) =>
      LastStatusOk(s, k, work, status);
      LeaseEnds(s, k, status);
    case None =>
  }

  lemma OnwardOk(s: State, k: Hold, work: WorkerStep, job: Job, phase: Phase)
    requires LeaseOk(s) && k in s.runs && Onward(s, k, work) == Some((job, phase))
    ensures HeldOk(job, s.runs[k].(phase := phase)) && JobOk(s.quizzes, job)
  {
    assert HeldOk(s.jobs[k.1], s.runs[k]) && JobOk(s.quizzes, s.jobs[k.1]);
  }

  lemma LeaseOn(s: State, k: Hold, work: WorkerStep)
    requires LeaseOk(s) && k in s.runs
    ensures LeaseOk(ApplyOn(s, k, work))
  {
    match Onward(s, k, work)
    case Some((job, phase)) =>
      OnwardOk(s, k, work, job, phase);
      HolderWrites(s.quizzes, s.jobs, s.runs, k, job, phase);
    case None =>
  }

  /** Changes inside the quizzes, with the holder moving on and its row untouched. */
  lemma LeaseKeepsRow(s: State, k: Hold, quizzes: map<QuizId, Quiz>, phase: Phase)
    requires LeaseOk(s) && k in s.runs && Persist(s.quizzes, quizzes)
    requires HeldOk(s.jobs[k.1], s.runs[k].(phase := phase))
    ensures LeaseOk(Goto(s.(quizzes := quizzes), k, phase))
  {
    PersistKeepsJobs(s.quizzes, quizzes, s.jobs);
    HolderWrites(quizzes, s.jobs, s.runs, k, s.jobs[k.1], phase);
    assert s.jobs[k.1 := s.jobs[k.1]] == s.jobs;
  }

  lemma LeaseQuizSteps(s: State, k: Hold, work: WorkerStep)
    requires LeaseOk(s) && k in s.runs && (work.CreateQuiz? || work.AddQuestion?)
    requires PhaseRefs(s.quizzes, s.runs[k].phase)
    ensures LeaseOk(ApplyBuild(s, k, work))
  {
    var phase := s.runs[k].phase;
    assert HeldOk(s.jobs[k.1], s.runs[k]);
    match work
    case CreateQuiz(_, q, extract) =>
      if phase == TextRead && q !in s.quizzes {
        LeaseKeepsRow(s, k, s.quizzes[q := Quiz(if extract then Draft else Published, extract, true, [])], Building(q, extract));
      }
    case AddQuestion(_, question) =>
      if phase.Building? {
        var q := phase.quiz;
        PersistKeepsJobs(s.quizzes, s.quizzes[q := s.quizzes[q].(questions := s.quizzes[q].questions + [question])], s.jobs);
      }
  }

  lemma LeaseFinishBuild(s: State, k: Hold, job: JobId)
    requires LeaseOk(s) && k in s.runs && PhaseRefs(s.quizzes, s.runs[k].phase)
    ensures LeaseOk(ApplyBuild(s, k, FinishBuild(job)))
  {
    var phase := s.runs[k].phase;
    assert HeldOk(s.jobs[k.1], s.runs[k]);
    if phase.Building? {
      var q := phase.quiz;
      LeaseKeepsRow(s, k, s.quizzes[q := s.quizzes[q].(open := false)], Built(q, phase.extract));
    }
  }

  lemma LeaseRowWritten(s: State, k: Hold, q: QuizId, hash: Hash)
    requires LeaseOk(s) && k in s.runs && HeldOk(s.jobs[k.1], s.runs[k].(phase := RowStored(q, hash)))
    ensures LeaseOk(RowWritten(s, k, q, hash))
  {
    HolderWrites(s.quizzes, s.jobs, s.runs, k, s.jobs[k.1], RowStored(q, hash));
    assert s.jobs[k.1 := s.jobs[k.1]] == s.jobs;
  }

  lemma LeaseStoreSteps(s: State, k: Hold, work: WorkerStep)
    requires LeaseOk(s) && k in s.runs && (work.StoreRow? || work.StoreValkey?)
    ensures LeaseOk(ApplyBuild(s, k, work))
  {
    var phase := s.runs[k].phase;
    assert HeldOk(s.jobs[k.1], s.runs[k]);
    if work.StoreRow? && phase.Built? && !phase.extract {
      LeaseRowWritten(s, k, phase.quiz, work.hash);
    }
  }

  lemma LeaseWork(s: State, k: Hold, work: WorkerStep)
    requires RefsOk(s) && LeaseOk(s) && k in s.runs && !work.Claim?
    ensures LeaseOk(ApplyWork(s, k, work))
  {
    assert PhaseRefs(s.quizzes, s.runs[k].phase);
    if work.FinishBuild? {
      LeaseFinishBuild(s, k, work.job);
    } else if work.StoreRow? || work.StoreValkey? {
      LeaseStoreSteps(s, k, work);
    } else if Builds(work) {
      LeaseQuizSteps(s, k, work);
    } else if Ends(work) {
      LeaseEnd(s, k, work);
    } else {
      LeaseOn(s, k, work);
    }
  }

  // ---------------------------------------------------------------- claims

  /** A claimed row in the order of ClaimPendingJobs is held by nobody, unless its holder's
      first status write is overdue. */
  lemma ClaimableIsFree(s: State, j: JobId)
    requires LeaseOk(s) && Prompt(s) && j in s.jobs && Claimable(s.jobs[j], s.now)
    ensures !Held(s.runs, j)
  {
    forall k | k in s.runs
      ensures k.1 != j
    {
      assert HeldOk(s.jobs[k.1], s.runs[k]);
    }
  }

  lemma LeaseClaim(s: State, w: Worker, batch: set<JobId>)
    requires RefsOk(s) && LeaseOk(s) && Prompt(s)
    ensures LeaseOk(ApplyClaim(s, w, batch))
  {
    var t := ApplyClaim(s, w, batch);
    if t != s {
      forall j | j in batch
        ensures !Held(s.runs, j) && JobOk(s.quizzes, t.jobs[j]) && s.jobs[j].quiz == None
      {
        ClaimableIsFree(s, j);
        assert JobOk(s.quizzes, s.jobs[j]);
      }
      ClaimedRows(s, t, w, batch);
    }
  }

  lemma ClaimedRows(s: State, t: State, w: Worker, batch: set<JobId>)
    requires LeaseOk(s) && t == ApplyClaim(s, w, batch) && t != s
    requires forall j :: j in batch ==> !Held(s.runs, j) && JobOk(s.quizzes, t.jobs[j]) && s.jobs[j].quiz == None
    ensures LeaseOk(t)
  {
    forall k | k in t.runs
      ensures k.1 in t.jobs && HeldOk(t.jobs[k.1], t.runs[k])
    {
      if k in s.runs {
        assert HeldOk(s.jobs[k.1], s.runs[k]) && Held(s.runs, k.1);
      }
    }
    forall k, k' | k in t.runs && k' in t.runs && k.1 == k'.1
      ensures k == k'
    {
      if k in s.runs { assert Held(s.runs, k.1); }
      if k' in s.runs { assert Held(s.runs, k.1); }
    }
    assert JobsOk(t.quizzes, t.jobs);
  }

  // ---------------------------------------------------------------- other writers

  lemma LeaseRequeue(s: State, j: JobId)
    requires LeaseOk(s) && j in s.jobs && !Held(s.runs, j) && s.jobs[j].quiz == None
    ensures LeaseOk(WriteStatus(s, j, Pending))
  {
    assert JobOk(s.quizzes, s.jobs[j]);
    FreeRowWritten(s.quizzes, s.jobs, s.runs, j, s.jobs[j].(status := Pending, updatedAt := s.now));
  }

  /** In every status in which a requeueing write is meant, nobody holds the job. */
  lemma MeantStatusIsFree(s: State, j: JobId)
    requires LeaseOk(s) && j in s.jobs
    requires s.jobs[j].status == Uploading || s.jobs[j].status == NeedsStrategy || s.jobs[j].status == Failed
    ensures !Held(s.runs, j) && s.jobs[j].quiz == None
  {
    assert JobOk(s.quizzes, s.jobs[j]);
    forall k | k in s.runs
      ensures k.1 != j
    {
      assert HeldOk(s.jobs[k.1], s.runs[k]);
    }
  }

  lemma LeaseJobs(s: State, step: Step)
    requires RefsOk(s) && LeaseOk(s) && !step.Work? && Careful(s, step)
    requires !OnDrafts(step) && !OnCache(step) && !step.CreateJob?
    ensures LeaseOk(ApplyJobs(s, step))
  {
    match step
    case UploadWake(j) => if j in s.jobs { MeantStatusIsFree(s, j); LeaseRequeue(s, j); }
    case AdminRetry(j) => if j in s.jobs && s.jobs[j].status == Failed { MeantStatusIsFree(s, j); LeaseRequeue(s, j); }
    case StrategyWrite(r) =>
      if r in s.strategies && s.strategies[r] in s.jobs {
        MeantStatusIsFree(s, s.strategies[r]);
        LeaseRequeue(s, s.strategies[r]);
      }
    case _ =>
  }

  lemma LeaseDrafts(s: State, step: Step)
    requires LeaseOk(s) && OnDrafts(step)
    ensures LeaseOk(ApplyDrafts(s, step))
  {
    match step
    case SaveCommit(r) => if r in s.saves && s.saves[r].0 in s.quizzes { LeaseSave(s, s.saves[r].0, s.saves[r].1); }
    case PublishCommit(r) =>
      if r in s.publishes && s.publishes[r].0 in s.quizzes { LeasePublish(s, s.publishes[r].0, s.publishes[r].1); }
    case _ =>
  }

  lemma LeaseCache(s: State, step: Step)
    requires LeaseOk(s) && OnCache(step)
    ensures LeaseOk(ApplyCache(s, step))
  {
  }

  lemma LeaseSave(s: State, q: QuizId, questions: seq<string>)
    requires LeaseOk(s) && q in s.quizzes
    ensures LeaseOk(s.(quizzes := s.quizzes[q := s.quizzes[q].(questions := questions)]))
  {
    PersistKeepsJobs(s.quizzes, s.quizzes[q := s.quizzes[q].(questions := questions)], s.jobs);
  }

  lemma LeaseCreate(s: State, j: JobId, owner: User, text: bool)
    requires RefsOk(s) && LeaseOk(s) && j !in s.jobs
    ensures LeaseOk(ApplyUser(s, CreateJob(j, owner, text)))
  {
    FreeRowWritten(s.quizzes, s.jobs, s.runs, j, Job(owner, if text then Pending else Uploading, s.now, None, None));
  }

  /** Publishing moves every job of the quiz to quiz_ready, also one whose worker has linked
      the quiz and not yet written its final status. */
  lemma LeasePublish(s: State, q: QuizId, user: User)
    requires LeaseOk(s) && q in s.quizzes
    ensures LeaseOk(Publish(s, q, user))
  {
    var t := Publish(s, q, user);
    PersistKeepsJobs(s.quizzes, t.quizzes, s.jobs);
    forall j | j in t.jobs
      ensures JobOk(t.quizzes, t.jobs[j])
    {
      assert JobOk(t.quizzes, s.jobs[j]);
    }
    forall k | k in t.runs
      ensures k.1 in t.jobs && HeldOk(t.jobs[k.1], t.runs[k])
    {
      assert HeldOk(s.jobs[k.1], s.runs[k]);
    }
  }

  lemma LeaseStep(s: State, step: Step)
    requires RefsOk(s) && LeaseOk(s) && Careful(s, step)
    ensures LeaseOk(Apply(s, step))
  {
    if step.Work? {
      if step.work.Claim? {
        LeaseClaim(s, step.worker, step.work.batch);
      } else if (step.worker, step.work.job) in s.runs {
        LeaseWork(s, (step.worker, step.work.job), step.work);
      }
    } else if OnDrafts(step) {
      LeaseDrafts(s, step);
    } else if OnCache(step) {
      LeaseCache(s, step);
    } else if step.CreateJob? {
      if step.newJob !in s.jobs { LeaseCreate(s, step.newJob, step.owner, step.text); }
    } else {
      LeaseJobs(s, step);
    }
  }

  // ---------------------------------------------------------------- main results

  ghost predicate CarefulRun(s: State, steps: seq<Step>) {
    steps == [] ||
    (CarefulRun(s, steps[..|steps| - 1]) && Careful(Run(s, steps[..|steps| - 1]), steps[|steps| - 1]))
  }

  lemma {:induction false} LeaseHoldsInCarefulRuns(s: State, steps: seq<Step>)
    requires Initial(s) && CarefulRun(s, steps)
    ensures RefsOk(Run(s, steps)) && LeaseOk(Run(s, steps))
  {
    RefsHoldInEveryRun(s, steps);
    if steps != [] {
      RefsHoldInEveryRun(s, steps[..|steps| - 1]);
      LeaseHoldsInCarefulRuns(s, steps[..|steps| - 1]);
      LeaseStep(Run(s, steps[..|steps| - 1]), steps[|steps| - 1]);
    }
  }

  /** Mutual exclusion: with any number of workers, no job is ever held by two. */
  lemma NoJobHeldTwice(s: State, steps: seq<Step>, w: Worker, w': Worker, j: JobId)
    requires Initial(s) && CarefulRun(s, steps)
    requires (w, j) in Run(s, steps).runs && (w', j) in Run(s, steps).runs
    ensures w == w'
  {
    LeaseHoldsInCarefulRuns(s, steps);
  }

  /** A quiz_ready job shows a published, completely written quiz, a review_ready job a
      completely written one, and a job waiting for a strategy has its text. */
  lemma ReadyJobsAreReady(s: State, steps: seq<Step>, j: JobId)
    requires Initial(s) && CarefulRun(s, steps) && j in Run(s, steps).jobs
    ensures var t := Run(s, steps);
            var job := t.jobs[j];
            && (job.status == QuizReady ==> job.quiz.Some? && Complete(t.quizzes, job.quiz.value)
                                            && t.quizzes[job.quiz.value].status == Published)
            && (job.status == ReviewReady ==> job.quiz.Some? && Complete(t.quizzes, job.quiz.value))
            && (job.status == NeedsStrategy ==> job.pipeline.Some?)
  {
    LeaseHoldsInCarefulRuns(s, steps);
    assert JobOk(Run(s, steps).quizzes, Run(s, steps).jobs[j]);
  }

  /** Adding holds of a worker that has none doubles a job iff one of the jobs was held. */
  lemma NewHoldsDoubleIff(runs: map<Hold, Attempt>, more: map<Hold, Attempt>, w: Worker, batch: set<JobId>)
    requires Exclusive(runs) && (forall k :: k in runs ==> k.0 != w)
    requires forall k :: k in more <==> k in runs || (k.0 == w && k.1 in batch)
    ensures !Exclusive(more) <==> exists j :: j in batch && Held(runs, j)
  {
    if j :| j in batch && Held(runs, j) {
      var k :| k in runs && k.1 == j;
      assert k in more && (w, j) in more;
    }
    if !Exclusive(more) {
      var k, k' :| k in more && k' in more && k.1 == k'.1 && k != k';
      assert Held(runs, k.1);
    }
  }

  lemma ClaimedHolds(s: State, w: Worker, batch: set<JobId>)
    requires ApplyClaim(s, w, batch) != s
    ensures forall k :: k in s.runs ==> k.0 != w
    ensures forall k :: k in ApplyClaim(s, w, batch).runs <==> k in s.runs || (k.0 == w && k.1 in batch)
    ensures forall j :: j in batch ==> j in s.jobs && Claimable(s.jobs[j], s.now)
  {
    assert InFlight(s, w) == {};
    forall k | k in s.runs
      ensures k.0 != w
    {
      assert k.0 == w ==> k in InFlight(s, w);
    }
  }

  predicate Stale(job: Job, now: int) {
    job.status == Processing && job.updatedAt < now - LEASE
  }

  /** A claim hands out a job twice iff its batch contains a stale row whose worker is still
      running. */
  lemma ClaimDoublesIff(s: State, w: Worker, batch: set<JobId>)
    requires RefsOk(s) && LeaseOk(s) && ApplyClaim(s, w, batch) != s
    ensures !Exclusive(ApplyClaim(s, w, batch).runs) <==>
              exists j :: j in batch && j in s.jobs && Stale(s.jobs[j], s.now) && Held(s.runs, j)
  {
    ClaimedHolds(s, w, batch);
    NewHoldsDoubleIff(s.runs, ApplyClaim(s, w, batch).runs, w, batch);
    forall j | j in batch && Held(s.runs, j)
      ensures Stale(s.jobs[j], s.now)
    {
      var k :| k in s.runs && k.1 == j;
      assert HeldOk(s.jobs[j], s.runs[k]);
    }
  }

  /** The exact condition for an idle worker, by the rows: some claim it could make hands out a
      job twice iff the row of a job that somebody holds is stale. */
  lemma ClaimCanDoubleIff(s: State, w: Worker)
    requires RefsOk(s) && LeaseOk(s) && InFlight(s, w) == {} && s.maxConcurrent > 0
    ensures (exists batch :: !Exclusive(ApplyClaim(s, w, batch).runs)) <==>
              exists j :: j in s.jobs && Stale(s.jobs[j], s.now) && Held(s.runs, j)
  {
    if batch :| !Exclusive(ApplyClaim(s, w, batch).runs) {
      ClaimDoublesIff(s, w, batch);
    }
    if j :| j in s.jobs && Stale(s.jobs[j], s.now) && Held(s.runs, j) {
      IdleWorkerGets(s, w, j);
      ClaimDoublesIff(s, w, {j});
      assert j in {j};
    }
  }

  lemma IdleWorkerGets(s: State, w: Worker, j: JobId)
    requires InFlight(s, w) == {} && s.maxConcurrent > 0 && j in s.jobs && Claimable(s.jobs[j], s.now)
    ensures (w, j) in ApplyClaim(s, w, {j}).runs && (w, j) !in s.runs
  {
    assert (w, j) in Holds(w, {j});
    assert (w, j) in s.runs ==> (w, j) in InFlight(s, w);
  }

  /** The exact condition for a requeueing write (a late upload handler, a second strategy
      choice, an administrator): from then on an idle worker can take the job, and that makes
      two holders iff somebody was holding it at the write. */
  lemma RequeueDoublesIff(s: State, j: JobId, w: Worker)
    requires RefsOk(s) && LeaseOk(s) && j in s.jobs && s.maxConcurrent > 0 && InFlight(s, w) == {}
    ensures var t := ApplyClaim(WriteStatus(s, j, Pending), w, {j});
            && (w, j) in t.runs
            && (!Exclusive(t.runs) <==> Held(s.runs, j))
  {
    var u := WriteStatus(s, j, Pending);
    var t := ApplyClaim(u, w, {j});
    assert InFlight(u, w) == {};
    IdleWorkerGets(u, w, j);
    ClaimedHolds(u, w, {j});
    NewHoldsDoubleIff(s.runs, t.runs, w, {j});
    assert j in {j};
  }

  /** A job left in ocr_complete by a worker that is gone. */
  ghost predicate Abandoned(s: State, j: JobId) {
    && j in s.jobs && s.jobs[j].status == OCRComplete && s.jobs[j].quiz == None && !Held(s.runs, j)
    && forall r :: r in s.strategies ==> s.strategies[r] != j
  }

  /** A worker that dies after writing ocr_complete leaves its job there for good: no claim,
      no administrator's retry and no publication touches it; only a late upload write would. */
  lemma {:induction false} OCRCompleteIsNeverReclaimed(s: State, steps: seq<Step>, j: JobId)
    requires Abandoned(s, j)
    requires forall i :: 0 <= i < |steps| ==> steps[i] != UploadWake(j)
    ensures Abandoned(Run(s, steps), j) && Run(s, steps).jobs[j] == s.jobs[j]
  {
    if steps != [] {
      OCRCompleteIsNeverReclaimed(s, steps[..|steps| - 1], j);
      AbandonedStep(Run(s, steps[..|steps| - 1]), steps[|steps| - 1], j);
    }
  }

  /** A worker rewrites no row but its own job's, and no request. */
  lemma WorkersFrame(s: State, k: Hold, work: WorkerStep, j: JobId)
    requires k in s.runs && k.1 in s.jobs
    ensures ApplyWork(s, k, work).strategies == s.strategies
    ensures k.1 != j && j in s.jobs ==> j in ApplyWork(s, k, work).jobs && ApplyWork(s, k, work).jobs[j] == s.jobs[j]
  {
    if Builds(work) {
      BuildFrame(s, k, work);
    } else if Ends(work) {
      EndFrame(s, k, work, j);
    } else {
      OnFrame(s, k, work, j);
    }
  }

  lemma BuildFrame(s: State, k: Hold, work: WorkerStep)
    requires k in s.runs && Builds(work)
    ensures ApplyBuild(s, k, work).strategies == s.strategies && ApplyBuild(s, k, work).jobs == s.jobs
  {
  }

  lemma EndFrame(s: State, k: Hold, work: WorkerStep, j: JobId)
    requires k in s.runs && k.1 in s.jobs
    ensures ApplyEnd(s, k, work).strategies == s.strategies
    ensures k.1 != j && j in s.jobs ==> j in ApplyEnd(s, k, work).jobs && ApplyEnd(s, k, work).jobs[j] == s.jobs[j]
  {
  }

  lemma OnFrame(s: State, k: Hold, work: WorkerStep, j: JobId)
    requires k in s.runs && k.1 in s.jobs
    ensures ApplyOn(s, k, work).strategies == s.strategies
    ensures k.1 != j && j in s.jobs ==> j in ApplyOn(s, k, work).jobs && ApplyOn(s, k, work).jobs[j] == s.jobs[j]
  {
  }

  lemma AbandonedRow(s: State, step: Step, j: JobId)
    requires !step.Work? && step != UploadWake(j)
    requires j in s.jobs && s.jobs[j].status == OCRComplete && s.jobs[j].quiz == None
    requires forall r :: r in s.strategies ==> s.strategies[r] != j
    ensures j in ApplyUser(s, step).jobs && ApplyUser(s, step).jobs[j] == s.jobs[j]
  {
  }

  lemma NobodyAsksAgain(s: State, step: Step, j: JobId)
    requires !step.Work? && j in s.jobs && s.jobs[j].status == OCRComplete
    requires forall r :: r in s.strategies ==> s.strategies[r] != j
    ensures ApplyUser(s, step).runs == s.runs
    ensures forall r :: r in ApplyUser(s, step).strategies ==> ApplyUser(s, step).strategies[r] != j
  {
  }

  lemma AbandonedClaim(s: State, w: Worker, batch: set<JobId>, j: JobId)
    requires Abandoned(s, j)
    ensures Abandoned(ApplyClaim(s, w, batch), j) && ApplyClaim(s, w, batch).jobs[j] == s.jobs[j]
  {
    if ApplyClaim(s, w, batch) != s { ClaimedHolds(s, w, batch); }
  }

  lemma AbandonedStep(s: State, step: Step, j: JobId)
    requires Abandoned(s, j) && step != UploadWake(j)
    ensures Abandoned(Apply(s, step), j) && Apply(s, step).jobs[j] == s.jobs[j]
  {
    if !step.Work? {
      AbandonedRow(s, step, j);
      NobodyAsksAgain(s, step, j);
    } else if step.work.Claim? {
      AbandonedClaim(s, step.worker, step.work.batch, j);
    } else {
      var k := (step.worker, step.work.job);
      assert k in s.runs ==> Held(s.runs, k.1);
      if k in s.runs && k.1 in s.jobs {
        WorkersFrame(s, k, step.work, j);
        WorkersKeepHolds(s, k, step.work);
      }
    }
  }
}
