/** What a scan job tells its owner about a question-scan exam: `review_ready` while the exam is
    a draft and `quiz_ready` once it is published (scan/worker.go:292-326,
    quiz/review.go:180-239), and when the worker and a publication make it say something else. */
module ScanReviews {
  import opened Common
  import opened ScanModel
  import opened ScanLifecycle
  import opened ScanReferences
  import opened ScanBatches
  import opened ScanLease

  // ---------------------------------------------------------------- what single steps do

  /** The row of a job after its owner, or somebody else, published a quiz. */
  predicate RowAfterPublication(before: Job, after: Job, q: QuizId, user: User, now: int) {
    if before.quiz == Some(q) && before.owner == user
    then after == Job(user, QuizReady, now, Some(q), before.pipeline)
    else after == before
  }

  /** A publication marks the quiz and moves the jobs its user has for it, and nothing else. */
  lemma PublicationEffects(s: State, r: Request)
    requires r in s.publishes && s.publishes[r].0 in s.quizzes
    ensures var (q, user) := s.publishes[r];
            var t := Apply(s, PublishCommit(r));
            && t.quizzes.Keys == s.quizzes.Keys && t.jobs.Keys == s.jobs.Keys
            && (forall z :: z in s.quizzes && z != q ==> t.quizzes[z] == s.quizzes[z])
            && t.quizzes[q] == Quiz(Published, s.quizzes[q].extracted, s.quizzes[q].open, s.quizzes[q].questions)
            && (forall j :: j in s.jobs ==> RowAfterPublication(s.jobs[j], t.jobs[j], q, user, s.now))
            && t.runs == s.runs && t.rows == s.rows && t.valkey == s.valkey && t.saves == s.saves
            && t.publishes.Keys == s.publishes.Keys - {r}
  {
  }

  predicate Commits(s: State, step: Step, q: QuizId) {
    step.PublishCommit? && step.request in s.publishes && s.publishes[step.request].0 == q
  }

  /** The step is one of a worker on a job it holds. */
  predicate IsWork(s: State, step: Step) {
    step.Work? && !step.work.Claim? && (step.worker, step.work.job) in s.runs
  }

  function Holder(step: Step): Hold
    requires step.Work? && !step.work.Claim?
  {
    (step.worker, step.work.job)
  }

  predicate LinksAt(phase: Phase, work: WorkerStep) {
    (work.LinkHit? && phase.Hit?) || (work.LinkQuiz? && (phase.Built? || phase.RowStored?))
  }

  predicate FinishesAt(phase: Phase, work: WorkerStep) {
    work.FinishQuiz? && phase.Linked? && phase.extract
  }

  predicate Linking(s: State, step: Step) {
    IsWork(s, step) && LinksAt(s.runs[Holder(step)].phase, step.work)
  }

  /** What a step of the holder in that phase may do to the row of its job. */
  predicate RowMoves(before: Job, after: Job, phase: Phase, work: WorkerStep) {
    && after.owner == before.owner
    && (after.quiz != before.quiz ==> LinksAt(phase, work) && after.quiz == Some(phase.quiz))
    && (after.status == ReviewReady ==> before.status == ReviewReady || FinishesAt(phase, work))
  }

  lemma OnwardRow(s: State, k: Hold, work: WorkerStep, job: Job, phase: Phase)
    requires k in s.runs && k.1 in s.jobs && Onward(s, k, work) == Some((job, phase))
    ensures RowMoves(s.jobs[k.1], job, s.runs[k].phase, work)
  {
  }

  lemma OnRow(s: State, k: Hold, work: WorkerStep)
    requires k in s.runs && k.1 in s.jobs
    ensures ApplyOn(s, k, work).jobs == s.jobs[k.1 := ApplyOn(s, k, work).jobs[k.1]]
    ensures RowMoves(s.jobs[k.1], ApplyOn(s, k, work).jobs[k.1], s.runs[k].phase, work)
  {
    match Onward(s, k, work)
    case Some((job, phase)) => OnwardRow(s, k, work, job, phase);
    case None => assert s.jobs[k.1 := s.jobs[k.1]] == s.jobs;
  }

  lemma OnlyFinishingReviews(work: WorkerStep, phase: Phase)
    ensures LastStatus(work, phase) == Some(ReviewReady) ==> FinishesAt(phase, work)
  {
  }

  lemma EndOnRow(s: State, k: Hold, work: WorkerStep)
    requires k in s.runs && k.1 in s.jobs
    ensures ApplyEnd(s, k, work).jobs == s.jobs[k.1 := ApplyEnd(s, k, work).jobs[k.1]]
    ensures RowMoves(s.jobs[k.1], ApplyEnd(s, k, work).jobs[k.1], s.runs[k].phase, work)
  {
    OnlyFinishingReviews(work, s.runs[k].phase);
    var last := LastStatus(work, s.runs[k].phase);
    if !work.Stop? && last.Some? {
      assert ApplyEnd(s, k, work) == Release(WriteStatus(s, k.1, last.value), k);
    } else {
      assert s.jobs[k.1 := s.jobs[k.1]] == s.jobs;
      assert ApplyEnd(s, k, work).jobs == s.jobs;
    }
  }

  lemma BuildOnRow(s: State, k: Hold, work: WorkerStep)
    requires k in s.runs && Builds(work)
    ensures ApplyBuild(s, k, work).jobs == s.jobs
  {
  }

  lemma WorkOnJob(s: State, k: Hold, work: WorkerStep)
    requires k in s.runs && k.1 in s.jobs
    ensures k.1 in ApplyWork(s, k, work).jobs && ApplyWork(s, k, work).jobs == s.jobs[k.1 := ApplyWork(s, k, work).jobs[k.1]]
    ensures RowMoves(s.jobs[k.1], ApplyWork(s, k, work).jobs[k.1], s.runs[k].phase, work)
  {
    if Builds(work) {
      BuildOnRow(s, k, work);
      assert s.jobs[k.1 := s.jobs[k.1]] == s.jobs;
    } else if Ends(work) {
      EndOnRow(s, k, work);
    } else {
      OnRow(s, k, work);
    }
  }

  /** What anybody else may do to a job row. */
  predicate RowStays(before: Job, after: Job) {
    after.owner == before.owner && after.quiz == before.quiz && (after.status == ReviewReady ==> before.status == ReviewReady)
  }

  predicate NewRow(job: Job) {
    job.quiz == None && job.status != ReviewReady
  }

  ghost predicate RowsStay(before: map<JobId, Job>, after: map<JobId, Job>) {
    && (forall j :: j in before ==> j in after && RowStays(before[j], after[j]))
    && forall j :: j in after && j !in before ==> NewRow(after[j])
  }

  lemma RequeuedRows(jobs: map<JobId, Job>, j: JobId, now: int)
    requires j in jobs
    ensures RowsStay(jobs, jobs[j := jobs[j].(status := Pending, updatedAt := now)])
  {
  }

  lemma CreatedRow(jobs: map<JobId, Job>, j: JobId, job: Job)
    requires j !in jobs && NewRow(job)
    ensures RowsStay(jobs, jobs[j := job])
  {
  }

  predicate Requeues(step: Step) {
    step.UploadWake? || step.AdminRetry? || step.StrategyWrite?
  }

  /** The job a requeueing step writes, if any. */
  function Requeued(s: State, step: Step): Option<JobId>
    requires Requeues(step)
  {
    match step
    case UploadWake(j) => if j in s.jobs then Some(j) else None
    case AdminRetry(j) => if j in s.jobs && s.jobs[j].status in {Failed, Processing} then Some(j) else None
    case StrategyWrite(r) => if r in s.strategies && s.strategies[r] in s.jobs then Some(s.strategies[r]) else None
  }

  lemma RequeueWrites(s: State, step: Step)
    requires Requeues(step)
    ensures match Requeued(s, step)
            case None => ApplyJobs(s, step).jobs == s.jobs
            case Some(j) => ApplyJobs(s, step).jobs == s.jobs[j := s.jobs[j].(status := Pending, updatedAt := s.now)]
  {
  }

  lemma RequeueStepRows(s: State, step: Step)
    requires Requeues(step)
    ensures RowsStay(s.jobs, ApplyJobs(s, step).jobs)
  {
    RequeueWrites(s, step);
    var j := Requeued(s, step);
    if j.Some? { RequeuedRows(s.jobs, j.value, s.now); }
  }

  lemma JobsStepRows(s: State, step: Step)
    requires !step.Work? && !OnDrafts(step) && !OnCache(step)
    ensures RowsStay(s.jobs, ApplyJobs(s, step).jobs)
  {
    if Requeues(step) {
      RequeueStepRows(s, step);
    } else if step.CreateJob? && step.newJob !in s.jobs {
      CreatedRow(s.jobs, step.newJob, Job(step.owner, if step.text then Pending else Uploading, s.now, None, None));
    }
  }

  lemma DraftsStepRows(s: State, step: Step, j: JobId)
    requires OnDrafts(step)
    ensures ApplyDrafts(s, step).jobs.Keys == s.jobs.Keys
    ensures j in s.jobs ==> RowStays(s.jobs[j], ApplyDrafts(s, step).jobs[j])
  {
  }

  lemma CacheStepRows(s: State, step: Step)
    requires OnCache(step)
    ensures ApplyCache(s, step).jobs == s.jobs
  {
  }

  lemma UserOnJob(s: State, step: Step, j: JobId)
    requires !step.Work?
    ensures j in s.jobs ==> j in ApplyUser(s, step).jobs && RowStays(s.jobs[j], ApplyUser(s, step).jobs[j])
    ensures j !in s.jobs && j in ApplyUser(s, step).jobs ==> NewRow(ApplyUser(s, step).jobs[j])
  {
    if OnDrafts(step) {
      DraftsStepRows(s, step, j);
    } else if OnCache(step) {
      CacheStepRows(s, step);
    } else {
      JobsStepRows(s, step);
    }
  }

  lemma ClaimedOnJob(s: State, w: Worker, batch: set<JobId>)
    ensures ClaimedBy(s, w, batch).jobs.Keys == s.jobs.Keys
    ensures forall j :: j in s.jobs ==> RowStays(s.jobs[j], ClaimedBy(s, w, batch).jobs[j])
    ensures forall k :: k in ClaimedBy(s, w, batch).runs && k !in s.runs ==> ClaimedBy(s, w, batch).runs[k].phase == Claimed
    ensures forall k :: k in s.runs && k in ClaimedBy(s, w, batch).runs ==> ClaimedBy(s, w, batch).runs[k] == s.runs[k]
  {
  }

  lemma ClaimOnJob(s: State, step: Step, j: JobId)
    requires step.Work? && step.work.Claim?
    ensures Apply(s, step).jobs.Keys == s.jobs.Keys && Apply(s, step).quizzes == s.quizzes
    ensures j in s.jobs ==> RowStays(s.jobs[j], Apply(s, step).jobs[j])
  {
    ClaimedOnJob(s, step.worker, step.work.batch);
    assert Apply(s, step) == s || Apply(s, step) == ClaimedBy(s, step.worker, step.work.batch);
  }

  lemma ClaimOnHold(s: State, step: Step, h: Hold)
    requires step.Work? && step.work.Claim? && h in Apply(s, step).runs
    ensures if h in s.runs then Apply(s, step).runs[h] == s.runs[h] else Apply(s, step).runs[h].phase == Claimed
  {
    ClaimedOnJob(s, step.worker, step.work.batch);
    assert Apply(s, step) == s || Apply(s, step) == ClaimedBy(s, step.worker, step.work.batch);
  }

  /** Only its worker links a quiz to a job or makes it review_ready. */
  lemma JobAfter(s: State, step: Step, j: JobId)
    requires RefsOk(s)
    ensures var t := Apply(s, step);
            && (j in s.jobs ==>
                  && j in t.jobs
                  && if IsWork(s, step) && step.work.job == j
                     then RowMoves(s.jobs[j], t.jobs[j], s.runs[Holder(step)].phase, step.work) else RowStays(s.jobs[j], t.jobs[j]))
            && (j !in s.jobs && j in t.jobs ==> NewRow(t.jobs[j]))
  {
    if IsWork(s, step) {
      WorkOnJob(s, Holder(step), step.work);
    } else if !step.Work? {
      UserOnJob(s, step, j);
    } else if step.work.Claim? {
      ClaimOnJob(s, step, j);
    }
  }

  ghost predicate Extracted(s: State, q: QuizId) {
    q in s.quizzes && s.quizzes[q].extracted
  }

  /** The quiz a worker has begun and not yet let go of. */
  function Made(phase: Phase): Option<QuizId> {
    match phase
    case Building(q, _) => Some(q)
    case Built(q, _) => Some(q)
    case RowStored(q, _) => Some(q)
    case Linked(q, _) => Some(q)
    case _ => None
  }

  predicate Makes(s: State, k: Hold, q: QuizId) {
    k in s.runs && Made(s.runs[k].phase) == Some(q)
  }

  predicate Links(s: State, j: JobId, q: QuizId) {
    j in s.jobs && s.jobs[j].quiz == Some(q)
  }

  predicate Creates(s: State, step: Step, k: Hold, q: QuizId) {
    IsWork(s, step) && k == Holder(step) && step.work.CreateQuiz? && step.work.quiz == q && q !in s.quizzes
  }

  lemma BuildOnHold(s: State, k: Hold, work: WorkerStep, h: Hold)
    requires k in s.runs && Builds(work) && h in ApplyBuild(s, k, work).runs
    ensures h in s.runs && (h != k ==> ApplyBuild(s, k, work).runs[h] == s.runs[h])
    ensures var made := Made(ApplyBuild(s, k, work).runs[h].phase);
            made == Made(s.runs[h].phase) || (h == k && work.CreateQuiz? && work.quiz !in s.quizzes && made == Some(work.quiz))
  {
  }

  lemma OtherOnHold(s: State, k: Hold, work: WorkerStep, h: Hold)
    requires k in s.runs && k.1 in s.jobs && !Builds(work) && h in ApplyWork(s, k, work).runs
    ensures h in s.runs && (h != k ==> ApplyWork(s, k, work).runs[h] == s.runs[h])
    ensures var made := Made(ApplyWork(s, k, work).runs[h].phase); made == Made(s.runs[h].phase) || made == None
  {
    if Ends(work) { EndOnHold(s, k, work, h); } else { OnHold(s, k, work, h); }
  }

  lemma EndOnHold(s: State, k: Hold, work: WorkerStep, h: Hold)
    requires k in s.runs && k.1 in s.jobs && h in ApplyEnd(s, k, work).runs
    ensures h in s.runs && ApplyEnd(s, k, work).runs[h] == s.runs[h]
  {
  }

  lemma OnHold(s: State, k: Hold, work: WorkerStep, h: Hold)
    requires k in s.runs && k.1 in s.jobs && h in ApplyOn(s, k, work).runs
    ensures h in s.runs && (h != k ==> ApplyOn(s, k, work).runs[h] == s.runs[h])
    ensures var made := Made(ApplyOn(s, k, work).runs[h].phase); made == Made(s.runs[h].phase) || made == None
  {
    match Onward(s, k, work)
    case Some((job, phase)) => OnwardMade(s, k, work, job, phase);
    case None =>
  }

  lemma OnwardMade(s: State, k: Hold, work: WorkerStep, job: Job, phase: Phase)
    requires k in s.runs && k.1 in s.jobs && Onward(s, k, work) == Some((job, phase))
    ensures Made(phase) == Made(s.runs[k].phase) || Made(phase) == None
  {
  }

  lemma HoldAfter(s: State, step: Step, h: Hold, q: QuizId)
    requires RefsOk(s)
    ensures Makes(Apply(s, step), h, q) ==> Makes(s, h, q) || Creates(s, step, h, q)
  {
    if h !in Apply(s, step).runs {
    } else if IsWork(s, step) {
      if Builds(step.work) {
        BuildOnHold(s, Holder(step), step.work, h);
      } else {
        OtherOnHold(s, Holder(step), step.work, h);
      }
    } else if !step.Work? {
      UsersKeepHolds(s, step);
    } else if step.work.Claim? {
      ClaimOnHold(s, step, h);
    }
  }

  /** A quiz after a step that may publish it. */
  predicate QuizMoves(before: Quiz, after: Quiz, published: bool) {
    after.extracted == before.extracted && after.status == if published then Published else before.status
  }

  lemma WorkOnQuiz(s: State, k: Hold, work: WorkerStep, q: QuizId)
    requires k in s.runs && k.1 in s.jobs && q in s.quizzes
    ensures q in ApplyWork(s, k, work).quizzes && QuizMoves(s.quizzes[q], ApplyWork(s, k, work).quizzes[q], false)
  {
    if Builds(work) { BuildOnQuiz(s, k, work, q); } else { OthersLeaveQuizzes(s, k, work); }
  }

  lemma StartOnQuiz(s: State, k: Hold, started: QuizId, extract: bool, q: QuizId)
    requires k in s.runs && q in s.quizzes && q != started
    ensures q in QuizStarted(s, k, started, extract).quizzes && QuizStarted(s, k, started, extract).quizzes[q] == s.quizzes[q]
  {
  }

  lemma AddOnQuiz(s: State, added: QuizId, questions: seq<string>, q: QuizId)
    requires q in s.quizzes && added in s.quizzes
    ensures q in QuestionsAdded(s, added, questions).quizzes && QuizMoves(s.quizzes[q], QuestionsAdded(s, added, questions).quizzes[q], false)
  {
  }

  lemma CloseOnQuiz(s: State, k: Hold, closed: QuizId, extract: bool, q: QuizId)
    requires k in s.runs && q in s.quizzes && closed in s.quizzes
    ensures q in QuizClosed(s, k, closed, extract).quizzes && QuizMoves(s.quizzes[q], QuizClosed(s, k, closed, extract).quizzes[q], false)
  {
  }

  lemma StoreOnQuizzes(s: State, k: Hold, work: WorkerStep)
    requires k in s.runs && (work.StoreRow? || work.StoreValkey?)
    ensures ApplyBuild(s, k, work).quizzes == s.quizzes
  {
  }

  lemma BuildOnQuiz(s: State, k: Hold, work: WorkerStep, q: QuizId)
    requires k in s.runs && q in s.quizzes && Builds(work)
    ensures q in ApplyBuild(s, k, work).quizzes && QuizMoves(s.quizzes[q], ApplyBuild(s, k, work).quizzes[q], false)
  {
    var phase := s.runs[k].phase;
    if work.CreateQuiz? {
      if phase == TextRead && work.quiz !in s.quizzes { StartOnQuiz(s, k, work.quiz, work.extract, q); }
    } else if work.AddQuestion? {
      if phase.Building? && phase.quiz in s.quizzes { AddOnQuiz(s, phase.quiz, [work.question], q); }
    } else if work.FinishBuild? {
      if phase.Building? && phase.quiz in s.quizzes { CloseOnQuiz(s, k, phase.quiz, phase.extract, q); }
    } else {
      StoreOnQuizzes(s, k, work);
    }
  }

  lemma UserOnQuiz(s: State, step: Step, q: QuizId)
    requires !step.Work? && q in s.quizzes
    ensures q in ApplyUser(s, step).quizzes && QuizMoves(s.quizzes[q], ApplyUser(s, step).quizzes[q], Commits(s, step, q))
  {
    if OnDrafts(step) { DraftsOnQuiz(s, step, q); } else { OthersOnQuizzes(s, step); }
  }

  lemma DraftsOnQuiz(s: State, step: Step, q: QuizId)
    requires OnDrafts(step) && q in s.quizzes
    ensures q in ApplyDrafts(s, step).quizzes && QuizMoves(s.quizzes[q], ApplyDrafts(s, step).quizzes[q], Commits(s, step, q))
  {
    if step.SaveCommit? {
      SaveOnQuiz(s, step.request, q);
    } else if step.PublishCommit? {
      PublishOnQuiz(s, step.request, q);
    }
  }

  lemma PublishOnQuiz(s: State, r: Request, q: QuizId)
    requires q in s.quizzes
    ensures q in ApplyDrafts(s, PublishCommit(r)).quizzes
    ensures QuizMoves(s.quizzes[q], ApplyDrafts(s, PublishCommit(r)).quizzes[q], Commits(s, PublishCommit(r), q))
  {
  }

  lemma SaveOnQuiz(s: State, r: Request, q: QuizId)
    requires q in s.quizzes
    ensures q in ApplyDrafts(s, SaveCommit(r)).quizzes && QuizMoves(s.quizzes[q], ApplyDrafts(s, SaveCommit(r)).quizzes[q], false)
  {
  }

  lemma OthersOnQuizzes(s: State, step: Step)
    requires !step.Work? && !OnDrafts(step)
    ensures ApplyUser(s, step).quizzes == s.quizzes
  {
  }

  /** Only a publication changes the status of a quiz, and nothing its origin. */
  lemma QuizAfter(s: State, step: Step, q: QuizId)
    requires RefsOk(s) && q in s.quizzes
    ensures q in Apply(s, step).quizzes && QuizMoves(s.quizzes[q], Apply(s, step).quizzes[q], Commits(s, step, q))
  {
    if IsWork(s, step) {
      WorkOnQuiz(s, Holder(step), step.work, q);
    } else if !step.Work? {
      UserOnQuiz(s, step, q);
    } else if step.work.Claim? {
      ClaimOnJob(s, step, 0);
    }
  }

  /** A new exam is a draft. */
  lemma CreatedDraft(s: State, step: Step, k: Hold, q: QuizId)
    requires RefsOk(s) && Creates(s, step, k, q) && Extracted(Apply(s, step), q)
    ensures Apply(s, step).quizzes[q].status == Draft
  {
  }

  // ---------------------------------------------------------------- one job for each exam

  ghost predicate LinkedByOne(s: State) {
    forall j, i :: j in s.jobs && i in s.jobs && s.jobs[j].quiz.Some? && s.jobs[j].quiz == s.jobs[i].quiz ==>
      Extracted(s, s.jobs[j].quiz.value) ==> j == i
  }

  ghost predicate LinkedByItsMaker(s: State) {
    forall k, j :: k in s.runs && j in s.jobs && Made(s.runs[k].phase).Some? && s.jobs[j].quiz == Made(s.runs[k].phase) ==>
      Extracted(s, s.jobs[j].quiz.value) ==> j == k.1
  }

  ghost predicate MadeByOne(s: State) {
    forall k, h :: k in s.runs && h in s.runs && Made(s.runs[k].phase).Some? && Made(s.runs[k].phase) == Made(s.runs[h].phase) ==>
      k == h
  }

  /** An exam is made by one worker for one job, and only that job ever links it. */
  ghost predicate OneJob(s: State) {
    LinkedByOne(s) && LinkedByItsMaker(s) && MadeByOne(s)
  }

  lemma MadeExists(s: State, k: Hold)
    requires RefsOk(s) && k in s.runs && Made(s.runs[k].phase).Some?
    ensures Made(s.runs[k].phase).value in s.quizzes
  {
    assert PhaseRefs(s.quizzes, s.runs[k].phase);
  }

  /** A link to an exam is old, or made by the worker that made the exam. */
  lemma LinkAfter(s: State, step: Step, j: JobId, q: QuizId)
    requires RefsOk(s)
    ensures Links(Apply(s, step), j, q) && Extracted(Apply(s, step), q) ==>
              Extracted(s, q) && (Links(s, j, q) || (Linking(s, step) && step.work.job == j && Makes(s, Holder(step), q)))
  {
    if Links(Apply(s, step), j, q) && Extracted(Apply(s, step), q) {
      JobAfter(s, step, j);
      if j in s.jobs && s.jobs[j].quiz != Some(q) {
        assert PhaseRefs(s.quizzes, s.runs[Holder(step)].phase);
      }
      QuizAfter(s, step, q);
    }
  }

  lemma LinksAfter(s: State, step: Step, j: JobId, i: JobId, q: QuizId)
    requires RefsOk(s) && OneJob(s)
    ensures Extracted(Apply(s, step), q) && Links(Apply(s, step), j, q) && Links(Apply(s, step), i, q) ==> j == i
  {
    LinkAfter(s, step, j, q);
    LinkAfter(s, step, i, q);
  }

  lemma MakerAfter(s: State, step: Step, k: Hold, j: JobId, q: QuizId)
    requires RefsOk(s) && OneJob(s)
    ensures Extracted(Apply(s, step), q) && Makes(Apply(s, step), k, q) && Links(Apply(s, step), j, q) ==> j == k.1
  {
    HoldAfter(s, step, k, q);
    LinkAfter(s, step, j, q);
  }

  lemma MakersAfter(s: State, step: Step, k: Hold, h: Hold, q: QuizId)
    requires RefsOk(s) && OneJob(s)
    ensures Makes(Apply(s, step), k, q) && Makes(Apply(s, step), h, q) ==> k == h
  {
    HoldAfter(s, step, k, q);
    HoldAfter(s, step, h, q);
    if Makes(s, k, q) { MadeExists(s, k); }
    if Makes(s, h, q) { MadeExists(s, h); }
  }

  lemma OneJobStep(s: State, step: Step)
    requires RefsOk(s) && OneJob(s)
    ensures OneJob(Apply(s, step))
  {
    var t := Apply(s, step);
    forall j, i | j in t.jobs && i in t.jobs && t.jobs[j].quiz.Some? && t.jobs[j].quiz == t.jobs[i].quiz
      ensures Extracted(t, t.jobs[j].quiz.value) ==> j == i
    {
      if Extracted(t, t.jobs[j].quiz.value) { LinksAfter(s, step, j, i, t.jobs[j].quiz.value); }
    }
    forall k, j | k in t.runs && j in t.jobs && Made(t.runs[k].phase).Some? && t.jobs[j].quiz == Made(t.runs[k].phase)
      ensures Extracted(t, t.jobs[j].quiz.value) ==> j == k.1
    {
      if Extracted(t, t.jobs[j].quiz.value) { MakerAfter(s, step, k, j, t.jobs[j].quiz.value); }
    }
    forall k, h | k in t.runs && h in t.runs && Made(t.runs[k].phase).Some? && Made(t.runs[k].phase) == Made(t.runs[h].phase)
      ensures k == h
    {
      MakersAfter(s, step, k, h, Made(t.runs[k].phase).value);
    }
  }

  /** In every run whatever. */
  lemma {:induction false} OneJobInEveryRun(s: State, steps: seq<Step>)
    requires Initial(s)
    ensures OneJob(Run(s, steps))
  {
    if steps != [] {
      OneJobInEveryRun(s, steps[..|steps| - 1]);
      RefsHoldInEveryRun(s, steps[..|steps| - 1]);
      OneJobStep(Run(s, steps[..|steps| - 1]), steps[|steps| - 1]);
    }
  }

  /** Two jobs never link the same exam, in any run. */
  lemma ExamHasOneJob(s: State, steps: seq<Step>, j: JobId, i: JobId)
    requires Initial(s)
    requires var t := Run(s, steps);
             j in t.jobs && i in t.jobs && t.jobs[j].quiz.Some? && t.jobs[j].quiz == t.jobs[i].quiz
             && Extracted(t, t.jobs[j].quiz.value)
    ensures j == i
  {
    OneJobInEveryRun(s, steps);
  }

  // ---------------------------------------------------------------- who publishes

  /** The user who asked for the publication has a job for the exam. */
  ghost predicate AskedByOwner(s: State, r: Request)
    requires r in s.publishes
  {
    exists j :: j in s.jobs && s.jobs[j].quiz == Some(s.publishes[r].0) && s.jobs[j].owner == s.publishes[r].1
  }

  ghost predicate AskedByOwners(s: State) {
    forall r :: r in s.publishes ==> AskedByOwner(s, r)
  }

  /** A linked job is not linked again. */
  lemma LinkStays(s: State, step: Step, j: JobId)
    requires RefsOk(s) && LeaseOk(s) && j in s.jobs && s.jobs[j].quiz.Some?
    ensures j in Apply(s, step).jobs && Apply(s, step).jobs[j].quiz == s.jobs[j].quiz && Apply(s, step).jobs[j].owner == s.jobs[j].owner
  {
    JobAfter(s, step, j);
    if IsWork(s, step) && step.work.job == j { assert HeldOk(s.jobs[j], s.runs[Holder(step)]); }
  }

  lemma WorkKeepsPublishes(s: State, k: Hold, work: WorkerStep)
    requires k in s.runs && k.1 in s.jobs
    ensures ApplyWork(s, k, work).publishes == s.publishes
  {
    if Builds(work) {
      assert ApplyBuild(s, k, work).publishes == s.publishes;
    } else if Ends(work) {
      EndKeepsPublishes(s, k, work);
    } else {
      OnKeepsPublishes(s, k, work);
    }
  }

  lemma EndKeepsPublishes(s: State, k: Hold, work: WorkerStep)
    requires k in s.runs && k.1 in s.jobs
    ensures ApplyEnd(s, k, work).publishes == s.publishes
  {
  }

  lemma OnKeepsPublishes(s: State, k: Hold, work: WorkerStep)
    requires k in s.runs && k.1 in s.jobs
    ensures ApplyOn(s, k, work).publishes == s.publishes
  {
  }

  lemma WorkersKeepPublishes(s: State, step: Step)
    requires RefsOk(s) && step.Work?
    ensures Apply(s, step).publishes == s.publishes
  {
    if IsWork(s, step) {
      WorkKeepsPublishes(s, Holder(step), step.work);
    } else if step.work.Claim? {
      assert Apply(s, step) == s || Apply(s, step) == ClaimedBy(s, step.worker, step.work.batch);
    }
  }

  lemma PublishesAfter(s: State, step: Step, r: Request)
    requires !step.Work? && r in ApplyUser(s, step).publishes
    ensures (r in s.publishes && ApplyUser(s, step).publishes[r] == s.publishes[r])
            || (step.PublishCheck? && ApplyUser(s, step).jobs == s.jobs
                && OwnsQuiz(s, ApplyUser(s, step).publishes[r].1, ApplyUser(s, step).publishes[r].0))
  {
  }

  lemma AskedByOwnersStep(s: State, step: Step)
    requires RefsOk(s) && LeaseOk(s) && AskedByOwners(s)
    ensures AskedByOwners(Apply(s, step))
  {
    var t := Apply(s, step);
    forall r | r in t.publishes
      ensures AskedByOwner(t, r)
    {
      if step.Work? { WorkersKeepPublishes(s, step); } else { PublishesAfter(s, step, r); }
      if r in s.publishes && t.publishes[r] == s.publishes[r] {
        var j :| j in s.jobs && s.jobs[j].quiz == Some(s.publishes[r].0) && s.jobs[j].owner == s.publishes[r].1;
        LinkStays(s, step, j);
      }
    }
  }

  // ---------------------------------------------------------------- what review_ready says

  ghost predicate IsDraft(s: State, q: QuizId) {
    q in s.quizzes && s.quizzes[q].status == Draft
  }

  ghost predicate ReviewsDraft(s: State, j: JobId) {
    j in s.jobs && s.jobs[j].status == ReviewReady ==> s.jobs[j].quiz.Some? && IsDraft(s, s.jobs[j].quiz.value)
  }

  /** A job is review_ready only for a draft, and no worker is still busy with a published exam. */
  ghost predicate ReviewsAreDrafts(s: State) {
    && (forall j :: j in s.jobs ==> ReviewsDraft(s, j))
    && forall k :: k in s.runs && Made(s.runs[k].phase).Some? && Extracted(s, Made(s.runs[k].phase).value) ==>
         IsDraft(s, Made(s.runs[k].phase).value)
  }

  /** No publication commits while the worker of the exam's job has linked the exam and not yet
      written the job's last status. */
  ghost predicate InTime(s: State, step: Step) {
    forall k :: k in s.runs && s.runs[k].phase.Linked? && s.runs[k].phase.extract ==> !Commits(s, step, s.runs[k].phase.quiz)
  }

  ghost predicate Sound(s: State) {
    RefsOk(s) && LeaseOk(s) && OneJob(s) && AskedByOwners(s)
  }

  lemma WorkedJobDraft(s: State, step: Step)
    requires Sound(s) && ReviewsAreDrafts(s) && IsWork(s, step)
    ensures ReviewsDraft(Apply(s, step), step.work.job)
  {
    var k, j := Holder(step), step.work.job;
    JobAfter(s, step, j);
    assert HeldOk(s.jobs[j], s.runs[k]) && PhaseRefs(s.quizzes, s.runs[k].phase);
    if s.jobs[j].quiz.Some? { QuizAfter(s, step, s.jobs[j].quiz.value); }
  }

  lemma OtherJobDraft(s: State, step: Step, j: JobId)
    requires Sound(s) && ReviewsAreDrafts(s) && !(IsWork(s, step) && step.work.job == j)
    ensures ReviewsDraft(Apply(s, step), j)
  {
    JobAfter(s, step, j);
    if j in s.jobs && s.jobs[j].status == ReviewReady {
      var q := s.jobs[j].quiz.value;
      QuizAfter(s, step, q);
      if Commits(s, step, q) { ReviewedIsMoved(s, step.request, j); }
    }
  }

  lemma JobAfterDraft(s: State, step: Step, j: JobId)
    requires Sound(s) && ReviewsAreDrafts(s)
    ensures ReviewsDraft(Apply(s, step), j)
  {
    if IsWork(s, step) && step.work.job == j {
      WorkedJobDraft(s, step);
    } else {
      OtherJobDraft(s, step, j);
    }
  }

  /** A publication moves the job that is review_ready for its exam. */
  lemma ReviewedIsMoved(s: State, r: Request, j: JobId)
    requires Sound(s) && r in s.publishes && j in s.jobs && s.jobs[j].quiz == Some(s.publishes[r].0) && IsDraft(s, s.publishes[r].0)
    ensures j in Apply(s, PublishCommit(r)).jobs && Apply(s, PublishCommit(r)).jobs[j].status == QuizReady
  {
    var i :| i in s.jobs && s.jobs[i].quiz == Some(s.publishes[r].0) && s.jobs[i].owner == s.publishes[r].1;
    assert Extracted(s, s.publishes[r].0) && i == j;
    PublicationEffects(s, r);
  }

  lemma MakerAfterDraft(s: State, step: Step, k: Hold, q: QuizId)
    requires Sound(s) && ReviewsAreDrafts(s) && InTime(s, step)
    ensures Makes(Apply(s, step), k, q) && Extracted(Apply(s, step), q) ==> IsDraft(Apply(s, step), q)
  {
    HoldAfter(s, step, k, q);
    if !Makes(Apply(s, step), k, q) || !Extracted(Apply(s, step), q) {
    } else if Creates(s, step, k, q) {
      CreatedDraft(s, step, k, q);
    } else {
      MadeExists(s, k);
      QuizAfter(s, step, q);
      if Commits(s, step, q) { PublishedWhileMade(s, step.request, k); }
    }
  }

  /** An exam that can be published is linked: its maker is past its last link. */
  lemma PublishedWhileMade(s: State, r: Request, k: Hold)
    requires Sound(s) && r in s.publishes && k in s.runs && Made(s.runs[k].phase) == Some(s.publishes[r].0)
    requires Extracted(s, s.publishes[r].0)
    ensures s.runs[k].phase == Linked(s.publishes[r].0, true)
  {
    var j :| j in s.jobs && s.jobs[j].quiz == Some(s.publishes[r].0) && s.jobs[j].owner == s.publishes[r].1;
    assert j == k.1;
    assert HeldOk(s.jobs[k.1], s.runs[k]) && PhaseRefs(s.quizzes, s.runs[k].phase);
  }

  /** The exact condition for one step: it keeps review_ready for drafts exactly when it publishes
      no exam whose worker has still to write the job's last status. */
  lemma ReviewsStayDraftsIff(s: State, step: Step)
    requires Sound(s) && ReviewsAreDrafts(s)
    ensures ReviewsAreDrafts(Apply(s, step)) <==> InTime(s, step)
  {
    var t := Apply(s, step);
    if InTime(s, step) {
      forall j | j in t.jobs
        ensures ReviewsDraft(t, j)
      {
        JobAfterDraft(s, step, j);
      }
      forall k | k in t.runs && Made(t.runs[k].phase).Some? && Extracted(t, Made(t.runs[k].phase).value)
        ensures IsDraft(t, Made(t.runs[k].phase).value)
      {
        MakerAfterDraft(s, step, k, Made(t.runs[k].phase).value);
      }
    } else {
      var k :| k in s.runs && s.runs[k].phase.Linked? && s.runs[k].phase.extract && Commits(s, step, s.runs[k].phase.quiz);
      LateBreaks(s, step.request, k);
    }
  }

  lemma LateBreaks(s: State, r: Request, k: Hold)
    requires RefsOk(s) && r in s.publishes && k in s.runs && s.runs[k].phase == Linked(s.publishes[r].0, true)
    ensures !ReviewsAreDrafts(Apply(s, PublishCommit(r)))
  {
    assert PhaseRefs(s.quizzes, s.runs[k].phase);
    PublicationEffects(s, r);
    assert k in Apply(s, PublishCommit(r)).runs;
  }

  ghost predicate InTimeRun(s: State, steps: seq<Step>) {
    steps == [] ||
    (InTimeRun(s, steps[..|steps| - 1]) && InTime(Run(s, steps[..|steps| - 1]), steps[|steps| - 1]))
  }

  lemma {:induction false} SoundInCarefulRuns(s: State, steps: seq<Step>)
    requires Initial(s) && CarefulRun(s, steps)
    ensures Sound(Run(s, steps))
  {
    LeaseHoldsInCarefulRuns(s, steps);
    OneJobInEveryRun(s, steps);
    if steps != [] {
      SoundInCarefulRuns(s, steps[..|steps| - 1]);
      AskedByOwnersStep(Run(s, steps[..|steps| - 1]), steps[|steps| - 1]);
    }
  }

  lemma {:induction false} ReviewsHoldInEveryRun(s: State, steps: seq<Step>)
    requires Initial(s) && CarefulRun(s, steps) && InTimeRun(s, steps)
    ensures ReviewsAreDrafts(Run(s, steps))
  {
    if steps != [] {
      ReviewsHoldInEveryRun(s, steps[..|steps| - 1]);
      SoundInCarefulRuns(s, steps[..|steps| - 1]);
      ReviewsStayDraftsIff(Run(s, steps[..|steps| - 1]), steps[|steps| - 1]);
    }
  }

  /** Under the lease, and with publications in time: a job its worker has finished with a quiz
      says review_ready exactly while that quiz is a draft, and quiz_ready exactly once it is
      published. */
  lemma StatusTellsPublication(s: State, steps: seq<Step>, j: JobId)
    requires Initial(s) && CarefulRun(s, steps) && InTimeRun(s, steps)
    requires j in Run(s, steps).jobs && Run(s, steps).jobs[j].status in {ReviewReady, QuizReady}
    ensures var t := Run(s, steps);
            && t.jobs[j].quiz.Some? && t.jobs[j].quiz.value in t.quizzes
            && (t.jobs[j].status == ReviewReady <==> t.quizzes[t.jobs[j].quiz.value].status == Draft)
            && (t.jobs[j].status == QuizReady <==> t.quizzes[t.jobs[j].quiz.value].status == Published)
  {
    SoundInCarefulRuns(s, steps);
    ReviewsHoldInEveryRun(s, steps);
    assert JobOk(Run(s, steps).quizzes, Run(s, steps).jobs[j]);
  }

  // ---------------------------------------------------------------- a publication that comes too early

  /** A job that asks for a review of an exam that is published, with nobody about to publish it. */
  ghost predicate AsksInVain(s: State, j: JobId) {
    && j in s.jobs && s.jobs[j].status == ReviewReady && s.jobs[j].quiz.Some?
    && var q := s.jobs[j].quiz.value;
       q in s.quizzes && s.quizzes[q].status == Published && forall r :: r in s.publishes ==> s.publishes[r].0 != q
  }

  /** A publication between a worker's link and its last status write: the job is quiz_ready for
      a moment, and then the worker makes it review_ready. */
  lemma EarlyPublicationAsksInVain(s: State, k: Hold, r: Request)
    requires Sound(s) && k in s.runs && r in s.publishes && s.runs[k].phase == Linked(s.publishes[r].0, true)
    requires IsDraft(s, s.publishes[r].0) && forall p :: p in s.publishes && p != r ==> s.publishes[p].0 != s.publishes[r].0
    ensures var published := Apply(s, PublishCommit(r));
            && k.1 in published.jobs && published.jobs[k.1].status == QuizReady
            && AsksInVain(Apply(published, Work(k.0, FinishQuiz(k.1))), k.1)
  {
    assert HeldOk(s.jobs[k.1], s.runs[k]);
    ReviewedIsMoved(s, r, k.1);
    ExamPublished(s, k, r);
    FinishedExam(Apply(s, PublishCommit(r)), k, s.publishes[r].0);
  }

  lemma ExamPublished(s: State, k: Hold, r: Request)
    requires k in s.runs && r in s.publishes && k.1 in s.jobs
    requires s.publishes[r].0 in s.quizzes && s.jobs[k.1].quiz == Some(s.publishes[r].0)
    ensures var (t, q) := (Apply(s, PublishCommit(r)), s.publishes[r].0);
            && k in t.runs && t.runs[k] == s.runs[k] && k.1 in t.jobs && t.jobs[k.1].quiz == Some(q)
            && q in t.quizzes && t.quizzes[q].status == Published && t.publishes == Without(s.publishes, r)
  {
  }

  lemma FinishedExam(s: State, k: Hold, q: QuizId)
    requires k in s.runs && k.1 in s.jobs && s.runs[k].phase == Linked(q, true)
    ensures var t := Apply(s, Work(k.0, FinishQuiz(k.1)));
            && k.1 in t.jobs && t.jobs[k.1].status == ReviewReady && t.jobs[k.1].quiz == s.jobs[k.1].quiz
            && t.quizzes == s.quizzes && t.publishes == s.publishes
  {
    assert (k.0, k.1) == k;
  }

  /** Nothing mends it: the exam cannot be published again, and nothing else moves the job. */
  lemma {:induction false} AsksInVainForever(s: State, steps: seq<Step>, j: JobId)
    requires RefsOk(s) && LeaseOk(s) && AsksInVain(s, j) && CarefulRun(s, steps)
    ensures RefsOk(Run(s, steps)) && LeaseOk(Run(s, steps)) && AsksInVain(Run(s, steps), j)
  {
    if steps != [] {
      var init, last := steps[..|steps| - 1], steps[|steps| - 1];
      AsksInVainForever(s, init, j);
      RefsOkStep(Run(s, init), last);
      LeaseStep(Run(s, init), last);
      AsksInVainStep(Run(s, init), last, j);
    }
  }

  lemma NobodyRequeuesReviewed(s: State, step: Step, j: JobId)
    requires !step.Work? && Careful(s, step) && j in s.jobs && s.jobs[j].status == ReviewReady && s.jobs[j].quiz.Some?
    requires !Commits(s, step, s.jobs[j].quiz.value)
    ensures j in ApplyUser(s, step).jobs && ApplyUser(s, step).jobs[j] == s.jobs[j]
  {
  }

  lemma WorkersLeaveReviewed(s: State, step: Step, j: JobId)
    requires RefsOk(s) && LeaseOk(s) && step.Work? && j in s.jobs && s.jobs[j].status == ReviewReady
    ensures j in Apply(s, step).jobs && Apply(s, step).jobs[j] == s.jobs[j]
  {
    if IsWork(s, step) {
      WorkOnJob(s, Holder(step), step.work);
      assert HeldOk(s.jobs[step.work.job], s.runs[Holder(step)]);
    }
  }

  lemma PublishedIsNotAskedFor(s: State, step: Step, q: QuizId)
    requires RefsOk(s) && q in s.quizzes && s.quizzes[q].status == Published && (forall r :: r in s.publishes ==> s.publishes[r].0 != q)
    ensures forall r :: r in Apply(s, step).publishes ==> Apply(s, step).publishes[r].0 != q
  {
    if step.Work? { WorkersKeepPublishes(s, step); }
  }

  lemma AsksInVainStep(s: State, step: Step, j: JobId)
    requires RefsOk(s) && LeaseOk(s) && AsksInVain(s, j) && Careful(s, step)
    ensures AsksInVain(Apply(s, step), j)
  {
    var q := s.jobs[j].quiz.value;
    QuizAfter(s, step, q);
    PublishedIsNotAskedFor(s, step, q);
    if step.Work? { WorkersLeaveReviewed(s, step, j); } else { NobodyRequeuesReviewed(s, step, j); }
  }
}
