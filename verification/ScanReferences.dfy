/** References between the scan tables, kept by every run of `ScanLifecycle`: what a worker, a
    job row, a cache tier or a pending request may point at. From them, what never changes. */
module ScanReferences {
  import opened Common
  import opened ScanModel
  import opened ScanLifecycle

  /** A quiz whose questions are complete. */
  ghost predicate Complete(quizzes: map<QuizId, Quiz>, q: QuizId) {
    q in quizzes && !quizzes[q].open
  }

  /** A complete quiz that was never a draft. */
  ghost predicate Generated(quizzes: map<QuizId, Quiz>, q: QuizId) {
    Complete(quizzes, q) && !quizzes[q].extracted
  }

  ghost predicate PhaseRefs(quizzes: map<QuizId, Quiz>, phase: Phase) {
    match phase
    case Hit(q) => Generated(quizzes, q)
    case HitLinked(q) => Generated(quizzes, q)
    case Building(q, extract) => q in quizzes && quizzes[q].open && quizzes[q].extracted == extract
    case Built(q, extract) => Complete(quizzes, q) && quizzes[q].extracted == extract
    case RowStored(q, _) => Generated(quizzes, q)
    case Linked(q, extract) => Complete(quizzes, q) && quizzes[q].extracted == extract
    case _ => true
  }

  ghost predicate OneBuilder(runs: map<Hold, Attempt>) {
    forall k, k' :: k in runs && k' in runs && runs[k].phase.Building? && runs[k'].phase.Building? ==>
      runs[k].phase.quiz == runs[k'].phase.quiz ==> k == k'
  }

  ghost predicate RunRefs(quizzes: map<QuizId, Quiz>, runs: map<Hold, Attempt>) {
    && (forall k :: k in runs ==> PhaseRefs(quizzes, runs[k].phase))
    && OneBuilder(runs)
  }

  ghost predicate HoldsExist(jobs: map<JobId, Job>, runs: map<Hold, Attempt>) {
    forall k :: k in runs ==> k.1 in jobs
  }

  ghost predicate JobRefs(quizzes: map<QuizId, Quiz>, jobs: map<JobId, Job>) {
    forall j :: j in jobs && jobs[j].quiz.Some? ==> Complete(quizzes, jobs[j].quiz.value)
  }

  ghost predicate QuizKinds(quizzes: map<QuizId, Quiz>) {
    forall q :: q in quizzes && !quizzes[q].extracted ==> quizzes[q].status == Published
  }

  /** A cache tier never points at a draft or at a quiz still being written. */
  ghost predicate CacheRefs(quizzes: map<QuizId, Quiz>, tier: map<Hash, QuizId>) {
    forall h :: h in tier ==> Generated(quizzes, tier[h])
  }

  ghost predicate SaveRefs(quizzes: map<QuizId, Quiz>, saves: map<Request, (QuizId, seq<string>)>) {
    forall r :: r in saves ==> Complete(quizzes, saves[r].0) && quizzes[saves[r].0].extracted
  }

  ghost predicate PublishRefs(quizzes: map<QuizId, Quiz>, publishes: map<Request, (QuizId, User)>) {
    forall r :: r in publishes ==> Complete(quizzes, publishes[r].0) && quizzes[publishes[r].0].extracted
  }

  ghost predicate RefillRefs(quizzes: map<QuizId, Quiz>, refills: map<Request, (Hash, QuizId)>) {
    forall r :: r in refills ==> Generated(quizzes, refills[r].1)
  }

  ghost predicate RefsOk(s: State) {
    && RunRefs(s.quizzes, s.runs) && HoldsExist(s.jobs, s.runs) && JobRefs(s.quizzes, s.jobs)
    && QuizKinds(s.quizzes) && CacheRefs(s.quizzes, s.rows) && CacheRefs(s.quizzes, s.valkey)
    && SaveRefs(s.quizzes, s.saves) && PublishRefs(s.quizzes, s.publishes) && RefillRefs(s.quizzes, s.refills)
  }

  /** Quizzes only ever change inside: none disappears, changes its origin or reopens. */
  ghost predicate Persist(before: map<QuizId, Quiz>, after: map<QuizId, Quiz>) {
    forall q :: q in before ==>
      && q in after
      && after[q].extracted == before[q].extracted
      && (!before[q].open ==> !after[q].open)
      && (before[q].status == Published ==> after[q].status == Published)
  }

  /** References that do not come from workers survive any change inside the quizzes. */
  lemma PersistKeepsRefs(s: State, quizzes: map<QuizId, Quiz>)
    requires RefsOk(s) && Persist(s.quizzes, quizzes)
    ensures JobRefs(quizzes, s.jobs) && CacheRefs(quizzes, s.rows) && CacheRefs(quizzes, s.valkey)
    ensures SaveRefs(quizzes, s.saves) && PublishRefs(quizzes, s.publishes) && RefillRefs(quizzes, s.refills)
  {
  }

  lemma JobWriteKeepsRefs(s: State, j: JobId, job: Job)
    requires RefsOk(s) && (job.quiz.Some? ==> Complete(s.quizzes, job.quiz.value))
    ensures JobRefs(s.quizzes, s.jobs[j := job]) && HoldsExist(s.jobs[j := job], s.runs)
  {
  }

  lemma GotoKeepsRefs(s: State, k: Hold, phase: Phase)
    requires RefsOk(s) && k in s.runs && PhaseRefs(s.quizzes, phase) && !phase.Building?
    ensures RunRefs(s.quizzes, s.runs[k := s.runs[k].(phase := phase)])
    ensures HoldsExist(s.jobs, s.runs[k := s.runs[k].(phase := phase)])
  {
  }

  lemma ReleaseKeepsRefs(s: State, k: Hold)
    requires RefsOk(s)
    ensures RunRefs(s.quizzes, Without(s.runs, k)) && HoldsExist(s.jobs, Without(s.runs, k))
  {
  }

  lemma StatusWriteKeepsRefs(s: State, j: JobId, status: JobStatus)
    requires RefsOk(s) && j in s.jobs
    ensures RefsOk(WriteStatus(s, j, status))
  {
    JobWriteKeepsRefs(s, j, s.jobs[j].(status := status, updatedAt := s.now));
  }

  lemma EndKeepsRefs(s: State, k: Hold, status: JobStatus)
    requires RefsOk(s) && k in s.runs
    ensures RefsOk(Release(WriteStatus(s, k.1, status), k))
  {
    StatusWriteKeepsRefs(s, k.1, status);
    ReleaseKeepsRefs(WriteStatus(s, k.1, status), k);
  }

  lemma RefsOkEnd(s: State, k: Hold, work: WorkerStep)
    requires RefsOk(s) && k in s.runs
    ensures RefsOk(ApplyEnd(s, k, work))
  {
    var last := LastStatus(work, s.runs[k].phase);
    ReleaseKeepsRefs(s, k);
    if last.Some? { EndKeepsRefs(s, k, last.value); }
  }

  lemma OnwardRefs(s: State, k: Hold, work: WorkerStep, job: Job, phase: Phase)
    requires RefsOk(s) && k in s.runs && Onward(s, k, work) == Some((job, phase))
    ensures job.quiz.Some? ==> Complete(s.quizzes, job.quiz.value)
    ensures PhaseRefs(s.quizzes, phase) && !phase.Building?
  {
    assert PhaseRefs(s.quizzes, s.runs[k].phase);
  }

  lemma RefsOkOn(s: State, k: Hold, work: WorkerStep)
    requires RefsOk(s) && k in s.runs
    ensures RefsOk(ApplyOn(s, k, work))
  {
    match Onward(s, k, work)
    case Some((job, phase)) =>
      OnwardRefs(s, k, work, job, phase);
      JobWriteKeepsRefs(s, k.1, job);
      GotoKeepsRefs(s, k, phase);
    case None =>
  }

  lemma CreateKeepsRefs(s: State, k: Hold, q: QuizId, extract: bool)
    requires RefsOk(s) && k in s.runs && q !in s.quizzes
    ensures var quizzes := s.quizzes[q := Quiz(if extract then Draft else Published, extract, true, [])];
            RefsOk(Goto(s.(quizzes := quizzes), k, Building(q, extract)))
  {
    var quizzes := s.quizzes[q := Quiz(if extract then Draft else Published, extract, true, [])];
    PersistKeepsRefs(s, quizzes);
    var runs := s.runs[k := s.runs[k].(phase := Building(q, extract))];
    forall k' | k' in runs
      ensures PhaseRefs(quizzes, runs[k'].phase)
      ensures k' != k && runs[k'].phase.Building? ==> runs[k'].phase.quiz != q
    {
      assert PhaseRefs(s.quizzes, s.runs[k'].phase);
    }
  }

  /** Changing a quiz row inside leaves what the workers point at as it was. */
  lemma InnerChangeKeepsRuns(quizzes: map<QuizId, Quiz>, runs: map<Hold, Attempt>, q: QuizId, quiz: Quiz)
    requires RunRefs(quizzes, runs) && q in quizzes
    requires quiz.open == quizzes[q].open && quiz.extracted == quizzes[q].extracted
    ensures RunRefs(quizzes[q := quiz], runs)
  {
    forall k | k in runs
      ensures PhaseRefs(quizzes[q := quiz], runs[k].phase)
    {
      assert PhaseRefs(quizzes, runs[k].phase);
    }
  }

  lemma InnerChangeKeepsRefs(s: State, q: QuizId, quiz: Quiz)
    requires RefsOk(s) && q in s.quizzes
    requires quiz.open == s.quizzes[q].open && quiz.extracted == s.quizzes[q].extracted
    requires s.quizzes[q].status == Published ==> quiz.status == Published
    ensures RefsOk(s.(quizzes := s.quizzes[q := quiz]))
  {
    PersistKeepsRefs(s, s.quizzes[q := quiz]);
    InnerChangeKeepsRuns(s.quizzes, s.runs, q, quiz);
  }

  lemma ContentKeepsRefs(s: State, q: QuizId, questions: seq<string>)
    requires RefsOk(s) && q in s.quizzes
    ensures RefsOk(s.(quizzes := s.quizzes[q := s.quizzes[q].(questions := questions)]))
  {
    InnerChangeKeepsRefs(s, q, s.quizzes[q].(questions := questions));
  }

  /** The only builder of a quiz closes it. */
  lemma CloseKeepsRuns(quizzes: map<QuizId, Quiz>, runs: map<Hold, Attempt>, k: Hold)
    requires RunRefs(quizzes, runs) && k in runs && runs[k].phase.Building?
    ensures var q := runs[k].phase.quiz;
            q in quizzes
            && RunRefs(quizzes[q := quizzes[q].(open := false)], runs[k := runs[k].(phase := Built(q, runs[k].phase.extract))])
  {
    assert PhaseRefs(quizzes, runs[k].phase);
    var q := runs[k].phase.quiz;
    var closed := quizzes[q := quizzes[q].(open := false)];
    var next := runs[k := runs[k].(phase := Built(q, runs[k].phase.extract))];
    forall k' | k' in next
      ensures PhaseRefs(closed, next[k'].phase)
    {
      assert PhaseRefs(quizzes, runs[k'].phase);
    }
  }

  lemma CloseKeepsRefs(s: State, k: Hold)
    requires RefsOk(s) && k in s.runs && s.runs[k].phase.Building?
    ensures var q := s.runs[k].phase.quiz;
            RefsOk(Goto(s.(quizzes := s.quizzes[q := s.quizzes[q].(open := false)]), k, Built(q, s.runs[k].phase.extract)))
  {
    CloseKeepsRuns(s.quizzes, s.runs, k);
    var q := s.runs[k].phase.quiz;
    PersistKeepsRefs(s, s.quizzes[q := s.quizzes[q].(open := false)]);
  }

  lemma StoreKeepsRefs(s: State, tier: map<Hash, QuizId>, h: Hash, q: QuizId)
    requires CacheRefs(s.quizzes, tier) && Generated(s.quizzes, q)
    ensures CacheRefs(s.quizzes, tier[h := q])
  {
  }

  lemma RefsOkQuizSteps(s: State, k: Hold, work: WorkerStep)
    requires RefsOk(s) && k in s.runs && (work.CreateQuiz? || work.AddQuestion? || work.FinishBuild?)
    ensures RefsOk(ApplyBuild(s, k, work))
  {
    var phase := s.runs[k].phase;
    assert PhaseRefs(s.quizzes, phase);
    match work
    case CreateQuiz(_, q, extract) => if phase == TextRead && q !in s.quizzes { CreateKeepsRefs(s, k, q, extract); }
    case AddQuestion(_, question) =>
      if phase.Building? { ContentKeepsRefs(s, phase.quiz, s.quizzes[phase.quiz].questions + [question]); }
    case FinishBuild(_) => if phase.Building? { CloseKeepsRefs(s, k); }
  }

  /** Only complete quizzes that were never drafts are written to the cache. */
  lemma RefsOkStoreSteps(s: State, k: Hold, work: WorkerStep)
    requires RefsOk(s) && k in s.runs && (work.StoreRow? || work.StoreValkey?)
    ensures RefsOk(ApplyBuild(s, k, work))
  {
    var phase := s.runs[k].phase;
    assert PhaseRefs(s.quizzes, phase);
    match work
    case StoreRow(_, hash) =>
      if phase.Built? && !phase.extract {
        StoreKeepsRefs(s, s.rows, hash, phase.quiz);
        GotoKeepsRefs(s, k, RowStored(phase.quiz, hash));
      }
    case StoreValkey(_) => if phase.RowStored? { StoreKeepsRefs(s, s.valkey, phase.hash, phase.quiz); }
  }

  lemma RefsOkWork(s: State, k: Hold, work: WorkerStep)
    requires RefsOk(s) && k in s.runs
    ensures RefsOk(ApplyWork(s, k, work))
  {
    if work.StoreRow? || work.StoreValkey? {
      RefsOkStoreSteps(s, k, work);
    } else if Builds(work) {
      RefsOkQuizSteps(s, k, work);
    } else if Ends(work) {
      RefsOkEnd(s, k, work);
    } else {
      RefsOkOn(s, k, work);
    }
  }

  lemma RefsOkJobs(s: State, step: Step)
    requires RefsOk(s) && !step.Work? && !OnDrafts(step) && !OnCache(step)
    ensures RefsOk(ApplyJobs(s, step))
  {
    match step
    case CreateJob(j, owner, text) =>
      JobWriteKeepsRefs(s, j, Job(owner, if text then Pending else Uploading, s.now, None, None));
    case UploadWake(j) => if j in s.jobs { StatusWriteKeepsRefs(s, j, Pending); }
    case AdminRetry(j) => if j in s.jobs { StatusWriteKeepsRefs(s, j, Pending); }
    case StrategyWrite(r) =>
      if r in s.strategies && s.strategies[r] in s.jobs { StatusWriteKeepsRefs(s, s.strategies[r], Pending); }
    case _ =>
  }

  lemma RefsOkDrafts(s: State, step: Step)
    requires RefsOk(s) && OnDrafts(step)
    ensures RefsOk(ApplyDrafts(s, step))
  {
    match step
    case SaveCheck(r, user, q, questions) => CheckedDraftIsComplete(s, user, q);
    case SaveCommit(r) => if r in s.saves { ContentKeepsRefs(s, s.saves[r].0, s.saves[r].1); }
    case PublishCheck(r, user, q) => CheckedDraftIsComplete(s, user, q);
    case PublishCommit(r) => if r in s.publishes { PublishKeepsRefs(s, s.publishes[r].0, s.publishes[r].1); }
  }

  lemma RefsOkCache(s: State, step: Step)
    requires RefsOk(s) && OnCache(step)
    ensures RefsOk(ApplyCache(s, step))
  {
    if step.RefillWrite? {
      if step.request in s.refills { StoreKeepsRefs(s, s.valkey, s.refills[step.request].0, s.refills[step.request].1); }
    }
  }

  /** Only drafts pass the checks of SaveDraft and PublishDraft, and a linked draft is complete. */
  lemma CheckedDraftIsComplete(s: State, user: User, q: QuizId)
    requires RefsOk(s)
    ensures q in s.quizzes && OwnsQuiz(s, user, q) && s.quizzes[q].status == Draft ==>
              Complete(s.quizzes, q) && s.quizzes[q].extracted
  {
  }

  /** Rewriting job rows without touching their quiz links. */
  lemma SameLinksKeepRefs(s: State, jobs: map<JobId, Job>)
    requires RefsOk(s) && jobs.Keys == s.jobs.Keys
    requires forall j :: j in jobs ==> jobs[j].quiz == s.jobs[j].quiz
    ensures JobRefs(s.quizzes, jobs) && HoldsExist(jobs, s.runs)
  {
  }

  lemma PublishKeepsRefs(s: State, q: QuizId, user: User)
    requires RefsOk(s) && q in s.quizzes
    ensures RefsOk(Publish(s, q, user))
  {
    var t := Publish(s, q, user);
    InnerChangeKeepsRefs(s, q, s.quizzes[q].(status := Published));
    SameLinksKeepRefs(s.(quizzes := t.quizzes), t.jobs);
  }

  lemma RefsOkClaim(s: State, w: Worker, batch: set<JobId>)
    requires RefsOk(s)
    ensures RefsOk(ApplyClaim(s, w, batch))
  {
    var t := ApplyClaim(s, w, batch);
    if t != s {
      SameLinksKeepRefs(s, t.jobs);
      NewHoldsKeepRefs(s, t.runs);
    }
  }

  lemma NewHoldsKeepRefs(s: State, runs: map<Hold, Attempt>)
    requires RefsOk(s)
    requires forall k :: k in runs ==> if k in s.runs then runs[k] == s.runs[k] else runs[k].phase == Claimed
    ensures RunRefs(s.quizzes, runs)
  {
    forall k | k in runs
      ensures PhaseRefs(s.quizzes, runs[k].phase)
    {
      if k in s.runs { assert PhaseRefs(s.quizzes, s.runs[k].phase); }
    }
  }

  /** In every run whatever, the references between the tables hold; in particular both cache
      tiers point only at complete quizzes that were never drafts. */
  lemma {:induction false} RefsHoldInEveryRun(s: State, steps: seq<Step>)
    requires Initial(s)
    ensures RefsOk(Run(s, steps))
  {
    if steps != [] {
      var before, step := Run(s, steps[..|steps| - 1]), steps[|steps| - 1];
      RefsHoldInEveryRun(s, steps[..|steps| - 1]);
      RefsOkStep(before, step);
    }
  }

  lemma RefsOkStep(s: State, step: Step)
    requires RefsOk(s)
    ensures RefsOk(Apply(s, step))
  {
    if !step.Work? {
      if OnDrafts(step) {
        RefsOkDrafts(s, step);
      } else if OnCache(step) {
        RefsOkCache(s, step);
      } else {
        RefsOkJobs(s, step);
      }
    } else if step.work.Claim? {
      RefsOkClaim(s, step.worker, step.work.batch);
    } else if (step.worker, step.work.job) in s.runs {
      RefsOkWork(s, (step.worker, step.work.job), step.work);
    }
  }

  // ---------------------------------------------------------------- frozen quizzes

  /** When one step changes the questions of a complete quiz: exactly when a SaveDraft request
      commits different ones. The request passed its draft check earlier, so this can hit a
      quiz that has been published since. */
  lemma CompleteQuizChangesIff(s: State, step: Step, q: QuizId)
    requires RefsOk(s) && Complete(s.quizzes, q)
    ensures Complete(Apply(s, step).quizzes, q)
    ensures Apply(s, step).quizzes[q].extracted == s.quizzes[q].extracted
    ensures s.quizzes[q].status == Published ==> Apply(s, step).quizzes[q].status == Published
    ensures Apply(s, step).quizzes[q].questions != s.quizzes[q].questions <==>
              step.SaveCommit? && step.request in s.saves && s.saves[step.request].0 == q
              && s.saves[step.request].1 != s.quizzes[q].questions
  {
    if step.Work? && step.work.Claim? {
      assert ApplyClaim(s, step.worker, step.work.batch).quizzes == s.quizzes;
    } else if step.Work? {
      if (step.worker, step.work.job) in s.runs {
        WorkersLeaveCompleteQuizzes(s, (step.worker, step.work.job), step.work, q);
      }
    } else {
      UsersChangeQuizzesBySaving(s, step, q);
    }
  }

  lemma WorkersLeaveCompleteQuizzes(s: State, k: Hold, work: WorkerStep, q: QuizId)
    requires RefsOk(s) && Complete(s.quizzes, q) && k in s.runs
    ensures q in ApplyWork(s, k, work).quizzes && ApplyWork(s, k, work).quizzes[q] == s.quizzes[q]
  {
    assert PhaseRefs(s.quizzes, s.runs[k].phase);
    if Builds(work) {
      BuildersLeaveCompleteQuizzes(s, k, work, q);
    } else {
      OthersLeaveQuizzes(s, k, work);
    }
  }

  lemma BuildersLeaveCompleteQuizzes(s: State, k: Hold, work: WorkerStep, q: QuizId)
    requires k in s.runs && PhaseRefs(s.quizzes, s.runs[k].phase) && Complete(s.quizzes, q) && Builds(work)
    ensures q in ApplyBuild(s, k, work).quizzes && ApplyBuild(s, k, work).quizzes[q] == s.quizzes[q]
  {
  }

  lemma OthersLeaveQuizzes(s: State, k: Hold, work: WorkerStep)
    requires k in s.runs && k.1 in s.jobs
    ensures ApplyOn(s, k, work).quizzes == s.quizzes && ApplyEnd(s, k, work).quizzes == s.quizzes
  {
  }

  lemma UsersChangeQuizzesBySaving(s: State, step: Step, q: QuizId)
    requires !step.Work? && q in s.quizzes
    ensures var t := ApplyUser(s, step);
            && t.runs == s.runs && q in t.quizzes
            && t.quizzes[q].open == s.quizzes[q].open && t.quizzes[q].extracted == s.quizzes[q].extracted
            && (s.quizzes[q].status == Published ==> t.quizzes[q].status == Published)
            && t.quizzes[q].questions == if step.SaveCommit? && step.request in s.saves && s.saves[step.request].0 == q
                                         then s.saves[step.request].1 else s.quizzes[q].questions
  {
  }

  lemma {:induction false} GeneratedStaysFrom(s: State, steps: seq<Step>, q: QuizId)
    requires RefsOk(s) && Generated(s.quizzes, q)
    ensures RefsOk(Run(s, steps)) && Generated(Run(s, steps).quizzes, q)
    ensures Run(s, steps).quizzes[q] == s.quizzes[q]
  {
    if steps != [] {
      var before, step := Run(s, steps[..|steps| - 1]), steps[|steps| - 1];
      GeneratedStaysFrom(s, steps[..|steps| - 1], q);
      RefsOkStep(before, step);
      CompleteQuizChangesIff(before, step, q);
      GeneratedStatus(before, step, q);
    }
  }

  lemma GeneratedStatus(s: State, step: Step, q: QuizId)
    requires RefsOk(s) && Generated(s.quizzes, q)
    ensures q in Apply(s, step).quizzes && Apply(s, step).quizzes[q].status == Published
    ensures s.quizzes[q].status == Published
  {
    CompleteQuizChangesIff(s, step, q);
  }

  /** Whatever happens between two lookups, a quiz that a cache tier once served is published
      and keeps its questions for ever. */
  lemma CachedQuizIsFrozen(s: State, steps: seq<Step>, more: seq<Step>, hash: Hash, fromValkey: bool)
    requires Initial(s)
    requires hash in (if fromValkey then Run(s, steps).valkey else Run(s, steps).rows)
    ensures var t := Run(s, steps);
            var q := if fromValkey then t.valkey[hash] else t.rows[hash];
            && q in t.quizzes && t.quizzes[q].status == Published
            && q in Run(s, steps + more).quizzes && Run(s, steps + more).quizzes[q] == t.quizzes[q]
  {
    RefsHoldInEveryRun(s, steps);
    RunAppend(s, steps, more);
    var t := Run(s, steps);
    var q := if fromValkey then t.valkey[hash] else t.rows[hash];
    assert Generated(t.quizzes, q);
    GeneratedStaysFrom(t, more, q);
  }

  /** Every SaveDraft in the run committed while its quiz was still a draft. */
  ghost predicate SavesInTime(s: State, steps: seq<Step>) {
    steps == [] ||
    (SavesInTime(s, steps[..|steps| - 1]) &&
     var before, step := Run(s, steps[..|steps| - 1]), steps[|steps| - 1];
     step.SaveCommit? && step.request in before.saves && before.saves[step.request].0 in before.quizzes ==>
       before.quizzes[before.saves[step.request].0].status == Draft)
  }

  /** Then published quizzes of every kind are frozen. */
  lemma {:induction false} PublishedQuizIsFrozen(s: State, steps: seq<Step>, q: QuizId)
    requires RefsOk(s) && Complete(s.quizzes, q) && s.quizzes[q].status == Published
    requires SavesInTime(s, steps)
    ensures RefsOk(Run(s, steps)) && Complete(Run(s, steps).quizzes, q)
    ensures Run(s, steps).quizzes[q].status == Published
    ensures Run(s, steps).quizzes[q].questions == s.quizzes[q].questions
  {
    if steps != [] {
      var before, step := Run(s, steps[..|steps| - 1]), steps[|steps| - 1];
      PublishedQuizIsFrozen(s, steps[..|steps| - 1], q);
      RefsOkStep(before, step);
      CompleteQuizChangesIff(before, step, q);
    }
  }
}
