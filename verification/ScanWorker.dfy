/** The worker's code over the scan tables: claiming a batch and processing one job
    (scan/worker_repository.go:28-66, scan/worker.go:187-326, 338-446). Run without interruption
    the code is a sequence of steps of `ScanLifecycle`; interleavings are studied there. */
module ScanWorker {
  import opened Common
  import opened ScanModel
  import opened ScanLifecycle

  /** What reading the pages gave: nothing, or the text, whether it is mixed with no strategy
      chosen, and the hash and tier of a cache hit, if the cache was asked and had one. */
  datatype Reading = NoText | Text(text: string, mixed: bool, hit: Option<(Hash, bool)>)

  /** What generating gave. `store` is the hash the quiz is cached under, if it is. */
  datatype Generation =
    | Limited
    | NoQuiz
    | NewQuiz(quiz: QuizId, extract: bool, questions: seq<string>, store: Option<Hash>)

  // ---------------------------------------------------------------- what each stretch of code does

  function ReadDone(s: State, k: Hold): State
    requires k in s.runs && k.1 in s.jobs
  {
    Goto(WriteStatus(s, k.1, OCRComplete), k, TextRead)
  }

  /** failJob, the rate limit and every other way to end with one status write. */
  function EndedWith(s: State, k: Hold, status: JobStatus): State
    requires k.1 in s.jobs
  {
    Release(WriteStatus(s, k.1, status), k)
  }

  function TextSaved(s: State, k: Hold, text: string): State
    requires k in s.runs && k.1 in s.jobs
  {
    Goto(WritePipeline(s, k.1, Some(text)), k, PipelineSaved)
  }

  function HitLinkedTo(s: State, k: Hold, q: QuizId): State
    requires k in s.runs && k.1 in s.jobs
  {
    Goto(WriteQuiz(Goto(s, k, Hit(q)), k.1, q), k, HitLinked(q))
  }

  /** The pipeline text is cleared, then the final status written. */
  function Wrapped(s: State, k: Hold, status: JobStatus): State
    requires k.1 in s.jobs
  {
    EndedWith(WritePipeline(s, k.1, None), k, status)
  }

  /** The quiz is closed and, unless it is a draft, written to both cache tiers. */
  function QuizBuilt(s: State, k: Hold, q: QuizId, extract: bool, store: Option<Hash>): State
    requires k in s.runs && q in s.quizzes
  {
    var cached := store.Some? && !extract;
    Goto(s.(quizzes := s.quizzes[q := s.quizzes[q].(open := false)],
            rows := if cached then s.rows[store.value := q] else s.rows,
            valkey := if cached then s.valkey[store.value := q] else s.valkey),
         k, if cached then RowStored(q, store.value) else Built(q, extract))
  }

  function QuizLinked(s: State, k: Hold, q: QuizId, extract: bool): State
    requires k in s.runs && k.1 in s.jobs
  {
    Goto(WriteQuiz(s, k.1, q), k, Linked(q, extract))
  }

  // ---------------------------------------------------------------- as steps of the machine

  function Do(k: Hold, work: WorkerStep): Step {
    Work(k.0, work)
  }

  ghost predicate At(s: State, k: Hold, phase: Phase) {
    k in s.runs && k.1 in s.jobs && s.runs[k].phase == phase
  }

  lemma RunNext(s: State, steps: seq<Step>, step: Step)
    ensures Run(s, steps + [step]) == Apply(Run(s, steps), step)
  {
    assert (steps + [step])[..|steps|] == steps;
  }

  lemma RunOne(s: State, a: Step)
    ensures Run(s, [a]) == Apply(s, a)
  {
    RunNext(s, [], a);
    assert [] + [a] == [a];
  }

  lemma RunTwo(s: State, a: Step, b: Step)
    ensures Run(s, [a, b]) == Apply(Apply(s, a), b)
  {
    RunOne(s, a);
    RunNext(s, [a], b);
    assert [a] + [b] == [a, b];
  }

  lemma AskSteps(s: State, k: Hold, text: string)
    requires At(s, k, TextRead)
    ensures Run(s, [Do(k, SavePipeline(k.1, text)), Do(k, AskStrategy(k.1))]) == EndedWith(TextSaved(s, k, text), k, NeedsStrategy)
  {
    RunTwo(s, Do(k, SavePipeline(k.1, text)), Do(k, AskStrategy(k.1)));
  }

  function HitSteps(k: Hold, hash: Hash, fromValkey: bool): seq<Step> {
    [Do(k, CacheHit(k.1, hash, fromValkey)), Do(k, LinkHit(k.1))] + [Do(k, ClearPipeline(k.1)), Do(k, FinishHit(k.1))]
  }

  /** Writing back what is there. */
  lemma SameRow(s: State, k: Hold)
    requires k in s.runs && k.1 in s.jobs
    ensures s.jobs[k.1 := s.jobs[k.1]] == s.jobs
    ensures s.runs[k := s.runs[k].(phase := s.runs[k].phase)] == s.runs
  {
  }

  /** A statement of the holder, as a step. */
  lemma OnStep(s: State, k: Hold, work: WorkerStep, job: Job, phase: Phase)
    requires k in s.runs && k.1 in s.jobs && !work.Claim? && work.job == k.1 && !Builds(work) && !Ends(work)
    requires Onward(s, k, work) == Some((job, phase))
    ensures Apply(s, Do(k, work)) == Goto(s.(jobs := s.jobs[k.1 := job]), k, phase)
  {
  }

  lemma EndStep(s: State, k: Hold, work: WorkerStep, status: JobStatus)
    requires k in s.runs && k.1 in s.jobs && !work.Claim? && work.job == k.1 && Ends(work)
    requires LastStatus(work, s.runs[k].phase) == Some(status)
    ensures Apply(s, Do(k, work)) == EndedWith(s, k, status)
  {
  }

  lemma HitLinkRun(s: State, k: Hold, hash: Hash, fromValkey: bool)
    requires At(s, k, TextRead) && hash in (if fromValkey then s.valkey else s.rows)
    ensures Run(s, [Do(k, CacheHit(k.1, hash, fromValkey)), Do(k, LinkHit(k.1))]) ==
            HitLinkedTo(s, k, (if fromValkey then s.valkey else s.rows)[hash])
  {
    var q, job := (if fromValkey then s.valkey else s.rows)[hash], s.jobs[k.1];
    RunTwo(s, Do(k, CacheHit(k.1, hash, fromValkey)), Do(k, LinkHit(k.1)));
    SameRow(s, k);
    OnStep(s, k, CacheHit(k.1, hash, fromValkey), job, Hit(q));
    OnStep(Goto(s, k, Hit(q)), k, LinkHit(k.1), job.(quiz := Some(q), updatedAt := s.now), HitLinked(q));
  }

  lemma HitRun(s: State, k: Hold, hash: Hash, fromValkey: bool)
    requires At(s, k, TextRead) && hash in (if fromValkey then s.valkey else s.rows)
    ensures Run(s, HitSteps(k, hash, fromValkey)) ==
            Wrapped(HitLinkedTo(s, k, (if fromValkey then s.valkey else s.rows)[hash]), k, QuizReady)
  {
    var q := (if fromValkey then s.valkey else s.rows)[hash];
    HitLinkRun(s, k, hash, fromValkey);
    WrapHit(HitLinkedTo(s, k, q), k, q);
    RunAppend(s, [Do(k, CacheHit(k.1, hash, fromValkey)), Do(k, LinkHit(k.1))], [Do(k, ClearPipeline(k.1)), Do(k, FinishHit(k.1))]);
  }

  lemma WrapHit(s: State, k: Hold, q: QuizId)
    requires At(s, k, HitLinked(q))
    ensures Run(s, [Do(k, ClearPipeline(k.1)), Do(k, FinishHit(k.1))]) == Wrapped(s, k, QuizReady)
  {
    WrapRun(s, k, FinishHit(k.1), QuizReady);
  }

  lemma WrapRun(s: State, k: Hold, finish: WorkerStep, status: JobStatus)
    requires k in s.runs && k.1 in s.jobs && LastStatus(finish, s.runs[k].phase) == Some(status)
    requires finish == FinishHit(k.1) || finish == FinishQuiz(k.1)
    ensures Run(s, [Do(k, ClearPipeline(k.1)), Do(k, finish)]) == Wrapped(s, k, status)
  {
    RunTwo(s, Do(k, ClearPipeline(k.1)), Do(k, finish));
    SameRow(s, k);
    OnStep(s, k, ClearPipeline(k.1), s.jobs[k.1].(pipeline := None, updatedAt := s.now), s.runs[k].phase);
    EndStep(WritePipeline(s, k.1, None), k, finish, status);
  }

  function AddSteps(k: Hold, questions: seq<string>): (steps: seq<Step>)
    ensures |steps| == |questions|
  {
    seq(|questions|, i requires 0 <= i < |questions| => Do(k, AddQuestion(k.1, questions[i])))
  }

  lemma {:induction false} AddRun(s: State, k: Hold, q: QuizId, extract: bool, questions: seq<string>)
    requires At(s, k, Building(q, extract)) && q in s.quizzes
    ensures Run(s, AddSteps(k, questions)) == QuestionsAdded(s, q, questions)
  {
    if questions == [] {
      assert AddSteps(k, questions) == [];
      NothingAdded(s, q);
    } else {
      var init, last := questions[..|questions| - 1], questions[|questions| - 1];
      AddRun(s, k, q, extract, init);
      assert AddSteps(k, questions) == AddSteps(k, init) + [Do(k, AddQuestion(k.1, last))];
      RunNext(s, AddSteps(k, init), Do(k, AddQuestion(k.1, last)));
      AddedTwice(s, q, init, last);
      assert init + [last] == questions;
    }
  }

  lemma NothingAdded(s: State, q: QuizId)
    requires q in s.quizzes
    ensures QuestionsAdded(s, q, []) == s
  {
    assert s.quizzes[q].questions + [] == s.quizzes[q].questions;
    assert s.quizzes[q := s.quizzes[q]] == s.quizzes;
  }

  lemma AddedTwice(s: State, q: QuizId, questions: seq<string>, last: string)
    requires q in s.quizzes && questions + [last] != []
    ensures QuestionsAdded(QuestionsAdded(s, q, questions), q, [last]) == QuestionsAdded(s, q, questions + [last])
  {
    assert s.quizzes[q].questions + questions + [last] == s.quizzes[q].questions + (questions + [last]);
  }

  function BuildSteps(k: Hold, extract: bool, store: Option<Hash>): seq<Step> {
    [Do(k, FinishBuild(k.1))] + if store.Some? && !extract then [Do(k, StoreRow(k.1, store.value)), Do(k, StoreValkey(k.1))] else []
  }

  lemma BuildStep(s: State, k: Hold, work: WorkerStep)
    requires k in s.runs && k.1 in s.jobs && Builds(work) && work.job == k.1
    ensures Apply(s, Do(k, work)) == ApplyBuild(s, k, work)
  {
  }

  lemma StoreRun(s: State, k: Hold, q: QuizId, hash: Hash)
    requires At(s, k, Built(q, false))
    ensures Run(s, [Do(k, StoreRow(k.1, hash)), Do(k, StoreValkey(k.1))]) ==
            RowWritten(s, k, q, hash).(valkey := s.valkey[hash := q])
  {
    RunTwo(s, Do(k, StoreRow(k.1, hash)), Do(k, StoreValkey(k.1)));
    BuildStep(s, k, StoreRow(k.1, hash));
    BuildStep(RowWritten(s, k, q, hash), k, StoreValkey(k.1));
  }

  lemma BuildRun(s: State, k: Hold, q: QuizId, extract: bool, store: Option<Hash>)
    requires At(s, k, Building(q, extract)) && q in s.quizzes
    ensures Run(s, BuildSteps(k, extract, store)) == QuizBuilt(s, k, q, extract, store)
  {
    var closed := QuizClosed(s, k, q, extract);
    RunOne(s, Do(k, FinishBuild(k.1)));
    BuildStep(s, k, FinishBuild(k.1));
    if store.Some? && !extract {
      StoreRun(closed, k, q, store.value);
      RunAppend(s, [Do(k, FinishBuild(k.1))], [Do(k, StoreRow(k.1, store.value)), Do(k, StoreValkey(k.1))]);
      BuiltAndCached(s, k, q, store.value);
    } else {
      assert BuildSteps(k, extract, store) == [Do(k, FinishBuild(k.1))];
    }
  }

  lemma BuiltAndCached(s: State, k: Hold, q: QuizId, hash: Hash)
    requires k in s.runs && q in s.quizzes
    ensures RowWritten(QuizClosed(s, k, q, false), k, q, hash).(valkey := s.valkey[hash := q]) == QuizBuilt(s, k, q, false, Some(hash))
  {
  }

  lemma LinkRun(s: State, k: Hold, q: QuizId, extract: bool, store: Option<Hash>)
    requires At(s, k, if store.Some? && !extract then RowStored(q, store.value) else Built(q, extract))
    ensures Run(s, [Do(k, LinkQuiz(k.1))]) == QuizLinked(s, k, q, extract)
  {
    RunOne(s, Do(k, LinkQuiz(k.1)));
  }

  /** persistQuiz and what follows it: the quiz is created, filled, cached unless it is a draft,
      linked, and the job finished, in this order. */
  function Persisted(s: State, k: Hold, g: Generation): State
    requires At(s, k, TextRead) && g.NewQuiz? && g.quiz !in s.quizzes
  {
    var t := QuestionsAdded(QuizStarted(s, k, g.quiz, g.extract), g.quiz, g.questions);
    Wrapped(QuizLinked(QuizBuilt(t, k, g.quiz, g.extract, g.store), k, g.quiz, g.extract), k, FinalStatus(g.extract))
  }

  function FillSteps(k: Hold, g: Generation): seq<Step>
    requires g.NewQuiz?
  {
    [Do(k, CreateQuiz(k.1, g.quiz, g.extract))] + AddSteps(k, g.questions)
  }

  function FinishSteps(k: Hold, g: Generation): seq<Step>
    requires g.NewQuiz?
  {
    BuildSteps(k, g.extract, g.store) + [Do(k, LinkQuiz(k.1))] + [Do(k, ClearPipeline(k.1)), Do(k, FinishQuiz(k.1))]
  }

  lemma FillRun(s: State, k: Hold, g: Generation)
    requires At(s, k, TextRead) && g.NewQuiz? && g.quiz !in s.quizzes
    ensures Run(s, FillSteps(k, g)) ==
            QuestionsAdded(QuizStarted(s, k, g.quiz, g.extract), g.quiz, g.questions)
  {
    RunOne(s, Do(k, CreateQuiz(k.1, g.quiz, g.extract)));
    AddRun(QuizStarted(s, k, g.quiz, g.extract), k, g.quiz, g.extract, g.questions);
    RunAppend(s, [Do(k, CreateQuiz(k.1, g.quiz, g.extract))], AddSteps(k, g.questions));
  }

  lemma WrapQuiz(s: State, k: Hold, q: QuizId, extract: bool)
    requires At(s, k, Linked(q, extract))
    ensures Run(s, [Do(k, ClearPipeline(k.1)), Do(k, FinishQuiz(k.1))]) == Wrapped(s, k, FinalStatus(extract))
  {
    WrapRun(s, k, FinishQuiz(k.1), FinalStatus(extract));
  }

  lemma BuildAndLinkRun(s: State, k: Hold, g: Generation)
    requires g.NewQuiz? && At(s, k, Building(g.quiz, g.extract)) && g.quiz in s.quizzes
    ensures Run(s, BuildSteps(k, g.extract, g.store) + [Do(k, LinkQuiz(k.1))]) ==
            QuizLinked(QuizBuilt(s, k, g.quiz, g.extract, g.store), k, g.quiz, g.extract)
    ensures At(QuizLinked(QuizBuilt(s, k, g.quiz, g.extract, g.store), k, g.quiz, g.extract), k, Linked(g.quiz, g.extract))
  {
    BuildRun(s, k, g.quiz, g.extract, g.store);
    LinkRun(QuizBuilt(s, k, g.quiz, g.extract, g.store), k, g.quiz, g.extract, g.store);
    RunAppend(s, BuildSteps(k, g.extract, g.store), [Do(k, LinkQuiz(k.1))]);
  }

  lemma FinishRun(s: State, k: Hold, g: Generation)
    requires g.NewQuiz? && At(s, k, Building(g.quiz, g.extract)) && g.quiz in s.quizzes
    ensures Run(s, FinishSteps(k, g)) ==
            Wrapped(QuizLinked(QuizBuilt(s, k, g.quiz, g.extract, g.store), k, g.quiz, g.extract), k, FinalStatus(g.extract))
  {
    BuildAndLinkRun(s, k, g);
    WrapQuiz(QuizLinked(QuizBuilt(s, k, g.quiz, g.extract, g.store), k, g.quiz, g.extract), k, g.quiz, g.extract);
    RunAppend(s, BuildSteps(k, g.extract, g.store) + [Do(k, LinkQuiz(k.1))], [Do(k, ClearPipeline(k.1)), Do(k, FinishQuiz(k.1))]);
  }

  lemma PersistRun(s: State, k: Hold, g: Generation)
    requires At(s, k, TextRead) && g.NewQuiz? && g.quiz !in s.quizzes
    ensures Run(s, FillSteps(k, g) + FinishSteps(k, g)) == Persisted(s, k, g)
  {
    FillRun(s, k, g);
    FinishRun(QuestionsAdded(QuizStarted(s, k, g.quiz, g.extract), g.quiz, g.questions), k, g);
    RunAppend(s, FillSteps(k, g), FinishSteps(k, g));
  }

  // ---------------------------------------------------------------- one job, undisturbed

  ghost predicate Possible(s: State, reading: Reading, g: Generation) {
    && (reading.Text? && reading.hit.Some? ==> reading.hit.value.0 in (if reading.hit.value.1 then s.valkey else s.rows))
    && (g.NewQuiz? ==> g.quiz !in s.quizzes)
  }

  /** ProcessJob after the pages have been read. */
  function AfterText(s: State, k: Hold, reading: Reading, g: Generation): State
    requires At(s, k, TextRead) && reading.Text? && Possible(s, reading, g)
  {
    if reading.mixed then EndedWith(TextSaved(s, k, reading.text), k, NeedsStrategy)
    else if reading.hit.Some? then
      var (hash, fromValkey) := reading.hit.value;
      Wrapped(HitLinkedTo(s, k, (if fromValkey then s.valkey else s.rows)[hash]), k, QuizReady)
    else
      match g
      case Limited => EndedWith(s, k, Pending)
      case NoQuiz => EndedWith(s, k, JobStatus.Failed)
      case NewQuiz(_, _, _, _) => Persisted(s, k, g)
  }

  function AfterTextSteps(k: Hold, reading: Reading, g: Generation): seq<Step>
    requires reading.Text?
  {
    if reading.mixed then [Do(k, SavePipeline(k.1, reading.text)), Do(k, AskStrategy(k.1))]
    else if reading.hit.Some? then HitSteps(k, reading.hit.value.0, reading.hit.value.1)
    else
      match g
      case Limited => [Do(k, RateLimited(k.1))]
      case NoQuiz => [Do(k, FailJob(k.1))]
      case NewQuiz(_, _, _, _) => FillSteps(k, g) + FinishSteps(k, g)
  }

  lemma AfterTextRun(s: State, k: Hold, reading: Reading, g: Generation)
    requires At(s, k, TextRead) && reading.Text? && Possible(s, reading, g)
    ensures Run(s, AfterTextSteps(k, reading, g)) == AfterText(s, k, reading, g)
  {
    if reading.mixed {
      AskSteps(s, k, reading.text);
    } else if reading.hit.Some? {
      HitRun(s, k, reading.hit.value.0, reading.hit.value.1);
    } else {
      match g
      case Limited => RunOne(s, Do(k, RateLimited(k.1)));
      case NoQuiz => RunOne(s, Do(k, FailJob(k.1)));
      case NewQuiz(_, _, _, _) => PersistRun(s, k, g);
    }
  }

  predicate Runnable(status: JobStatus) {
    IsPending(status) || status == Processing
  }

  function Begun(s: State, k: Hold): State
    requires k.1 in s.jobs
  {
    s.(jobs := if IsPending(s.jobs[k.1].status) then s.jobs[k.1 := s.jobs[k.1].(status := Processing, updatedAt := s.now)] else s.jobs)
  }

  /** ProcessJob on a job that was just claimed. */
  function Processed(s: State, k: Hold, reading: Reading, g: Generation): State
    requires At(s, k, Claimed) && Possible(s, reading, g)
  {
    if !Runnable(s.jobs[k.1].status) then Release(s, k)
    else if reading.NoText? then EndedWith(Begun(s, k), k, JobStatus.Failed)
    else AfterText(ReadDone(Begun(s, k), k), k, reading, g)
  }

  function ProcessSteps(status: JobStatus, k: Hold, reading: Reading, g: Generation): seq<Step> {
    if !Runnable(status) then [Do(k, Stop(k.1))]
    else
      (if IsPending(status) then [Do(k, BeginWork(k.1))] else [])
      + if reading.NoText? then [Do(k, FailJob(k.1))] else [Do(k, FinishOCR(k.1))] + AfterTextSteps(k, reading, g)
  }

  lemma BegunRun(s: State, k: Hold)
    requires At(s, k, Claimed) && IsPending(s.jobs[k.1].status)
    ensures Run(s, [Do(k, BeginWork(k.1))]) == Begun(s, k) && At(Begun(s, k), k, Claimed)
  {
    RunOne(s, Do(k, BeginWork(k.1)));
    SameRow(s, k);
    OnStep(s, k, BeginWork(k.1), s.jobs[k.1].(status := Processing, updatedAt := s.now), Claimed);
  }

  lemma ReadRun(s: State, k: Hold, reading: Reading, g: Generation)
    requires At(s, k, Claimed) && reading.Text? && Possible(s, reading, g)
    ensures Run(s, [Do(k, FinishOCR(k.1))] + AfterTextSteps(k, reading, g)) == AfterText(ReadDone(s, k), k, reading, g)
  {
    RunOne(s, Do(k, FinishOCR(k.1)));
    OnStep(s, k, FinishOCR(k.1), s.jobs[k.1].(status := OCRComplete, updatedAt := s.now), TextRead);
    RunAppend(s, [Do(k, FinishOCR(k.1))], AfterTextSteps(k, reading, g));
    AfterTextRun(ReadDone(s, k), k, reading, g);
  }

  lemma AfterBegin(s: State, k: Hold, reading: Reading, g: Generation)
    requires At(s, k, Claimed) && Possible(s, reading, g)
    ensures Run(s, if reading.NoText? then [Do(k, FailJob(k.1))] else [Do(k, FinishOCR(k.1))] + AfterTextSteps(k, reading, g)) ==
            if reading.NoText? then EndedWith(s, k, JobStatus.Failed) else AfterText(ReadDone(s, k), k, reading, g)
  {
    if reading.NoText? {
      RunOne(s, Do(k, FailJob(k.1)));
      EndStep(s, k, FailJob(k.1), JobStatus.Failed);
    } else {
      ReadRun(s, k, reading, g);
    }
  }

  /** The code of ProcessJob, undisturbed, is a run of the state machine: its statements are
      steps of the worker, in the order the machine allows. */
  lemma ProcessedIsRun(s: State, k: Hold, reading: Reading, g: Generation)
    requires At(s, k, Claimed) && Possible(s, reading, g)
    ensures Run(s, ProcessSteps(s.jobs[k.1].status, k, reading, g)) == Processed(s, k, reading, g)
  {
    var rest := if reading.NoText? then [Do(k, FailJob(k.1))] else [Do(k, FinishOCR(k.1))] + AfterTextSteps(k, reading, g);
    if !Runnable(s.jobs[k.1].status) {
      RunOne(s, Do(k, Stop(k.1)));
    } else if IsPending(s.jobs[k.1].status) {
      BegunRun(s, k);
      RunAppend(s, [Do(k, BeginWork(k.1))], rest);
      AfterBegin(Begun(s, k), k, reading, g);
    } else {
      AfterBegin(s, k, reading, g);
      assert [] + rest == rest;
    }
  }

  /** Of the job table only this job's row changes, but not its owner, of the holds only this
      one, and no request. */
  ghost predicate Touches(s: State, t: State, k: Hold) {
    && t.jobs.Keys == s.jobs.Keys && (forall j :: j in s.jobs && j != k.1 ==> t.jobs[j] == s.jobs[j])
    && (k.1 in s.jobs ==> t.jobs[k.1].owner == s.jobs[k.1].owner)
    && (forall h :: h in s.runs && h != k ==> h in t.runs && t.runs[h] == s.runs[h])
    && t.saves == s.saves && t.publishes == s.publishes && t.strategies == s.strategies && t.refills == s.refills
  }

  lemma TouchesTwice(s: State, t: State, u: State, k: Hold)
    requires Touches(s, t, k) && Touches(t, u, k)
    ensures Touches(s, u, k)
  {
  }

  lemma MoveTouches(s: State, k: Hold, job: Job, phase: Phase)
    requires k in s.runs && k.1 in s.jobs && job.owner == s.jobs[k.1].owner
    ensures Touches(s, Goto(s.(jobs := s.jobs[k.1 := job]), k, phase), k)
  {
  }

  lemma EndTouches(s: State, k: Hold, job: Job)
    requires k.1 in s.jobs && job.owner == s.jobs[k.1].owner
    ensures Touches(s, Release(s.(jobs := s.jobs[k.1 := job]), k), k)
  {
  }

  lemma WrapTouches(s: State, k: Hold, status: JobStatus)
    requires k.1 in s.jobs
    ensures Touches(s, Wrapped(s, k, status), k)
  {
    EndTouches(s, k, s.jobs[k.1].(pipeline := None, status := status, updatedAt := s.now));
    assert Wrapped(s, k, status) == Release(s.(jobs := s.jobs[k.1 := s.jobs[k.1].(pipeline := None, status := status, updatedAt := s.now)]), k);
  }

  lemma LinkTouches(s: State, k: Hold, q: QuizId, phase: Phase)
    requires k in s.runs && k.1 in s.jobs
    ensures Touches(s, Goto(WriteQuiz(s, k.1, q), k, phase), k)
  {
    MoveTouches(s, k, s.jobs[k.1].(quiz := Some(q), updatedAt := s.now), phase);
  }

  /** The quiz with all its questions, closed and cached if it is no draft. */
  lemma BuiltOutcome(s: State, k: Hold, g: Generation)
    requires At(s, k, TextRead) && g.NewQuiz? && g.quiz !in s.quizzes
    ensures var t := QuizBuilt(QuestionsAdded(QuizStarted(s, k, g.quiz, g.extract), g.quiz, g.questions), k, g.quiz, g.extract, g.store);
            && Touches(s, t, k) && k in t.runs && k.1 in t.jobs
            && t.quizzes == s.quizzes[g.quiz := Quiz(if g.extract then Draft else Published, g.extract, false, g.questions)]
            && t.rows == (if g.store.Some? && !g.extract then s.rows[g.store.value := g.quiz] else s.rows)
            && t.valkey == (if g.store.Some? && !g.extract then s.valkey[g.store.value := g.quiz] else s.valkey)
  {
    assert [] + g.questions == g.questions;
  }

  lemma PersistedOutcome(s: State, k: Hold, g: Generation)
    requires At(s, k, TextRead) && g.NewQuiz? && g.quiz !in s.quizzes
    ensures var t := Persisted(s, k, g);
            && Touches(s, t, k) && k !in t.runs && t.jobs[k.1].status == FinalStatus(g.extract)
            && t.jobs[k.1].quiz == Some(g.quiz) && t.jobs[k.1].pipeline == None
            && t.quizzes == s.quizzes[g.quiz := Quiz(if g.extract then Draft else Published, g.extract, false, g.questions)]
            && t.rows == (if g.store.Some? && !g.extract then s.rows[g.store.value := g.quiz] else s.rows)
            && t.valkey == (if g.store.Some? && !g.extract then s.valkey[g.store.value := g.quiz] else s.valkey)
  {
    BuiltOutcome(s, k, g);
    var built := QuizBuilt(QuestionsAdded(QuizStarted(s, k, g.quiz, g.extract), g.quiz, g.questions), k, g.quiz, g.extract, g.store);
    var linked := QuizLinked(built, k, g.quiz, g.extract);
    LinkTouches(built, k, g.quiz, Linked(g.quiz, g.extract));
    WrapTouches(linked, k, FinalStatus(g.extract));
    TouchesTwice(s, built, linked, k);
    TouchesTwice(s, linked, Persisted(s, k, g), k);
  }

  function StatusAfter(reading: Reading, g: Generation): JobStatus {
    if reading.NoText? then JobStatus.Failed
    else if reading.mixed then NeedsStrategy
    else if reading.hit.Some? then QuizReady
    else match g
      case Limited => Pending
      case NoQuiz => JobStatus.Failed
      case NewQuiz(_, extract, _, _) => FinalStatus(extract)
  }

  lemma EndedOutcome(s: State, k: Hold, status: JobStatus)
    requires k.1 in s.jobs
    ensures var t := EndedWith(s, k, status);
            Touches(s, t, k) && k !in t.runs && t.jobs[k.1].status == status
  {
    EndTouches(s, k, s.jobs[k.1].(status := status, updatedAt := s.now));
  }

  lemma AskedOutcome(s: State, k: Hold, text: string)
    requires At(s, k, TextRead)
    ensures var t := EndedWith(TextSaved(s, k, text), k, NeedsStrategy);
            Touches(s, t, k) && k !in t.runs && t.jobs[k.1].status == NeedsStrategy && t.jobs[k.1].pipeline == Some(text)
  {
    MoveTouches(s, k, s.jobs[k.1].(pipeline := Some(text), updatedAt := s.now), PipelineSaved);
    EndedOutcome(TextSaved(s, k, text), k, NeedsStrategy);
    TouchesTwice(s, TextSaved(s, k, text), EndedWith(TextSaved(s, k, text), k, NeedsStrategy), k);
  }

  lemma ServedOutcome(s: State, k: Hold, q: QuizId)
    requires At(s, k, TextRead)
    ensures var t := Wrapped(HitLinkedTo(s, k, q), k, QuizReady);
            Touches(s, t, k) && k !in t.runs && t.jobs[k.1].status == QuizReady && t.jobs[k.1].quiz == Some(q)
  {
    LinkTouches(s, k, q, HitLinked(q));
    assert HitLinkedTo(s, k, q) == Goto(WriteQuiz(s, k.1, q), k, HitLinked(q));
    WrapTouches(HitLinkedTo(s, k, q), k, QuizReady);
    TouchesTwice(s, HitLinkedTo(s, k, q), Wrapped(HitLinkedTo(s, k, q), k, QuizReady), k);
  }

  lemma AfterTextOutcome(s: State, k: Hold, reading: Reading, g: Generation)
    requires At(s, k, TextRead) && reading.Text? && Possible(s, reading, g)
    ensures var t := AfterText(s, k, reading, g);
            Touches(s, t, k) && k !in t.runs && t.jobs[k.1].status == StatusAfter(reading, g)
  {
    if reading.mixed {
      AskedOutcome(s, k, reading.text);
    } else if reading.hit.Some? {
      ServedOutcome(s, k, (if reading.hit.value.1 then s.valkey else s.rows)[reading.hit.value.0]);
    } else if g.NewQuiz? {
      PersistedOutcome(s, k, g);
    } else {
      EndedOutcome(s, k, StatusAfter(reading, g));
    }
  }

  lemma UpToText(s: State, k: Hold)
    requires At(s, k, Claimed)
    ensures var t := ReadDone(Begun(s, k), k);
            && At(t, k, TextRead) && t.quizzes == s.quizzes && t.rows == s.rows && t.valkey == s.valkey && Touches(s, t, k)
  {
    var job := s.jobs[k.1].(status := OCRComplete, updatedAt := s.now);
    MoveTouches(s, k, job, TextRead);
    assert ReadDone(Begun(s, k), k) == Goto(s.(jobs := s.jobs[k.1 := job]), k, TextRead);
  }

  /** What an undisturbed worker makes of a claimed job: its row ends in the status that the
      reading and the generation call for, it lets go of the job, and it touches no other. */
  lemma ProcessedOutcome(s: State, k: Hold, reading: Reading, g: Generation)
    requires At(s, k, Claimed) && Possible(s, reading, g) && Runnable(s.jobs[k.1].status)
    ensures var t := Processed(s, k, reading, g);
            Touches(s, t, k) && k !in t.runs && t.jobs[k.1].status == StatusAfter(reading, g)
  {
    if reading.Text? {
      UpToText(s, k);
      AfterTextOutcome(ReadDone(Begun(s, k), k), k, reading, g);
      TouchesTwice(s, ReadDone(Begun(s, k), k), Processed(s, k, reading, g), k);
    } else {
      var job := s.jobs[k.1].(status := JobStatus.Failed, updatedAt := s.now);
      EndTouches(s, k, job);
      assert Processed(s, k, reading, g) == Release(s.(jobs := s.jobs[k.1 := job]), k);
    }
  }

  /** A generated quiz is complete, linked to its job, and cached exactly if it is no draft. */
  lemma NewQuizOutcome(s: State, k: Hold, reading: Reading, g: Generation)
    requires At(s, k, Claimed) && Possible(s, reading, g) && Runnable(s.jobs[k.1].status)
    requires reading.Text? && !reading.mixed && reading.hit.None? && g.NewQuiz?
    ensures var t := Processed(s, k, reading, g);
            && k.1 in t.jobs && t.jobs[k.1].quiz == Some(g.quiz) && t.jobs[k.1].pipeline == None
            && t.quizzes == s.quizzes[g.quiz := Quiz(if g.extract then Draft else Published, g.extract, false, g.questions)]
            && t.rows == (if g.store.Some? && !g.extract then s.rows[g.store.value := g.quiz] else s.rows)
            && t.valkey == (if g.store.Some? && !g.extract then s.valkey[g.store.value := g.quiz] else s.valkey)
  {
    UpToText(s, k);
    PersistedOutcome(ReadDone(Begun(s, k), k), k, g);
  }

  /** The row of a processed job, field by field; `served` is the quiz of the cache hit. */
  predicate RowFits(before: Job, after: Job, now: int, reading: Reading, g: Generation, served: Option<QuizId>) {
    && after.owner == before.owner && after.updatedAt == now
    && if reading.NoText? then after.status == JobStatus.Failed && after.quiz == before.quiz && after.pipeline == before.pipeline
       else if reading.mixed then after.status == NeedsStrategy && after.quiz == before.quiz && after.pipeline == Some(reading.text)
       else if reading.hit.Some? then after.status == QuizReady && after.quiz == served && after.pipeline == None
       else match g
         case Limited => after.status == Pending && after.quiz == before.quiz && after.pipeline == before.pipeline
         case NoQuiz => after.status == JobStatus.Failed && after.quiz == before.quiz && after.pipeline == before.pipeline
         case NewQuiz(quiz, extract, _, _) =>
           after.status == (if extract then ReviewReady else QuizReady) && after.quiz == Some(quiz) && after.pipeline == None
  }

  /** The quiz the cache served when it was asked. */
  function Served(s: State, reading: Reading): Option<QuizId> {
    if reading.NoText? || reading.hit.None? then None
    else
      var (hash, fromValkey) := reading.hit.value;
      var tier := if fromValkey then s.valkey else s.rows;
      if hash in tier then Some(tier[hash]) else None
  }

  ghost predicate SameQuizzes(s: State, t: State) {
    t.quizzes == s.quizzes && t.rows == s.rows && t.valkey == s.valkey
  }

  lemma EndedRow(s: State, k: Hold, status: JobStatus)
    requires k.1 in s.jobs
    ensures var t := EndedWith(s, k, status);
            k.1 in t.jobs && t.jobs[k.1] == s.jobs[k.1].(status := status, updatedAt := s.now) && SameQuizzes(s, t)
  {
  }

  lemma AskedRow(s: State, k: Hold, text: string)
    requires At(s, k, TextRead)
    ensures var t := EndedWith(TextSaved(s, k, text), k, NeedsStrategy);
            && k.1 in t.jobs && SameQuizzes(s, t)
            && t.jobs[k.1] == s.jobs[k.1].(status := NeedsStrategy, pipeline := Some(text), updatedAt := s.now)
  {
    EndedRow(TextSaved(s, k, text), k, NeedsStrategy);
  }

  lemma WrappedRow(s: State, k: Hold, status: JobStatus)
    requires k.1 in s.jobs
    ensures var t := Wrapped(s, k, status);
            && k.1 in t.jobs && SameQuizzes(s, t)
            && t.jobs[k.1] == s.jobs[k.1].(status := status, pipeline := None, updatedAt := s.now)
  {
    EndedRow(WritePipeline(s, k.1, None), k, status);
  }

  lemma ServedRow(s: State, k: Hold, q: QuizId)
    requires At(s, k, TextRead)
    ensures var t := Wrapped(HitLinkedTo(s, k, q), k, QuizReady);
            && k.1 in t.jobs && SameQuizzes(s, t)
            && t.jobs[k.1] == s.jobs[k.1].(status := QuizReady, quiz := Some(q), pipeline := None, updatedAt := s.now)
  {
    WrappedRow(HitLinkedTo(s, k, q), k, QuizReady);
  }

  lemma MadeRow(s: State, k: Hold, g: Generation)
    requires At(s, k, TextRead) && g.NewQuiz? && g.quiz !in s.quizzes
    ensures var t := Persisted(s, k, g);
            && k.1 in t.jobs
            && t.jobs[k.1] == s.jobs[k.1].(status := if g.extract then ReviewReady else QuizReady, quiz := Some(g.quiz),
                                           pipeline := None, updatedAt := s.now)
  {
    var added := QuestionsAdded(QuizStarted(s, k, g.quiz, g.extract), g.quiz, g.questions);
    var linked := QuizLinked(QuizBuilt(added, k, g.quiz, g.extract, g.store), k, g.quiz, g.extract);
    WrappedRow(linked, k, FinalStatus(g.extract));
  }

  lemma AskedFits(s: State, k: Hold, reading: Reading, g: Generation)
    requires At(s, k, TextRead) && reading.Text? && Possible(s, reading, g) && reading.mixed
    ensures var t := AfterText(s, k, reading, g);
            k.1 in t.jobs && RowFits(s.jobs[k.1], t.jobs[k.1], s.now, reading, g, Served(s, reading)) && SameQuizzes(s, t)
  {
    AskedRow(s, k, reading.text);
  }

  lemma ServedIs(s: State, k: Hold, reading: Reading, g: Generation)
    requires At(s, k, TextRead) && reading.Text? && Possible(s, reading, g) && !reading.mixed && reading.hit.Some?
    ensures Served(s, reading).Some?
    ensures AfterText(s, k, reading, g) == Wrapped(HitLinkedTo(s, k, Served(s, reading).value), k, QuizReady)
  {
  }

  lemma ServedFits(s: State, k: Hold, reading: Reading, g: Generation)
    requires At(s, k, TextRead) && reading.Text? && Possible(s, reading, g) && !reading.mixed && reading.hit.Some?
    ensures var t := AfterText(s, k, reading, g);
            k.1 in t.jobs && RowFits(s.jobs[k.1], t.jobs[k.1], s.now, reading, g, Served(s, reading)) && SameQuizzes(s, t)
  {
    ServedIs(s, k, reading, g);
    ServedRow(s, k, Served(s, reading).value);
  }

  lemma UngeneratedRow(s: State, k: Hold, reading: Reading, g: Generation)
    requires At(s, k, TextRead) && reading.Text? && Possible(s, reading, g) && !reading.mixed && reading.hit.None? && !g.NewQuiz?
    ensures var t := AfterText(s, k, reading, g);
            k.1 in t.jobs && RowFits(s.jobs[k.1], t.jobs[k.1], s.now, reading, g, None) && SameQuizzes(s, t)
  {
    EndedRow(s, k, if g.Limited? then Pending else JobStatus.Failed);
  }

  lemma AfterTextRow(s: State, k: Hold, reading: Reading, g: Generation)
    requires At(s, k, TextRead) && reading.Text? && Possible(s, reading, g)
    ensures var t := AfterText(s, k, reading, g);
            && k.1 in t.jobs && RowFits(s.jobs[k.1], t.jobs[k.1], s.now, reading, g, Served(s, reading))
            && (reading.mixed || reading.hit.Some? || !g.NewQuiz? ==> SameQuizzes(s, t))
  {
    if reading.mixed {
      AskedFits(s, k, reading, g);
    } else if reading.hit.Some? {
      ServedFits(s, k, reading, g);
    } else if g.NewQuiz? {
      MadeRow(s, k, g);
    } else {
      UngeneratedRow(s, k, reading, g);
    }
  }

  lemma BegunRow(s: State, k: Hold)
    requires k.1 in s.jobs
    ensures k.1 in Begun(s, k).jobs && SameQuizzes(s, Begun(s, k)) && Begun(s, k).now == s.now
    ensures var job := Begun(s, k).jobs[k.1];
            job.owner == s.jobs[k.1].owner && job.quiz == s.jobs[k.1].quiz && job.pipeline == s.jobs[k.1].pipeline
  {
  }

  lemma ReadRow(s: State, k: Hold)
    requires k in s.runs && k.1 in s.jobs
    ensures var t := ReadDone(s, k);
            && k.1 in t.jobs && t.jobs[k.1] == s.jobs[k.1].(status := OCRComplete, updatedAt := s.now)
            && SameQuizzes(s, t) && t.now == s.now
  {
  }

  /** The whole row of a processed job; quizzes and cache change only if a quiz was made. */
  lemma ProcessedRow(s: State, k: Hold, reading: Reading, g: Generation)
    requires At(s, k, Claimed) && Possible(s, reading, g) && Runnable(s.jobs[k.1].status)
    ensures var t := Processed(s, k, reading, g);
            && k.1 in t.jobs && RowFits(s.jobs[k.1], t.jobs[k.1], s.now, reading, g, Served(s, reading))
            && (reading.NoText? || reading.mixed || reading.hit.Some? || !g.NewQuiz? ==> SameQuizzes(s, t))
  {
    BegunRow(s, k);
    if reading.Text? {
      ReadRow(Begun(s, k), k);
      AfterTextRow(ReadDone(Begun(s, k), k), k, reading, g);
    } else {
      EndedRow(Begun(s, k), k, JobStatus.Failed);
    }
  }

  class ScanTables {
    var now: int
    const maxConcurrent: nat
    var jobs: map<JobId, Job>
    var runs: map<Hold, Attempt>
    var quizzes: map<QuizId, Quiz>
    var rows: map<Hash, QuizId>
    var valkey: map<Hash, QuizId>
    var saves: map<Request, (QuizId, seq<string>)>
    var publishes: map<Request, (QuizId, User)>
    var strategies: map<Request, JobId>
    var refills: map<Request, (Hash, QuizId)>

    /** NewWorker: five jobs at once, unless the configuration says otherwise. */
    constructor (configured: int, now: int)
      ensures Now().maxConcurrent == (if configured <= 0 then 5 else configured) && Now().now == now && Initial(Now())
    {
      maxConcurrent, this.now := if configured <= 0 then 5 else configured, now;
      jobs, runs, quizzes, rows, valkey := map[], map[], map[], map[], map[];
      saves, publishes, strategies, refills := map[], map[], map[], map[];
    }

    ghost function Now(): State
      reads this
    {
      State(now, maxConcurrent, jobs, runs, quizzes, rows, valkey, saves, publishes, strategies, refills)
    }

    // -------------------------------------------------------------- claiming

    /** The claim query: the oldest claimable rows that no other transaction has locked. `byAge`
        lists the jobs by creation time. */
    method PickJobs(byAge: seq<JobId>, locked: set<JobId>, limit: nat) returns (picked: set<JobId>)
      requires (forall j :: j in byAge ==> j in jobs) && forall a, b :: 0 <= a < b < |byAge| ==> byAge[a] != byAge[b]
      ensures |picked| <= limit
      ensures forall j :: j in picked ==> j in byAge && Claimable(jobs[j], now) && j !in locked
      ensures forall a, b :: 0 <= a < b < |byAge| && byAge[b] in picked && Claimable(jobs[byAge[a]], now) && byAge[a] !in locked ==>
                byAge[a] in picked
      ensures |picked| < limit ==> forall j :: j in byAge && Claimable(jobs[j], now) && j !in locked ==> j in picked
    {
      picked := {};
      var i := 0;
      while i < |byAge| && |picked| < limit
        invariant 0 <= i <= |byAge| && |picked| <= limit
        invariant forall j :: j in picked ==> j in byAge[..i] && Claimable(jobs[j], now) && j !in locked
        invariant forall a :: 0 <= a < i && Claimable(jobs[byAge[a]], now) && byAge[a] !in locked ==> byAge[a] in picked
      {
        if Claimable(jobs[byAge[i]], now) && byAge[i] !in locked {
          picked := picked + {byAge[i]};
        }
        i := i + 1;
      }
      forall a, b | 0 <= a < b < |byAge| && byAge[b] in picked && Claimable(jobs[byAge[a]], now) && byAge[a] !in locked
        ensures byAge[a] in picked
      {
        var c :| 0 <= c < i && byAge[c] == byAge[b];
      }
    }

    /** ClaimPendingJobs for a limit; one that is not positive counts as 1. */
    method ClaimPendingJobs(w: Worker, byAge: seq<JobId>, locked: set<JobId>, limit: int) returns (claimed: set<JobId>)
      requires (forall j :: j in byAge ==> j in jobs) && forall a, b :: 0 <= a < b < |byAge| ==> byAge[a] != byAge[b]
      requires InFlight(Now(), w) == {}
      modifies this`jobs, this`runs
      ensures Now() == ClaimedBy(old(Now()), w, claimed) && |claimed| <= Max(limit, 1)
      ensures forall j :: j in claimed ==> j in byAge && Claimable(old(jobs)[j], now) && j !in locked
      ensures forall a, b :: 0 <= a < b < |byAge| && byAge[b] in claimed && Claimable(old(jobs)[byAge[a]], now) && byAge[a] !in locked ==>
                byAge[a] in claimed
      ensures |claimed| < Max(limit, 1) ==>
                forall j :: j in byAge && Claimable(old(jobs)[j], now) && j !in locked ==> j in claimed
    {
      claimed := PickJobs(byAge, locked, Max(limit, 1));
      ghost var before := Now();
      jobs := map j | j in jobs :: if j in claimed then jobs[j].(status := Processing, updatedAt := now) else jobs[j];
      runs := map k | k in runs.Keys + Holds(w, claimed) :: if k in runs then runs[k] else Attempt(now, Claimed);
      assert Now() == ClaimedBy(before, w, claimed);
    }

    /** One poll of an idle worker: a claim with its own limit is the claim of the machine. */
    method Poll(w: Worker, byAge: seq<JobId>, locked: set<JobId>) returns (claimed: set<JobId>)
      requires (forall j :: j in byAge ==> j in jobs) && forall a, b :: 0 <= a < b < |byAge| ==> byAge[a] != byAge[b]
      requires InFlight(Now(), w) == {} && maxConcurrent > 0
      modifies this`jobs, this`runs
      ensures Now() == ApplyClaim(old(Now()), w, claimed) && |claimed| <= maxConcurrent
      ensures |claimed| < maxConcurrent ==>
                forall j :: j in byAge && Claimable(old(jobs)[j], now) && j !in locked ==> j in claimed
    {
      claimed := ClaimPendingJobs(w, byAge, locked, maxConcurrent);
    }

    // -------------------------------------------------------------- one statement

    method UpdateJobStatus(j: JobId, status: JobStatus)
      requires j in jobs
      modifies this`jobs
      ensures Now() == WriteStatus(old(Now()), j, status)
    {
      jobs := jobs[j := jobs[j].(status := status, updatedAt := now)];
    }

    method UpdateJobQuizID(j: JobId, q: QuizId)
      requires j in jobs
      modifies this`jobs
      ensures Now() == WriteQuiz(old(Now()), j, q)
    {
      jobs := jobs[j := jobs[j].(quiz := Some(q), updatedAt := now)];
    }

    method UpdateJobPipeline(j: JobId, text: Option<string>)
      requires j in jobs
      modifies this`jobs
      ensures Now() == WritePipeline(old(Now()), j, text)
    {
      jobs := jobs[j := jobs[j].(pipeline := text, updatedAt := now)];
    }

    /** Where the worker is in its code. */
    method MoveTo(k: Hold, phase: Phase)
      requires k in runs
      modifies this`runs
      ensures Now() == Goto(old(Now()), k, phase)
    {
      runs := runs[k := runs[k].(phase := phase)];
    }

    method Return(k: Hold)
      modifies this`runs
      ensures Now() == Release(old(Now()), k)
    {
      runs := Without(runs, k);
    }

    // -------------------------------------------------------------- ProcessJob

    /** `reading` and `g` stand for the OCR, cache and AI calls. */
    method ProcessJob(k: Hold, reading: Reading, g: Generation)
      requires At(Now(), k, Claimed) && Possible(Now(), reading, g)
      modifies this`jobs, this`runs, this`quizzes, this`rows, this`valkey
      ensures Now() == Processed(old(Now()), k, reading, g)
    {
      var status := jobs[k.1].status;
      if !IsPending(status) && status != Processing {
        Return(k);
        return;
      }
      if status != Processing {
        UpdateJobStatus(k.1, Processing);
      }
      if reading.NoText? {
        FailJob(k);
        return;
      }
      UpdateJobStatus(k.1, OCRComplete);
      MoveTo(k, TextRead);
      UseText(k, reading, g);
    }

    method FailJob(k: Hold)
      requires k.1 in jobs
      modifies this`jobs, this`runs
      ensures Now() == EndedWith(old(Now()), k, JobStatus.Failed)
    {
      UpdateJobStatus(k.1, JobStatus.Failed);
      Return(k);
    }

    /** ProcessJob from the page type on. */
    method UseText(k: Hold, reading: Reading, g: Generation)
      requires At(Now(), k, TextRead) && reading.Text? && Possible(Now(), reading, g)
      modifies this`jobs, this`runs, this`quizzes, this`rows, this`valkey
      ensures Now() == AfterText(old(Now()), k, reading, g)
    {
      if reading.mixed {
        UpdateJobPipeline(k.1, Some(reading.text));
        MoveTo(k, PipelineSaved);
        UpdateJobStatus(k.1, NeedsStrategy);
        Return(k);
      } else if reading.hit.Some? {
        ServeHit(k, reading.hit.value.0, reading.hit.value.1);
      } else if g.Limited? {
        UpdateJobStatus(k.1, Pending);
        Return(k);
      } else if g.NoQuiz? {
        FailJob(k);
      } else {
        PersistQuiz(k, g);
      }
    }

    method ServeHit(k: Hold, hash: Hash, fromValkey: bool)
      requires At(Now(), k, TextRead) && hash in (if fromValkey then valkey else rows)
      modifies this`jobs, this`runs
      ensures Now() == Wrapped(HitLinkedTo(old(Now()), k, (if fromValkey then valkey else rows)[hash]), k, QuizReady)
    {
      var q := if fromValkey then valkey[hash] else rows[hash];
      MoveTo(k, Hit(q));
      UpdateJobQuizID(k.1, q);
      MoveTo(k, HitLinked(q));
      UpdateJobPipeline(k.1, None);
      UpdateJobStatus(k.1, QuizReady);
      Return(k);
    }

    method PersistQuiz(k: Hold, g: Generation)
      requires At(Now(), k, TextRead) && g.NewQuiz? && g.quiz !in quizzes
      modifies this`jobs, this`runs, this`quizzes, this`rows, this`valkey
      ensures Now() == Persisted(old(Now()), k, g)
    {
      quizzes := quizzes[g.quiz := Quiz(if g.extract then Draft else Published, g.extract, true, [])];
      MoveTo(k, Building(g.quiz, g.extract));
      PersistQuestions(g.quiz, g.questions);
      CloseQuiz(k, g.quiz, g.extract, g.store);
      UpdateJobQuizID(k.1, g.quiz);
      MoveTo(k, Linked(g.quiz, g.extract));
      UpdateJobPipeline(k.1, None);
      UpdateJobStatus(k.1, FinalStatus(g.extract));
      Return(k);
    }

    /** The question loop. */
    method PersistQuestions(q: QuizId, questions: seq<string>)
      requires q in quizzes
      modifies this`quizzes
      ensures Now() == QuestionsAdded(old(Now()), q, questions)
    {
      ghost var start := Now();
      NothingAdded(start, q);
      var i := 0;
      while i < |questions|
        invariant 0 <= i <= |questions| && q in quizzes
        invariant Now() == QuestionsAdded(start, q, questions[..i])
      {
        AddedTwice(start, q, questions[..i], questions[i]);
        quizzes := quizzes[q := quizzes[q].(questions := quizzes[q].questions + [questions[i]])];
        assert questions[..i] + [questions[i]] == questions[..i + 1];
        i := i + 1;
      }
      assert questions[..i] == questions;
    }

    /** The cache is written only for quizzes that are not drafts. */
    method CloseQuiz(k: Hold, q: QuizId, extract: bool, store: Option<Hash>)
      requires k in runs && q in quizzes
      modifies this`runs, this`quizzes, this`rows, this`valkey
      ensures Now() == QuizBuilt(old(Now()), k, q, extract, store)
    {
      quizzes := quizzes[q := quizzes[q].(open := false)];
      if store.Some? && !extract {
        rows := rows[store.value := q];
        valkey := valkey[store.value := q];
        MoveTo(k, RowStored(q, store.value));
      } else {
        MoveTo(k, Built(q, extract));
      }
    }
  }
}
