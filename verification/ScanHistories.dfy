/** Reachable histories of `ScanLifecycle`, from an empty database, in which what `ScanLease` and
    `ScanReferences` state exactly does go wrong. */
module ScanHistories {
  import opened Common
  import opened ScanModel
  import opened ScanLifecycle
  import opened ScanWorker
  import ScanReviews

  // ---------------------------------------------------------------- how a job gets two holders

  lemma RunThree(s: State, a: Step, b: Step, c: Step)
    ensures Run(s, [a, b, c]) == Apply(Apply(Apply(s, a), b), c)
  {
    assert [a, b, c][..2] == [a, b] && [a, b][..1] == [a] && [a][..0] == [];
    assert Run(s, [a]) == Apply(s, a);
    assert Run(s, [a, b]) == Apply(Apply(s, a), b);
  }

  lemma RunFour(s: State, a: Step, b: Step, c: Step, d: Step)
    ensures Run(s, [a, b, c, d]) == Apply(Apply(Apply(Apply(s, a), b), c), d)
  {
    RunThree(s, a, b, c);
    assert [a, b, c, d][..3] == [a, b, c];
  }

  /** A new job, claimed by worker 1. */
  lemma FirstClaim(s: State)
    requires Initial(s) && s.maxConcurrent > 0
    ensures var t := Apply(Apply(s, CreateJob(1, 5, true)), Work(1, Claim({1})));
            && t.maxConcurrent == s.maxConcurrent && t.now == s.now
            && t.jobs == map[1 := Job(5, Processing, s.now, None, None)]
            && t.runs == map[(1, 1) := Attempt(s.now, Claimed)]
  {
    var created := Apply(s, CreateJob(1, 5, true));
    assert created.jobs == map[1 := Job(5, Pending, s.now, None, None)];
    assert InFlight(created, 1) == {};
    assert ApplyClaim(created, 1, {1}) == ClaimedBy(created, 1, {1});
    assert Holds(1, {1}) == {(1, 1)};
  }

  lemma SecondClaim(t: State)
    requires t.runs.Keys == {(1, 1)} && t.maxConcurrent > 0 && 1 in t.jobs && Claimable(t.jobs[1], t.now)
    ensures (1, 1) in Apply(t, Work(2, Claim({1}))).runs && (2, 1) in Apply(t, Work(2, Claim({1}))).runs
  {
    assert InFlight(t, 2) == {};
    assert ApplyClaim(t, 2, {1}) == ClaimedBy(t, 2, {1});
    assert (2, 1) in Holds(2, {1});
  }

  /** A late upload write, or more than a lease of silence, makes the job claimable again. */
  lemma ClaimableAgain(t: State, step: Step)
    requires t.jobs == map[1 := Job(5, Processing, t.now, None, None)] && t.runs.Keys == {(1, 1)}
    requires step == UploadWake(1) || step == Tick(LEASE + 1)
    ensures var u := Apply(t, step);
            u.runs == t.runs && u.maxConcurrent == t.maxConcurrent && 1 in u.jobs && Claimable(u.jobs[1], u.now)
  {
  }

  /** From an empty database, either of the two gives one job two holders. */
  lemma JobHeldTwice(s: State, step: Step)
    requires Initial(s) && s.maxConcurrent > 0 && (step == UploadWake(1) || step == Tick(LEASE + 1))
    ensures var runs := Run(s, [CreateJob(1, 5, true), Work(1, Claim({1})), step, Work(2, Claim({1}))]).runs;
            (1, 1) in runs && (2, 1) in runs
  {
    FirstClaim(s);
    RunFour(s, CreateJob(1, 5, true), Work(1, Claim({1})), step, Work(2, Claim({1})));
    var t := Apply(Apply(s, CreateJob(1, 5, true)), Work(1, Claim({1})));
    ClaimableAgain(t, step);
    SecondClaim(Apply(t, step));
  }

  // ---------------------------------------------------------------- how a published quiz is rewritten

  /** Worker 1 extracts a draft with one question for its job and lets it go. */
  function DraftSteps(text: string): seq<Step> {
    [CreateJob(1, 5, true), Work(1, Claim({1}))] + ProcessSteps(Processing, (1, 1), Text(text, false, None), NewQuiz(9, true, ["q"], None))
  }

  /** A save and a publication pass their checks, and the publication commits first. */
  function LateSaveSteps(): seq<Step> {
    [SaveCheck(3, 5, 9, ["other"]), PublishCheck(4, 5, 9), PublishCommit(4)]
  }

  ghost predicate HoldsDraft(s: State) {
    && 9 in s.quizzes && s.quizzes[9] == Quiz(Draft, true, false, ["q"])
    && 1 in s.jobs && s.jobs[1].owner == 5 && s.jobs[1].quiz == Some(9) && s.saves == map[] && s.publishes == map[]
  }

  lemma DraftIsReached(s: State, text: string)
    requires Initial(s) && s.maxConcurrent > 0
    ensures HoldsDraft(Run(s, DraftSteps(text)))
  {
    var k, reading, g := (1, 1), Text(text, false, None), NewQuiz(9, true, ["q"], None);
    var claim := [CreateJob(1, 5, true), Work(1, Claim({1}))];
    FirstClaim(s);
    RunTwo(s, CreateJob(1, 5, true), Work(1, Claim({1})));
    var t := Run(s, claim);
    ProcessedIsRun(t, k, reading, g);
    NewQuizOutcome(t, k, reading, g);
    ProcessedOutcome(t, k, reading, g);
    RunAppend(s, claim, ProcessSteps(Processing, k, reading, g));
  }

  lemma SavedLate(t: State)
    requires HoldsDraft(t)
    ensures var u := Apply(Apply(Apply(t, SaveCheck(3, 5, 9, ["other"])), PublishCheck(4, 5, 9)), PublishCommit(4));
            && 9 in u.quizzes && u.quizzes[9] == Quiz(Published, true, false, ["q"])
            && 9 in Apply(u, SaveCommit(3)).quizzes && Apply(u, SaveCommit(3)).quizzes[9] == Quiz(Published, true, false, ["other"])
  {
    assert OwnsQuiz(t, 5, 9);
    var saving := Apply(t, SaveCheck(3, 5, 9, ["other"]));
    assert OwnsQuiz(saving, 5, 9) && saving.saves == map[3 := (9, ["other"])] && saving.quizzes == t.quizzes && saving.publishes == map[];
    var publishing := Apply(saving, PublishCheck(4, 5, 9));
    assert publishing.publishes == map[4 := (9, 5)] && publishing.saves == saving.saves && publishing.quizzes == t.quizzes;
    var published := Apply(publishing, PublishCommit(4));
    assert published.saves == saving.saves;
  }

  /** From an empty database, a save that passed its draft check rewrites the quiz after it was
      published. */
  lemma LateSaveRewritesPublished(s: State, text: string)
    requires Initial(s) && s.maxConcurrent > 0
    ensures var u := Run(s, DraftSteps(text) + LateSaveSteps());
            && 9 in u.quizzes && u.quizzes[9] == Quiz(Published, true, false, ["q"])
            && 9 in Apply(u, SaveCommit(3)).quizzes && Apply(u, SaveCommit(3)).quizzes[9] == Quiz(Published, true, false, ["other"])
  {
    DraftIsReached(s, text);
    var t := Run(s, DraftSteps(text));
    RunAppend(s, DraftSteps(text), LateSaveSteps());
    RunThree(t, SaveCheck(3, 5, 9, ["other"]), PublishCheck(4, 5, 9), PublishCommit(4));
    SavedLate(t);
  }

  // ---------------------------------------------------------------- how a published exam stays in review

  /** One job of user 5, held by worker 1, and no publication asked for. */
  ghost predicate OneHeld(s: State, status: JobStatus, quiz: Option<QuizId>, phase: Phase, quizzes: map<QuizId, Quiz>) {
    && s.jobs == map[1 := Job(5, status, s.now, quiz, None)] && s.runs == map[(1, 1) := Attempt(s.now, phase)]
    && s.quizzes == quizzes && s.publishes == map[]
  }

  function ClaimSteps(): seq<Step> {
    [CreateJob(1, 5, true), Work(1, Claim({1}))]
  }

  /** Worker 1 makes an exam with one question for its job and links it. */
  function LinkedSteps(): seq<Step> {
    [Work(1, FinishOCR(1)), Work(1, CreateQuiz(1, 9, true))] + [Work(1, AddQuestion(1, "q")), Work(1, FinishBuild(1)), Work(1, LinkQuiz(1))]
  }

  /** The owner publishes, and then the worker writes its last status. */
  function EarlySteps(): seq<Step> {
    [PublishCheck(4, 5, 9), PublishCommit(4), Work(1, FinishQuiz(1))]
  }

  lemma JobClaimed(s: State)
    requires Initial(s) && s.maxConcurrent > 0
    ensures OneHeld(Run(s, ClaimSteps()), Processing, None, Claimed, map[])
  {
    FirstClaim(s);
    RunTwo(s, CreateJob(1, 5, true), Work(1, Claim({1})));
    ClaimKeepsQuizzes(Apply(s, CreateJob(1, 5, true)), Work(1, Claim({1})));
  }

  lemma ClaimKeepsQuizzes(s: State, step: Step)
    requires step.Work? && step.work.Claim?
    ensures Apply(s, step).quizzes == s.quizzes && Apply(s, step).publishes == s.publishes
  {
  }

  lemma ExamStarted(t: State)
    requires OneHeld(t, Processing, None, Claimed, map[])
    ensures OneHeld(Apply(Apply(t, Work(1, FinishOCR(1))), Work(1, CreateQuiz(1, 9, true))), OCRComplete, None, Building(9, true),
                    map[9 := Quiz(Draft, true, true, [])])
  {
    assert OneHeld(Apply(t, Work(1, FinishOCR(1))), OCRComplete, None, TextRead, map[]);
  }

  lemma QuestionWritten(t: State)
    requires OneHeld(t, OCRComplete, None, Building(9, true), map[9 := Quiz(Draft, true, true, [])])
    ensures OneHeld(Apply(t, Work(1, AddQuestion(1, "q"))), OCRComplete, None, Building(9, true), map[9 := Quiz(Draft, true, true, ["q"])])
  {
    assert [] + ["q"] == ["q"];
  }

  lemma ExamEnded(t: State)
    requires OneHeld(t, OCRComplete, None, Building(9, true), map[9 := Quiz(Draft, true, true, ["q"])])
    ensures OneHeld(Apply(Apply(t, Work(1, FinishBuild(1))), Work(1, LinkQuiz(1))), OCRComplete, Some(9), Linked(9, true),
                    map[9 := Quiz(Draft, true, false, ["q"])])
  {
    assert OneHeld(Apply(t, Work(1, FinishBuild(1))), OCRComplete, None, Built(9, true), map[9 := Quiz(Draft, true, false, ["q"])]);
  }

  lemma ExamLinked(t: State)
    requires OneHeld(t, Processing, None, Claimed, map[])
    ensures OneHeld(Run(t, LinkedSteps()), OCRComplete, Some(9), Linked(9, true), map[9 := Quiz(Draft, true, false, ["q"])])
  {
    var a, b, c, d, e :=
      Work(1, FinishOCR(1)), Work(1, CreateQuiz(1, 9, true)), Work(1, AddQuestion(1, "q")), Work(1, FinishBuild(1)), Work(1, LinkQuiz(1));
    RunAppend(t, [a, b], [c, d, e]);
    RunTwo(t, a, b);
    RunThree(Apply(Apply(t, a), b), c, d, e);
    ExamStarted(t);
    QuestionWritten(Apply(Apply(t, a), b));
    ExamEnded(Apply(Apply(Apply(t, a), b), c));
  }

  lemma PublishedBeforeFinished(u: State)
    requires OneHeld(u, OCRComplete, Some(9), Linked(9, true), map[9 := Quiz(Draft, true, false, ["q"])])
    ensures ScanReviews.AsksInVain(Run(u, EarlySteps()), 1)
  {
    RunThree(u, PublishCheck(4, 5, 9), PublishCommit(4), Work(1, FinishQuiz(1)));
    PublicationAsked(u);
    var asked := Apply(u, PublishCheck(4, 5, 9));
    ScanReviews.ExamPublished(asked, (1, 1), 4);
    ScanReviews.FinishedExam(Apply(asked, PublishCommit(4)), (1, 1), 9);
  }

  lemma PublicationAsked(u: State)
    requires 1 in u.jobs && u.jobs[1].quiz == Some(9) && u.jobs[1].owner == 5 && u.publishes == map[]
    requires 9 in u.quizzes && u.quizzes[9].status == Draft
    ensures Apply(u, PublishCheck(4, 5, 9)) == u.(publishes := map[4 := (9, 5)])
  {
    assert OwnsQuiz(u, 5, 9);
  }

  lemma RunParts(s: State, a: seq<Step>, b: seq<Step>, c: seq<Step>)
    ensures Run(s, a + b + c) == Run(Run(Run(s, a), b), c)
  {
    RunAppend(s, a + b, c);
    RunAppend(s, a, b);
  }

  /** From an empty database, a publication before the worker's last status write leaves the job
      of a published exam asking for a review. */
  lemma PublishedExamStaysInReview(s: State)
    requires Initial(s) && s.maxConcurrent > 0
    ensures ScanReviews.AsksInVain(Run(s, ClaimSteps() + LinkedSteps() + EarlySteps()), 1)
  {
    JobClaimed(s);
    ExamLinked(Run(s, ClaimSteps()));
    PublishedBeforeFinished(Run(Run(s, ClaimSteps()), LinkedSteps()));
    RunParts(s, ClaimSteps(), LinkedSteps(), EarlySteps());
  }
}
