/** Taking a published quiz: CreateAttempt, SubmitAttempt and GetReview (quiz/service.go).

    Times are nanoseconds; a stored timestamp keeps microseconds. */
module Attempts {
  import opened Common
  import opened Scores

  type QuizId = nat
  type QuestionId = nat
  type OptionId = nat
  type AttemptId = nat
  type User = nat

  datatype OptionRow = OptionRow(id: OptionId, correct: bool)

  datatype Question = Question(id: QuestionId, options: seq<OptionRow>)

  /** The questions are those linked by quiz_questions, in order. */
  datatype Quiz = Quiz(draft: bool, questions: seq<Question>)

  datatype AttemptStatus = InProgress | Completed

  datatype Attempt = Attempt(quiz: QuizId, owner: User, startedAt: int, status: AttemptStatus, score: Option<real>,
                             correct: nat, wrong: nat, skipped: nat, submittedAt: Option<int>)

  /** A row of quiz_attempt_answers. */
  datatype AnswerRow = AnswerRow(question: QuestionId, selected: Option<OptionId>, isCorrect: Option<bool>)

  /** `answers` groups the answer rows by attempt. */
  datatype Tables = Tables(quizzes: map<QuizId, Quiz>, options: set<OptionId>,
                           attempts: map<AttemptId, Attempt>, answers: map<AttemptId, seq<AnswerRow>>)

  /** One submitted answer; no selection is an explicit null. */
  datatype Answer = Answer(question: QuestionId, selected: Option<OptionId>)

  datatype AttemptResult = AttemptResult(attempt: AttemptId, score: real, correct: nat, wrong: nat, skipped: nat,
                                         total: nat, timeTaken: nat)

  datatype AttemptError = QuizNotFound | AttemptNotFound | AttemptForbidden | AttemptNotDone | UnknownOption

  datatype Status = Correct | Wrong | Skipped

  /** The correct option the database returns for each question: `LIMIT 1` without an order,
      so any correct one. */
  type AnswerKey = map<QuestionId, Option<OptionId>>

  predicate HasCorrect(q: Question) {
    exists i :: 0 <= i < |q.options| && q.options[i].correct
  }

  ghost predicate IsKey(questions: seq<Question>, key: AnswerKey) {
    forall q :: q in questions ==>
      && q.id in key
      && (key[q.id].None? <==> !HasCorrect(q))
      && (key[q.id].Some? ==> OptionRow(key[q.id].value, true) in q.options)
  }

  // ---------------------------------------------------------------- grading

  /** What was chosen for a question: its last answer counts; no answer and an explicit null
      are the same. */
  ghost function LastChoice(answers: seq<Answer>, q: QuestionId): Option<OptionId> {
    if answers == [] then None
    else if answers[|answers| - 1].question == q then answers[|answers| - 1].selected
    else LastChoice(answers[..|answers| - 1], q)
  }

  /** Only the last answer to a question counts, and without one nothing was chosen. */
  lemma {:induction false} LastAnswerCounts(answers: seq<Answer>, i: int, q: QuestionId)
    requires -1 <= i < |answers| && (i >= 0 ==> answers[i].question == q)
    requires forall j :: i < j < |answers| ==> answers[j].question != q
    ensures LastChoice(answers, q) == if i < 0 then None else answers[i].selected
  {
    if i < |answers| - 1 {
      LastAnswerCounts(answers[..|answers| - 1], i, q);
    }
  }

  function Grade(selected: Option<OptionId>, correct: Option<OptionId>): Status {
    if selected.None? then Skipped
    else if correct.Some? && selected.value == correct.value then Correct
    else Wrong
  }

  function GradedRow(q: QuestionId, selected: Option<OptionId>, correct: Option<OptionId>): AnswerRow {
    AnswerRow(q, selected, match Grade(selected, correct) case Correct => Some(true) case Wrong => Some(false) case Skipped => None)
  }

  ghost function GradedRows(questions: seq<Question>, answers: seq<Answer>, key: AnswerKey): (rows: seq<AnswerRow>)
    requires IsKey(questions, key)
    ensures |rows| == |questions|
  {
    seq(|questions|, i requires 0 <= i < |questions| =>
      assert questions[i] in questions;
      GradedRow(questions[i].id, LastChoice(answers, questions[i].id), key[questions[i].id]))
  }

  /** How GetReview reads an answer row. */
  function StatusOf(row: AnswerRow): Status {
    if row.selected.None? then Skipped
    else if row.isCorrect == Some(true) then Correct
    else Wrong
  }

  ghost function Count(rows: seq<AnswerRow>, status: Status): nat {
    if rows == [] then 0
    else Count(rows[..|rows| - 1], status) + if StatusOf(rows[|rows| - 1]) == status then 1 else 0
  }

  lemma {:induction false} CountsAddUp(rows: seq<AnswerRow>)
    ensures Count(rows, Correct) + Count(rows, Wrong) + Count(rows, Skipped) == |rows|
  {
    if rows != [] {
      CountsAddUp(rows[..|rows| - 1]);
    }
  }

  // ---------------------------------------------------------------- result of a submitted attempt

  /** pgx stores microseconds. */
  function Micros(t: int): int {
    t / 1000 * 1000
  }

  /** `int(d.Seconds())`, and not below zero. */
  function Seconds(d: int): nat {
    if d < 0 then 0 else d / 1_000_000_000
  }

  function Or0(score: Option<real>): real {
    if score.Some? then score.value else 0.0
  }

  /** loadResult. */
  function LoadResult(id: AttemptId, a: Attempt): AttemptResult {
    AttemptResult(id, Or0(a.score), a.correct, a.wrong, a.skipped, a.correct + a.wrong + a.skipped,
                  if a.submittedAt.Some? then Seconds(a.submittedAt.value - a.startedAt) else 0)
  }

  /** Storing a time to the microsecond does not change the number of seconds taken. */
  lemma MicrosKeepSeconds(submitted: int, started: int)
    requires started % 1000 == 0
    ensures Seconds(Micros(submitted) - started) == Seconds(submitted - started)
  {
    var d := submitted - started;
    assert Micros(submitted) - started == d / 1000 * 1000 by {
      assert started == started / 1000 * 1000;
    }
    if d >= 0 {
      assert d / 1000 * 1000 / 1_000_000_000 == d / 1_000_000_000;
    }
  }

  datatype Submission = Submission(attempt: AttemptId, user: User, answers: seq<Answer>, submittedAt: Option<int>,
                                   now: int, key: AnswerKey)

  ghost predicate KnownOptions(rows: seq<AnswerRow>, options: set<OptionId>) {
    forall r :: r in rows && r.selected.Some? ==> r.selected.value in options
  }

  /** The attempt row a successful first submission writes. */
  ghost function Scored(a: Attempt, rows: seq<AnswerRow>, submitted: int): Attempt {
    a.(status := Completed, score := Some(ScorePercent(Count(rows, Correct), |rows|)), correct := Count(rows, Correct),
       wrong := Count(rows, Wrong), skipped := Count(rows, Skipped), submittedAt := Some(Micros(submitted)))
  }

  function SubmitTime(sub: Submission): int {
    if sub.submittedAt.Some? then sub.submittedAt.value else sub.now
  }

  /** The key query is asked: the attempt is the user's own and still open. */
  predicate Grades(t: Tables, sub: Submission) {
    && sub.attempt in t.attempts && t.attempts[sub.attempt].owner == sub.user
    && t.attempts[sub.attempt].status == InProgress
  }

  /** The database may answer the key query of a submission with `sub.key`. */
  ghost predicate PossibleKey(t: Tables, sub: Submission) {
    Grades(t, sub) ==>
      t.attempts[sub.attempt].quiz in t.quizzes && IsKey(t.quizzes[t.attempts[sub.attempt].quiz].questions, sub.key)
  }

  function RowsOf(t: Tables, id: AttemptId): seq<AnswerRow> {
    if id in t.answers then t.answers[id] else []
  }

  /** One SubmitAttempt transaction. A selection that is no option at all violates the foreign
      key of the answer rows and rolls everything back. */
  ghost function Submit(t: Tables, sub: Submission): (Tables, Result<AttemptResult, AttemptError>)
    requires PossibleKey(t, sub)
  {
    if sub.attempt !in t.attempts then (t, Err(AttemptNotFound))
    else
      var a := t.attempts[sub.attempt];
      if a.owner != sub.user then (t, Err(AttemptForbidden))
      else if a.status != InProgress then (t, Ok(LoadResult(sub.attempt, a)))
      else
        var rows := GradedRows(t.quizzes[a.quiz].questions, sub.answers, sub.key);
        if !KnownOptions(rows, t.options) then (t, Err(UnknownOption))
        else
          var scored := Scored(a, rows, SubmitTime(sub));
          (t.(attempts := t.attempts[sub.attempt := scored], answers := t.answers[sub.attempt := rows]),
           Ok(LoadResult(sub.attempt, scored)))
  }

  // ---------------------------------------------------------------- review

  /** The rows the LEFT JOIN of GetReview yields for one question. */
  ghost function Joined(rows: seq<AnswerRow>, q: QuestionId): seq<AnswerRow> {
    if rows == [] then []
    else Joined(rows[..|rows| - 1], q) + if rows[|rows| - 1].question == q then [rows[|rows| - 1]] else []
  }

  ghost function StatusesFor(rows: seq<AnswerRow>, q: QuestionId): seq<Status> {
    var joined := Joined(rows, q);
    if joined == [] then [Skipped] else seq(|joined|, i requires 0 <= i < |joined| => StatusOf(joined[i]))
  }

  ghost function ReviewOf(questions: seq<Question>, rows: seq<AnswerRow>): seq<Status> {
    if questions == [] then []
    else ReviewOf(questions[..|questions| - 1], rows) + StatusesFor(rows, questions[|questions| - 1].id)
  }

  ghost function CountStatus(statuses: seq<Status>, status: Status): nat {
    if statuses == [] then 0
    else CountStatus(statuses[..|statuses| - 1], status) + if statuses[|statuses| - 1] == status then 1 else 0
  }

  /** quiz_questions links a question once. */
  ghost predicate DistinctQuestions(questions: seq<Question>) {
    forall i, j :: 0 <= i < j < |questions| ==> questions[i].id != questions[j].id
  }

  ghost predicate RowPerQuestion(questions: seq<Question>, rows: seq<AnswerRow>) {
    |rows| == |questions| && forall i :: 0 <= i < |rows| ==> rows[i].question == questions[i].id
  }

  lemma {:induction false} JoinedIsTheRow(questions: seq<Question>, rows: seq<AnswerRow>, k: nat, n: nat)
    requires DistinctQuestions(questions) && RowPerQuestion(questions, rows) && k < |rows| && n <= |rows|
    ensures Joined(rows[..n], questions[k].id) == if k < n then [rows[k]] else []
  {
    if n > 0 {
      assert rows[..n][..n - 1] == rows[..n - 1];
      JoinedIsTheRow(questions, rows, k, n - 1);
    }
  }

  ghost function Statuses(rows: seq<AnswerRow>): (s: seq<Status>)
    ensures |s| == |rows|
  {
    seq(|rows|, i requires 0 <= i < |rows| => StatusOf(rows[i]))
  }

  lemma OneStatusEach(questions: seq<Question>, rows: seq<AnswerRow>, k: nat)
    requires DistinctQuestions(questions) && RowPerQuestion(questions, rows) && k < |rows|
    ensures StatusesFor(rows, questions[k].id) == [StatusOf(rows[k])]
  {
    JoinedIsTheRow(questions, rows, k, |rows|);
    assert rows[..|rows|] == rows;
  }

  lemma StatusesNext(rows: seq<AnswerRow>, n: nat)
    requires 0 < n <= |rows|
    ensures Statuses(rows[..n]) == Statuses(rows[..n - 1]) + [StatusOf(rows[n - 1])]
  {
  }

  lemma {:induction false} ReviewIsRowStatuses(questions: seq<Question>, rows: seq<AnswerRow>, n: nat)
    requires DistinctQuestions(questions) && RowPerQuestion(questions, rows) && n <= |rows|
    ensures ReviewOf(questions[..n], rows) == Statuses(rows[..n])
  {
    if n > 0 {
      assert questions[..n][..n - 1] == questions[..n - 1];
      ReviewIsRowStatuses(questions, rows, n - 1);
      OneStatusEach(questions, rows, n - 1);
      StatusesNext(rows, n);
    }
  }

  lemma {:induction false} CountOfStatuses(rows: seq<AnswerRow>, status: Status)
    ensures CountStatus(Statuses(rows), status) == Count(rows, status)
  {
    if rows != [] {
      var init := rows[..|rows| - 1];
      assert Statuses(rows)[..|rows| - 1] == Statuses(init);
      CountOfStatuses(init, status);
    }
  }

  /** The review of an attempt shows as many correct, wrong and skipped questions as its rows
      hold, one status a question. */
  lemma ReviewCounts(questions: seq<Question>, rows: seq<AnswerRow>, status: Status)
    requires DistinctQuestions(questions) && RowPerQuestion(questions, rows)
    ensures |ReviewOf(questions, rows)| == |questions|
    ensures CountStatus(ReviewOf(questions, rows), status) == Count(rows, status)
  {
    ReviewIsRowStatuses(questions, rows, |rows|);
    assert questions[..|questions|] == questions && rows[..|rows|] == rows;
    CountOfStatuses(rows, status);
  }

  // ---------------------------------------------------------------- creating an attempt

  /** Every attempt is at a known quiz, and its start was stored to the microsecond. */
  ghost predicate Valid(t: Tables) {
    forall id :: id in t.attempts ==> t.attempts[id].quiz in t.quizzes && t.attempts[id].startedAt % 1000 == 0
  }

  predicate OpenAt(a: Attempt, quiz: QuizId, user: User) {
    a.quiz == quiz && a.owner == user && a.status == InProgress
  }

  /** An open attempt of this user on this quiz, the most recently started. */
  ghost predicate IsLatestOpen(t: Tables, quiz: QuizId, user: User, id: AttemptId) {
    && id in t.attempts && OpenAt(t.attempts[id], quiz, user)
    && forall k :: k in t.attempts && OpenAt(t.attempts[k], quiz, user) ==> t.attempts[k].startedAt <= t.attempts[id].startedAt
  }

  ghost predicate HasOpen(t: Tables, quiz: QuizId, user: User) {
    exists k :: k in t.attempts && OpenAt(t.attempts[k], quiz, user)
  }

  function NewAttempt(quiz: QuizId, user: User, startedAt: int): Attempt {
    Attempt(quiz, user, Micros(startedAt), InProgress, None, 0, 0, 0, None)
  }

  predicate Attemptable(t: Tables, quiz: QuizId) {
    quiz in t.quizzes && !t.quizzes[quiz].draft
  }

  /** An undisturbed CreateAttempt on the tables: a draft or unknown quiz and an open attempt
      leave them alone. */
  ghost function Created(t: Tables, quiz: QuizId, user: User, startedAt: int, id: AttemptId): Tables {
    if !Attemptable(t, quiz) || HasOpen(t, quiz, user) || id in t.attempts then t
    else t.(attempts := t.attempts[id := NewAttempt(quiz, user, startedAt)])
  }

  // ---------------------------------------------------------------- what the counters count

  /** The questions answered correctly, as a set. */
  ghost function RightOnes(questions: seq<Question>, answers: seq<Answer>, key: AnswerKey): set<QuestionId>
    requires IsKey(questions, key)
  {
    set q | q in questions && key[q.id].Some? && LastChoice(answers, q.id) == key[q.id] :: q.id
  }

  /** The counting loop counts a set: `correct` is the number of questions whose last answer
      is the key's option. */
  lemma {:induction false} CorrectIsCardinality(questions: seq<Question>, answers: seq<Answer>, key: AnswerKey)
    requires IsKey(questions, key) && DistinctQuestions(questions)
    ensures Count(GradedRows(questions, answers, key), Correct) == |RightOnes(questions, answers, key)|
  {
    if questions == [] {
      assert RightOnes(questions, answers, key) == {};
    } else {
      var init, q := questions[..|questions| - 1], questions[|questions| - 1];
      assert q in questions;
      CorrectIsCardinality(init, answers, key);
      var rows := GradedRows(questions, answers, key);
      assert rows[..|rows| - 1] == GradedRows(init, answers, key);
      RightOnesGrow(questions, answers, key);
    }
  }

  lemma RightOnesGrow(questions: seq<Question>, answers: seq<Answer>, key: AnswerKey)
    requires questions != [] && IsKey(questions, key) && DistinctQuestions(questions)
    ensures var init, q := questions[..|questions| - 1], questions[|questions| - 1];
            && IsKey(init, key) && q.id !in RightOnes(init, answers, key) && q in questions
            && RightOnes(questions, answers, key) ==
               if key[q.id].Some? && LastChoice(answers, q.id) == key[q.id]
               then RightOnes(init, answers, key) + {q.id} else RightOnes(init, answers, key)
  {
    var init, q := questions[..|questions| - 1], questions[|questions| - 1];
    assert questions == init + [q];
    assert forall p :: p in questions <==> p in init || p == q;
  }

  /** The questions without a last choice, as a set. */
  ghost function Unanswered(questions: seq<Question>, answers: seq<Answer>): set<QuestionId> {
    set q | q in questions && LastChoice(answers, q.id).None? :: q.id
  }

  /** ... and `skipped` is the number of questions whose last answer is missing or null. */
  lemma {:induction false} SkippedIsCardinality(questions: seq<Question>, answers: seq<Answer>, key: AnswerKey)
    requires IsKey(questions, key) && DistinctQuestions(questions)
    ensures Count(GradedRows(questions, answers, key), Skipped) == |Unanswered(questions, answers)|
  {
    if questions == [] {
      assert Unanswered(questions, answers) == {};
    } else {
      var init, q := questions[..|questions| - 1], questions[|questions| - 1];
      assert q in questions;
      SkippedIsCardinality(init, answers, key);
      var rows := GradedRows(questions, answers, key);
      assert rows[..|rows| - 1] == GradedRows(init, answers, key);
      UnansweredGrow(questions, answers);
    }
  }

  lemma UnansweredGrow(questions: seq<Question>, answers: seq<Answer>)
    requires questions != [] && DistinctQuestions(questions)
    ensures var init, q := questions[..|questions| - 1], questions[|questions| - 1];
            && q.id !in Unanswered(init, answers)
            && Unanswered(questions, answers) ==
               if LastChoice(answers, q.id).None? then Unanswered(init, answers) + {q.id} else Unanswered(init, answers)
  {
    var init, q := questions[..|questions| - 1], questions[|questions| - 1];
    assert questions == init + [q];
    assert forall p :: p in questions <==> p in init || p == q;
  }

  ghost predicate AllRight(questions: seq<Question>, answers: seq<Answer>, key: AnswerKey)
    requires IsKey(questions, key)
  {
    forall q :: q in questions ==> key[q.id].Some? && LastChoice(answers, q.id) == key[q.id]
  }

  lemma {:induction false} AllRightCounts(questions: seq<Question>, answers: seq<Answer>, key: AnswerKey)
    requires IsKey(questions, key) && AllRight(questions, answers, key)
    ensures Count(GradedRows(questions, answers, key), Correct) == |questions|
  {
    if questions != [] {
      var init := questions[..|questions| - 1];
      assert questions[|questions| - 1] in questions;
      AllRightCounts(init, answers, key);
      var rows := GradedRows(questions, answers, key);
      assert rows[..|rows| - 1] == GradedRows(init, answers, key);
    }
  }

  /** Choosing the key's option for every question scores 100. */
  lemma AllRightScoresFull(questions: seq<Question>, answers: seq<Answer>, key: AnswerKey)
    requires questions != [] && IsKey(questions, key) && AllRight(questions, answers, key)
    ensures var rows := GradedRows(questions, answers, key);
            ScorePercent(Count(rows, Correct), |rows|) == 100.0
  {
    AllRightCounts(questions, answers, key);
    FullMarksIff(|questions|, |questions|);
  }

  // ---------------------------------------------------------------- what a submission returns and stores

  /** Whole seconds from one time to another, and none if it is earlier. */
  predicate WholeSeconds(taken: nat, from: int, to: int) {
    if to < from then taken == 0 else taken * 1_000_000_000 <= to - from < (taken + 1) * 1_000_000_000
  }

  /** The result of a first submission. */
  ghost predicate Reports(questions: seq<Question>, sub: Submission, startedAt: int, r: AttemptResult)
    requires IsKey(questions, sub.key)
  {
    && r.attempt == sub.attempt && r.total == |questions| && r.correct + r.wrong + r.skipped == r.total
    && (DistinctQuestions(questions) ==>
          r.correct == |RightOnes(questions, sub.answers, sub.key)| && r.skipped == |Unanswered(questions, sub.answers)|)
    && r.score == ScorePercent(r.correct, r.total)
    && WholeSeconds(r.timeTaken, startedAt, if sub.submittedAt.Some? then sub.submittedAt.value else sub.now)
  }

  /** The result of an attempt completed before: its columns. */
  predicate ReportsColumns(a: Attempt, id: AttemptId, r: AttemptResult) {
    && r.attempt == id && r.score == Or0(a.score) && r.correct == a.correct && r.wrong == a.wrong && r.skipped == a.skipped
    && r.total == a.correct + a.wrong + a.skipped
    && (a.submittedAt.Some? ==> WholeSeconds(r.timeTaken, a.startedAt, a.submittedAt.value))
    && (a.submittedAt.None? ==> r.timeTaken == 0)
  }

  /** The attempt row after a first submission: it completes with the numbers reported. */
  predicate StoresResult(a: Attempt, row: Attempt, sub: Submission, r: AttemptResult) {
    && row.quiz == a.quiz && row.owner == a.owner && row.startedAt == a.startedAt && row.status == Completed
    && row.score == Some(r.score) && row.correct == r.correct && row.wrong == r.wrong && row.skipped == r.skipped
    && row.submittedAt.Some? && row.submittedAt.value % 1000 == 0
    && 0 <= (if sub.submittedAt.Some? then sub.submittedAt.value else sub.now) - row.submittedAt.value < 1000
  }

  /** One answer row a question, in order: the option chosen last, right iff it is the key's. */
  ghost predicate StoresAnswers(questions: seq<Question>, sub: Submission, rows: seq<AnswerRow>)
    requires IsKey(questions, sub.key)
  {
    && |rows| == |questions|
    && forall i :: 0 <= i < |rows| ==>
         && questions[i] in questions
         && rows[i].question == questions[i].id && rows[i].selected == LastChoice(sub.answers, questions[i].id)
         && rows[i].isCorrect == if rows[i].selected.None? then None else Some(rows[i].selected == sub.key[questions[i].id])
  }

  /** Some choice that counts is no option at all. */
  ghost predicate ChoosesUnknown(questions: seq<Question>, answers: seq<Answer>, options: set<OptionId>) {
    exists q :: q in questions && LastChoice(answers, q.id).Some? && LastChoice(answers, q.id).value !in options
  }

  lemma FirstResult(t: Tables, sub: Submission)
    requires Valid(t) && PossibleKey(t, sub) && Grades(t, sub) && Submit(t, sub).1.Ok?
    ensures var (u, r) := Submit(t, sub);
            var a := t.attempts[sub.attempt];
            var questions := t.quizzes[a.quiz].questions;
            && Reports(questions, sub, a.startedAt, r.value)
            && u == t.(attempts := u.attempts, answers := t.answers[sub.attempt := RowsOf(u, sub.attempt)])
            && sub.attempt in u.attempts && u.attempts == t.attempts[sub.attempt := u.attempts[sub.attempt]]
            && StoresResult(a, u.attempts[sub.attempt], sub, r.value)
            && StoresAnswers(questions, sub, RowsOf(u, sub.attempt))
  {
    var a := t.attempts[sub.attempt];
    var questions := t.quizzes[a.quiz].questions;
    CountsAddUp(GradedRows(questions, sub.answers, sub.key));
    if DistinctQuestions(questions) {
      CorrectIsCardinality(questions, sub.answers, sub.key);
      SkippedIsCardinality(questions, sub.answers, sub.key);
    }
    MicrosKeepSeconds(SubmitTime(sub), a.startedAt);
    assert forall i :: 0 <= i < |questions| ==> questions[i] in questions;
  }

  lemma RefusedIff(t: Tables, sub: Submission)
    requires PossibleKey(t, sub)
    ensures var (u, r) := Submit(t, sub);
            && (r.Err? ==> u == t)
            && (r == Err(AttemptNotFound) <==> sub.attempt !in t.attempts)
            && (r == Err(AttemptForbidden) <==> sub.attempt in t.attempts && t.attempts[sub.attempt].owner != sub.user)
            && (r == Err(UnknownOption) <==>
                  Grades(t, sub) && ChoosesUnknown(t.quizzes[t.attempts[sub.attempt].quiz].questions, sub.answers, t.options))
            && (r.Err? ==> r.error == AttemptNotFound || r.error == AttemptForbidden || r.error == UnknownOption)
  {
    if Grades(t, sub) {
      var questions := t.quizzes[t.attempts[sub.attempt].quiz].questions;
      var rows := GradedRows(questions, sub.answers, sub.key);
      if q :| q in questions && LastChoice(sub.answers, q.id).Some? && LastChoice(sub.answers, q.id).value !in t.options {
        var i :| 0 <= i < |questions| && questions[i] == q;
        assert rows[i] in rows && rows[i].selected == LastChoice(sub.answers, q.id);
      }
      if r :| r in rows && r.selected.Some? && r.selected.value !in t.options {
        var i :| 0 <= i < |rows| && rows[i] == r;
        assert questions[i] in questions;
      }
    }
  }

  // ---------------------------------------------------------------- the service

  class QuizService {
    var quizzes: map<QuizId, Quiz>
    var options: set<OptionId>
    var attempts: map<AttemptId, Attempt>
    var answers: map<AttemptId, seq<AnswerRow>>

    constructor (quizzes: map<QuizId, Quiz>, options: set<OptionId>)
      ensures State() == Tables(quizzes, options, map[], map[])
    {
      this.quizzes, this.options := quizzes, options;
      attempts, answers := map[], map[];
    }

    ghost function State(): Tables
      reads this
    {
      Tables(quizzes, options, attempts, answers)
    }

    /** `open` is the row the query for an open attempt returns. */
    method CreateAttempt(quiz: QuizId, user: User, startedAt: int, next: AttemptId, open: Option<AttemptId>)
      returns (r: Result<AttemptId, AttemptError>)
      requires Valid(State()) && next !in attempts
      requires open.Some? ==> IsLatestOpen(State(), quiz, user, open.value)
      requires open.None? ==> !HasOpen(State(), quiz, user)
      modifies this`attempts
      ensures Valid(State()) && State() == Created(old(State()), quiz, user, startedAt, next)
      ensures r.Err? <==> quiz !in quizzes || quizzes[quiz].draft
      ensures r.Err? ==> r.error == QuizNotFound && attempts == old(attempts)
      ensures r.Ok? ==> IsLatestOpen(State(), quiz, user, r.value)
      ensures r.Ok? && r.value != next ==> attempts == old(attempts)
      ensures r.Ok? && r.value == next ==>
                var a := attempts[next];
                && a.quiz == quiz && a.owner == user && a.status == InProgress
                && a.startedAt % 1000 == 0 && 0 <= startedAt - a.startedAt < 1000
                && a.score == None && a.correct == a.wrong == a.skipped == 0 && a.submittedAt == None
    {
      if quiz !in quizzes { return Err(QuizNotFound); }
      if quizzes[quiz].draft { return Err(QuizNotFound); }
      if open.Some? { return Ok(open.value); }
      attempts := attempts[next := NewAttempt(quiz, user, startedAt)];
      return Ok(next);
    }

    /** The map of selections: a later answer to the same question replaces an earlier one. */
    static method Selections(given: seq<Answer>) returns (chosen: map<QuestionId, Option<OptionId>>)
      ensures forall q :: LastChoice(given, q) == if q in chosen then chosen[q] else None
    {
      chosen := map[];
      var i := 0;
      while i < |given|
        invariant 0 <= i <= |given|
        invariant forall q :: LastChoice(given[..i], q) == if q in chosen then chosen[q] else None
      {
        assert given[..i + 1][..i] == given[..i];
        chosen := chosen[given[i].question := given[i].selected];
        i := i + 1;
      }
      assert given[..i] == given;
    }

    /** The grading loop of SubmitAttempt. */
    static method GradeAll(questions: seq<Question>, given: seq<Answer>, chosen: map<QuestionId, Option<OptionId>>, key: AnswerKey)
      returns (rows: seq<AnswerRow>, correct: nat, wrong: nat, skipped: nat)
      requires IsKey(questions, key)
      requires forall q :: LastChoice(given, q) == if q in chosen then chosen[q] else None
      ensures rows == GradedRows(questions, given, key)
      ensures correct == Count(rows, Correct) && wrong == Count(rows, Wrong) && skipped == Count(rows, Skipped)
    {
      rows, correct, wrong, skipped := [], 0, 0, 0;
      var i := 0;
      while i < |questions|
        invariant 0 <= i == |rows| <= |questions|
        invariant forall k :: 0 <= k < i ==> rows[k] == GradedRows(questions, given, key)[k]
        invariant correct == Count(rows, Correct) && wrong == Count(rows, Wrong) && skipped == Count(rows, Skipped)
      {
        var q := questions[i].id;
        assert questions[i] in questions;
        var selected := if q in chosen then chosen[q] else None;
        var isCorrect := None;
        if q !in chosen || chosen[q].None? {
          skipped := skipped + 1;
        } else if key[q].Some? && chosen[q].value == key[q].value {
          correct := correct + 1;
          isCorrect := Some(true);
        } else {
          wrong := wrong + 1;
          isCorrect := Some(false);
        }
        ghost var before := rows;
        rows := rows + [AnswerRow(q, selected, isCorrect)];
        assert rows[..|rows| - 1] == before;
        i := i + 1;
      }
    }

    /** The foreign key of the answer rows. */
    static method AllKnown(rows: seq<AnswerRow>, options: set<OptionId>) returns (known: bool)
      ensures known <==> KnownOptions(rows, options)
    {
      known := forall k :: 0 <= k < |rows| && rows[k].selected.Some? ==> rows[k].selected.value in options;
    }

    method SubmitAttempt(sub: Submission) returns (r: Result<AttemptResult, AttemptError>)
      requires Valid(State()) && PossibleKey(State(), sub)
      modifies this`attempts, this`answers
      ensures Valid(State())
      ensures (State(), r) == Submit(old(State()), sub)
      ensures r.Ok? && old(Grades(State(), sub)) ==>
                && Reports(quizzes[old(attempts)[sub.attempt].quiz].questions, sub, old(attempts)[sub.attempt].startedAt, r.value)
                && StoresResult(old(attempts)[sub.attempt], attempts[sub.attempt], sub, r.value)
                && StoresAnswers(quizzes[old(attempts)[sub.attempt].quiz].questions, sub, answers[sub.attempt])
      ensures r.Ok? && !old(Grades(State(), sub)) ==>
                State() == old(State()) && ReportsColumns(attempts[sub.attempt], sub.attempt, r.value)
    {
      ghost var t := State();
      if Grades(t, sub) && Submit(t, sub).1.Ok? { FirstResult(t, sub); }
      if sub.attempt !in attempts { return Err(AttemptNotFound); }
      var a := attempts[sub.attempt];
      if a.owner != sub.user { return Err(AttemptForbidden); }
      if a.status != InProgress { return Ok(LoadResult(sub.attempt, a)); }

      var questions := quizzes[a.quiz].questions;
      var chosen := Selections(sub.answers);
      var rows, correct, wrong, skipped := GradeAll(questions, sub.answers, chosen, sub.key);
      var total := |questions|;
      var known := AllKnown(rows, options);
      if !known { return Err(UnknownOption); }

      var score := ScorePercent(correct, total);
      var submittedAt := if sub.submittedAt.Some? then sub.submittedAt.value else sub.now;
      CountsAddUp(rows);
      MicrosKeepSeconds(submittedAt, a.startedAt);
      answers := answers[sub.attempt := rows];
      attempts := attempts[sub.attempt := a.(status := Completed, score := Some(score), correct := correct, wrong := wrong,
                                             skipped := skipped, submittedAt := Some(Micros(submittedAt)))];
      return Ok(AttemptResult(sub.attempt, score, correct, wrong, skipped, total, Seconds(submittedAt - a.startedAt)));
    }

    /** The rows GetReview reads for one question. */
    static method JoinStatuses(rows: seq<AnswerRow>, q: QuestionId) returns (statuses: seq<Status>)
      ensures statuses == StatusesFor(rows, q)
    {
      var joined: seq<AnswerRow> := [];
      statuses := [];
      var i := 0;
      while i < |rows|
        invariant 0 <= i <= |rows|
        invariant joined == Joined(rows[..i], q)
        invariant statuses == seq(|joined|, k requires 0 <= k < |joined| => StatusOf(joined[k]))
      {
        assert rows[..i + 1][..i] == rows[..i];
        if rows[i].question == q {
          joined := joined + [rows[i]];
          if rows[i].selected.None? {
            statuses := statuses + [Skipped];
          } else if rows[i].isCorrect == Some(true) {
            statuses := statuses + [Correct];
          } else {
            statuses := statuses + [Wrong];
          }
        }
        i := i + 1;
      }
      assert rows[..i] == rows;
      if joined == [] { return [Skipped]; }
    }

    /** The join of GetReview, question by question. */
    method GetReview(id: AttemptId, user: User) returns (r: Result<(real, seq<Status>), AttemptError>)
      requires Valid(State())
      ensures r == if id !in attempts then Err(AttemptNotFound)
                   else if attempts[id].owner != user then Err(AttemptForbidden)
                   else if attempts[id].status != Completed then Err(AttemptNotDone)
                   else Ok((Or0(attempts[id].score), ReviewOf(quizzes[attempts[id].quiz].questions, RowsOf(State(), id))))
    {
      if id !in attempts { return Err(AttemptNotFound); }
      var a := attempts[id];
      if a.owner != user { return Err(AttemptForbidden); }
      if a.status != Completed { return Err(AttemptNotDone); }

      var questions := quizzes[a.quiz].questions;
      var rows := if id in answers then answers[id] else [];
      var review: seq<Status> := [];
      var i := 0;
      while i < |questions|
        invariant 0 <= i <= |questions|
        invariant review == ReviewOf(questions[..i], rows)
      {
        assert questions[..i + 1][..i] == questions[..i];
        var statuses := JoinStatuses(rows, questions[i].id);
        review := review + statuses;
        i := i + 1;
      }
      assert questions[..i] == questions;
      return Ok((Or0(a.score), review));
    }
  }
}
