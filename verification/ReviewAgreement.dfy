/** When GetReview agrees with the stored score: quizzes may be written, saved and published
    around the attempts (quiz/service.go:331-416, quiz/review.go:111-168, 345-352, and the ON
    DELETE rules of quiz_attempt_answers, migrations/0003_reconciled_schema.sql:177-184). */
module ReviewAgreement {
  import opened Common
  import opened Scores
  import opened Attempts
  import opened AttemptHistory

  // ---------------------------------------------------------------- review and score

  ghost function Review(t: Tables, id: AttemptId): seq<Status>
    requires id in t.attempts && t.attempts[id].quiz in t.quizzes
  {
    ReviewOf(t.quizzes[t.attempts[id].quiz].questions, RowsOf(t, id))
  }

  /** What GetReview shows counts up to what the attempt stores. */
  ghost predicate Agrees(t: Tables, id: AttemptId)
    requires id in t.attempts && t.attempts[id].quiz in t.quizzes
  {
    && CountStatus(Review(t, id), Correct) == t.attempts[id].correct
    && CountStatus(Review(t, id), Wrong) == t.attempts[id].wrong
    && CountStatus(Review(t, id), Skipped) == t.attempts[id].skipped
  }

  /** Questions and options belong to one quiz each. */
  ghost predicate QuizzesApart(quizzes: map<QuizId, Quiz>, options: set<OptionId>) {
    && (forall z :: z in quizzes ==> DistinctQuestions(quizzes[z].questions) && OptionIds(quizzes[z].questions) <= options)
    && forall z, y :: z in quizzes && y in quizzes && z != y ==>
         && QuestionIds(quizzes[z].questions) !! QuestionIds(quizzes[y].questions)
         && OptionIds(quizzes[z].questions) !! OptionIds(quizzes[y].questions)
  }

  ghost predicate RowsWithin(rows: seq<AnswerRow>, questions: seq<Question>) {
    forall i :: 0 <= i < |rows| ==> rows[i].question in QuestionIds(questions)
  }

  ghost predicate AttemptOk(t: Tables, id: AttemptId)
    requires id in t.attempts
  {
    var a := t.attempts[id];
    && a.quiz in t.quizzes && a.startedAt % 1000 == 0
    && RowsWithin(RowsOf(t, id), t.quizzes[a.quiz].questions)
    && (a.status == Completed ==> a.score == Some(ScorePercent(a.correct, a.correct + a.wrong + a.skipped)))
  }

  ghost predicate AttemptsOk(t: Tables) {
    && (forall id :: id in t.attempts ==> AttemptOk(t, id))
    && forall id :: id in t.answers ==> id in t.attempts
  }

  ghost predicate SystemOk(s: System) {
    && QuizzesApart(s.t.quizzes, s.t.options)
    && AttemptsOk(s.t)
    && (forall r :: r in s.lookups ==> s.lookups[r].quiz in s.t.quizzes)
  }

  // ---------------------------------------------------------------- one quiz rewritten

  lemma {:induction false} KeptAll(rows: seq<AnswerRow>, gone: set<QuestionId>)
    requires forall i :: 0 <= i < |rows| ==> rows[i].question !in gone
    ensures Kept(rows, gone) == rows
  {
    if rows != [] {
      KeptAll(rows[..|rows| - 1], gone);
    }
  }

  lemma {:induction false} KeptNone(rows: seq<AnswerRow>, gone: set<QuestionId>)
    requires forall i :: 0 <= i < |rows| ==> rows[i].question in gone
    ensures Kept(rows, gone) == []
  {
    if rows != [] {
      KeptNone(rows[..|rows| - 1], gone);
    }
  }

  lemma {:induction false} CountStatusAppend(a: seq<Status>, b: seq<Status>, status: Status)
    ensures CountStatus(a + b, status) == CountStatus(a, status) + CountStatus(b, status)
  {
    if b == [] {
      assert a + b == a;
    } else {
      assert (a + b)[..|a + b| - 1] == a + b[..|b| - 1];
      CountStatusAppend(a, b[..|b| - 1], status);
    }
  }

  /** Without rows every question is skipped. */
  lemma {:induction false} ReviewWithoutRows(questions: seq<Question>)
    ensures CountStatus(ReviewOf(questions, []), Correct) == 0
    ensures CountStatus(ReviewOf(questions, []), Wrong) == 0
    ensures CountStatus(ReviewOf(questions, []), Skipped) == |questions|
  {
    if questions != [] {
      var init, q := questions[..|questions| - 1], questions[|questions| - 1];
      ReviewWithoutRows(init);
      assert StatusesFor([], q.id) == [Skipped];
      CountStatusAppend(ReviewOf(init, []), [Skipped], Correct);
      CountStatusAppend(ReviewOf(init, []), [Skipped], Wrong);
      CountStatusAppend(ReviewOf(init, []), [Skipped], Skipped);
      assert CountStatus([Skipped], Skipped) == 1 && CountStatus([Skipped], Correct) == 0 && CountStatus([Skipped], Wrong) == 0;
    }
  }

  lemma {:induction false} NoRowJoins(rows: seq<AnswerRow>, q: QuestionId)
    requires forall i :: 0 <= i < |rows| ==> rows[i].question != q
    ensures Joined(rows, q) == []
  {
    if rows != [] {
      NoRowJoins(rows[..|rows| - 1], q);
    }
  }

  lemma {:induction false} JoinedNulled(rows: seq<AnswerRow>, gone: set<OptionId>, q: QuestionId)
    ensures Joined(Nulled(rows, gone), q) == Nulled(Joined(rows, q), gone)
  {
    if rows != [] {
      var init, last := rows[..|rows| - 1], rows[|rows| - 1];
      JoinedNulled(init, gone, q);
      assert Nulled(rows, gone)[..|rows| - 1] == Nulled(init, gone);
    }
  }

  /** Forgetting selections can only turn rows into skipped ones. */
  lemma {:induction false} NulledSkips(rows: seq<AnswerRow>, gone: set<OptionId>)
    ensures Count(Nulled(rows, gone), Skipped) >= Count(rows, Skipped)
    ensures Count(Nulled(rows, gone), Skipped) == Count(rows, Skipped) <==> forall i :: 0 <= i < |rows| ==> !Chose(rows[i], gone)
  {
    if rows != [] {
      var init, last := rows[..|rows| - 1], rows[|rows| - 1];
      NulledSkips(init, gone);
      assert Nulled(rows, gone)[..|rows| - 1] == Nulled(init, gone);
    }
  }

  lemma {:induction false} JoinedHas(rows: seq<AnswerRow>, q: QuestionId, row: AnswerRow)
    ensures row in Joined(rows, q) <==> row in rows && row.question == q
  {
    if rows != [] {
      JoinedHas(rows[..|rows| - 1], q, row);
      assert rows == rows[..|rows| - 1] + [rows[|rows| - 1]];
    }
  }

  lemma SkippedFor(rows: seq<AnswerRow>, q: QuestionId)
    ensures CountStatus(StatusesFor(rows, q), Skipped) == if Joined(rows, q) == [] then 1 else Count(Joined(rows, q), Skipped)
  {
    var joined := Joined(rows, q);
    if joined == [] {
      assert CountStatus([Skipped], Skipped) == 1;
    } else {
      CountOfStatuses(joined, Skipped);
      assert StatusesFor(rows, q) == Statuses(joined);
    }
  }

  ghost predicate ChoseAt(rows: seq<AnswerRow>, gone: set<OptionId>, q: QuestionId) {
    exists i :: 0 <= i < |rows| && rows[i].question == q && Chose(rows[i], gone)
  }

  lemma NulledFor(rows: seq<AnswerRow>, gone: set<OptionId>, q: QuestionId)
    ensures var before, after := CountStatus(StatusesFor(rows, q), Skipped), CountStatus(StatusesFor(Nulled(rows, gone), q), Skipped);
            after >= before && (after > before <==> ChoseAt(rows, gone, q))
  {
    var joined := Joined(rows, q);
    JoinedNulled(rows, gone, q);
    SkippedFor(rows, q);
    SkippedFor(Nulled(rows, gone), q);
    NulledSkips(joined, gone);
    if i :| 0 <= i < |rows| && rows[i].question == q && Chose(rows[i], gone) {
      JoinedHas(rows, q, rows[i]);
    }
    if i :| 0 <= i < |joined| && Chose(joined[i], gone) {
      JoinedHas(rows, q, joined[i]);
    }
  }

  /** A selection of a deleted option was made for one of these questions. */
  ghost predicate ChoseFor(rows: seq<AnswerRow>, gone: set<OptionId>, questions: seq<Question>) {
    exists i :: 0 <= i < |rows| && rows[i].question in QuestionIds(questions) && Chose(rows[i], gone)
  }

  lemma ChoseForNext(rows: seq<AnswerRow>, gone: set<OptionId>, init: seq<Question>, q: Question)
    ensures ChoseFor(rows, gone, init + [q]) <==> ChoseFor(rows, gone, init) || ChoseAt(rows, gone, q.id)
  {
    assert q in init + [q];
    assert forall p :: p in init + [q] <==> p in init || p == q;
    assert QuestionIds(init + [q]) == QuestionIds(init) + {q.id};
  }

  lemma SkippedNext(questions: seq<Question>, rows: seq<AnswerRow>)
    requires questions != []
    ensures var init, q := questions[..|questions| - 1], questions[|questions| - 1];
            CountStatus(ReviewOf(questions, rows), Skipped)
            == CountStatus(ReviewOf(init, rows), Skipped) + CountStatus(StatusesFor(rows, q.id), Skipped)
  {
    CountStatusAppend(ReviewOf(questions[..|questions| - 1], rows), StatusesFor(rows, questions[|questions| - 1].id), Skipped);
  }

  ghost function SkippedCount(questions: seq<Question>, rows: seq<AnswerRow>): nat {
    CountStatus(ReviewOf(questions, rows), Skipped)
  }

  /** How many more of the questions are shown as skipped once the options are gone. */
  ghost function MoreSkipped(questions: seq<Question>, rows: seq<AnswerRow>, gone: set<OptionId>): int {
    SkippedCount(questions, Nulled(rows, gone)) - SkippedCount(questions, rows)
  }

  lemma MoreSkippedNext(questions: seq<Question>, rows: seq<AnswerRow>, gone: set<OptionId>)
    requires questions != []
    ensures var init, q := questions[..|questions| - 1], questions[|questions| - 1];
            var more := MoreSkipped(questions, rows, gone) - MoreSkipped(init, rows, gone);
            more >= 0 && (more > 0 <==> ChoseAt(rows, gone, q.id))
  {
    NulledFor(rows, gone, questions[|questions| - 1].id);
    SkippedNext(questions, rows);
    SkippedNext(questions, Nulled(rows, gone));
  }

  /** The same, question by question. */
  ghost predicate ChoseForSome(questions: seq<Question>, rows: seq<AnswerRow>, gone: set<OptionId>) {
    questions != [] &&
    (ChoseForSome(questions[..|questions| - 1], rows, gone) || ChoseAt(rows, gone, questions[|questions| - 1].id))
  }

  lemma {:induction false} ChoseForSomeIff(questions: seq<Question>, rows: seq<AnswerRow>, gone: set<OptionId>)
    ensures ChoseForSome(questions, rows, gone) <==> ChoseFor(rows, gone, questions)
  {
    if questions == [] {
      assert QuestionIds([]) == {};
    } else {
      var init, q := questions[..|questions| - 1], questions[|questions| - 1];
      ChoseForSomeIff(init, rows, gone);
      ChoseForNext(rows, gone, init, q);
      assert questions == init + [q];
    }
  }

  lemma {:induction false} MoreSkippedIff(questions: seq<Question>, rows: seq<AnswerRow>, gone: set<OptionId>)
    ensures MoreSkipped(questions, rows, gone) >= 0
    ensures MoreSkipped(questions, rows, gone) > 0 <==> ChoseForSome(questions, rows, gone)
  {
    if questions != [] {
      MoreSkippedIff(questions[..|questions| - 1], rows, gone);
      MoreSkippedNext(questions, rows, gone);
    }
  }

  lemma NulledReview(questions: seq<Question>, rows: seq<AnswerRow>, gone: set<OptionId>)
    ensures MoreSkipped(questions, rows, gone) >= 0
    ensures MoreSkipped(questions, rows, gone) > 0 <==> ChoseFor(rows, gone, questions)
  {
    MoreSkippedIff(questions, rows, gone);
    ChoseForSomeIff(questions, rows, gone);
  }

  // ---------------------------------------------------------------- what steps keep

  lemma QuizzesWithRewritten(s: System, quiz: QuizId, questions: seq<Question>)
    requires SystemOk(s) && quiz in s.t.quizzes && NewRows(s.t, questions)
    ensures QuizzesApart(Saved(s.t, quiz, questions).quizzes, Saved(s.t, quiz, questions).options)
  {
  }

  lemma RowsAfterSave(s: System, quiz: QuizId, questions: seq<Question>, id: AttemptId)
    requires SystemOk(s) && quiz in s.t.quizzes && id in s.t.attempts
    ensures var rows := RowsOf(s.t, id);
            RowsOf(Saved(s.t, quiz, questions), id) ==
            if s.t.attempts[id].quiz == quiz then [] else Nulled(rows, OptionIds(s.t.quizzes[quiz].questions))
  {
    var rows, old_ := RowsOf(s.t, id), s.t.quizzes[quiz].questions;
    assert AttemptOk(s.t, id);
    if s.t.attempts[id].quiz == quiz {
      KeptNone(rows, QuestionIds(old_));
    } else {
      KeptAll(rows, QuestionIds(old_));
    }
  }

  lemma SaveKeepsOk(s: System, r: Request, questions: seq<Question>)
    requires SystemOk(s)
    ensures SystemOk(Apply(s, SaveCommit(r, questions)))
  {
    var u := Apply(s, SaveCommit(r, questions));
    if u != s {
      QuizzesWithRewritten(s, s.saves[r], questions);
      forall id | id in u.t.attempts
        ensures AttemptOk(u.t, id)
      {
        assert AttemptOk(s.t, id);
        RowsAfterSave(s, s.saves[r], questions, id);
      }
    }
  }

  lemma AddKeepsOk(s: System, quiz: QuizId, question: Question)
    requires SystemOk(s)
    ensures SystemOk(Apply(s, AddQuestion(quiz, question)))
  {
    var u := Apply(s, AddQuestion(quiz, question));
    if u != s {
      QuizzesWithAdded(s, quiz, question);
      forall id | id in u.t.attempts
        ensures AttemptOk(u.t, id)
      {
        assert AttemptOk(s.t, id);
      }
    }
  }

  lemma RowsWithAdded(questions: seq<Question>, question: Question)
    ensures QuestionIds(questions + [question]) == QuestionIds(questions) + {question.id}
    ensures OptionIds(questions + [question]) == OptionIds(questions) + OptionIds([question])
    ensures QuestionIds([question]) == {question.id}
    ensures forall i :: 0 <= i < |questions| ==> questions[i].id in QuestionIds(questions)
  {
    assert question in [question] && question in questions + [question];
    assert forall q :: q in questions + [question] <==> q in questions || q == question;
    assert forall i :: 0 <= i < |questions| ==> questions[i] in questions;
  }

  lemma QuizzesWithAdded(s: System, quiz: QuizId, question: Question)
    requires SystemOk(s) && quiz in s.t.quizzes && NewRows(s.t, [question])
    ensures var u := QuestionAdded(s.t, quiz, question);
            QuizzesApart(u.quizzes, u.options) && QuestionIds(s.t.quizzes[quiz].questions) <= QuestionIds(u.quizzes[quiz].questions)
  {
    RowsWithAdded(s.t.quizzes[quiz].questions, question);
  }

  lemma GradedOk(questions: seq<Question>, answers: seq<Answer>, key: AnswerKey)
    requires IsKey(questions, key)
    ensures var rows := GradedRows(questions, answers, key);
            RowsWithin(rows, questions) && Count(rows, Correct) + Count(rows, Wrong) + Count(rows, Skipped) == |rows|
  {
    var rows := GradedRows(questions, answers, key);
    CountsAddUp(rows);
    assert forall i :: 0 <= i < |questions| ==> questions[i] in questions && rows[i].question == questions[i].id;
  }

  /** A submission touches nothing but its own attempt. */
  lemma SubmitFrame(t: Tables, sub: Submission)
    requires PossibleKey(t, sub)
    ensures var u := Submit(t, sub).0;
            && u.quizzes == t.quizzes && u.options == t.options && u.attempts.Keys == t.attempts.Keys
            && (forall id :: id in t.attempts && (id != sub.attempt || !Grades(t, sub)) ==>
                  u.attempts[id] == t.attempts[id] && RowsOf(u, id) == RowsOf(t, id))
            && forall id :: id in u.answers ==> id in t.answers || id in t.attempts
  {
  }

  lemma SubmittedOk(t: Tables, sub: Submission)
    requires PossibleKey(t, sub) && Grades(t, sub) && AttemptOk(t, sub.attempt)
    ensures var u := Submit(t, sub).0; sub.attempt in u.attempts && AttemptOk(u, sub.attempt)
  {
    GradedOk(t.quizzes[t.attempts[sub.attempt].quiz].questions, sub.answers, sub.key);
  }

  lemma SubmitKeepsAttempts(t: Tables, sub: Submission)
    requires AttemptsOk(t) && PossibleKey(t, sub)
    ensures AttemptsOk(Submit(t, sub).0)
  {
    var u := Submit(t, sub).0;
    SubmitFrame(t, sub);
    if Grades(t, sub) { SubmittedOk(t, sub); }
    forall id | id in u.attempts
      ensures AttemptOk(u, id)
    {
      assert AttemptOk(t, id);
    }
  }

  lemma SendKeepsOk(s: System, sub: Submission)
    requires SystemOk(s)
    ensures SystemOk(Apply(s, Send(sub)))
  {
    if PossibleKey(s.t, sub) {
      SubmitFrame(s.t, sub);
      SubmitKeepsAttempts(s.t, sub);
    }
  }

  /** The remaining steps leave questions and answers alone and complete no attempt. */
  ghost predicate Plain(op: Op) {
    !op.Send? && !op.AddQuestion? && !op.SaveCommit?
  }

  lemma PlainFrame(s: System, op: Op)
    requires Plain(op)
    ensures var u := Apply(s, op).t;
            && u.answers == s.t.answers && u.options == s.t.options
            && (forall z :: z in s.t.quizzes ==> z in u.quizzes && u.quizzes[z].questions == s.t.quizzes[z].questions)
            && (forall z :: z in u.quizzes && z !in s.t.quizzes ==> u.quizzes[z].questions == [])
            && (forall id :: id in s.t.attempts ==> id in u.attempts && u.attempts[id] == s.t.attempts[id])
            && (forall id :: id in u.attempts && id !in s.t.attempts ==>
                  u.attempts[id].status == InProgress && u.attempts[id].startedAt % 1000 == 0
                  && (op.Insert? && op.r in s.lookups && u.attempts[id].quiz == s.lookups[op.r].quiz))
  {
  }

  lemma ApartAgain(quizzes: map<QuizId, Quiz>, next: map<QuizId, Quiz>, options: set<OptionId>)
    requires QuizzesApart(quizzes, options)
    requires forall z :: z in next ==> next[z].questions == if z in quizzes then quizzes[z].questions else []
    ensures QuizzesApart(next, options)
  {
    assert QuestionIds([]) == {} && OptionIds([]) == {};
  }

  lemma PlainKeepsAttempts(s: System, op: Op)
    requires SystemOk(s) && Plain(op)
    ensures AttemptsOk(Apply(s, op).t)
  {
    var u := Apply(s, op).t;
    PlainFrame(s, op);
    forall id | id in u.attempts
      ensures AttemptOk(u, id)
    {
      assert id in s.t.attempts ==> AttemptOk(s.t, id);
    }
  }

  lemma LookupsStay(s: System, op: Op)
    requires forall r :: r in s.lookups ==> s.lookups[r].quiz in s.t.quizzes
    ensures forall r :: r in Apply(s, op).lookups ==> Apply(s, op).lookups[r].quiz in Apply(s, op).t.quizzes
  {
  }

  lemma PlainKeepsOk(s: System, op: Op)
    requires SystemOk(s) && Plain(op)
    ensures SystemOk(Apply(s, op))
  {
    PlainFrame(s, op);
    ApartAgain(s.t.quizzes, Apply(s, op).t.quizzes, s.t.options);
    PlainKeepsAttempts(s, op);
    LookupsStay(s, op);
  }

  lemma StepKeepsOk(s: System, op: Op)
    requires SystemOk(s)
    ensures SystemOk(Apply(s, op))
  {
    match op
    case Send(sub) => SendKeepsOk(s, sub);
    case AddQuestion(quiz, question) => AddKeepsOk(s, quiz, question);
    case SaveCommit(r, questions) => SaveKeepsOk(s, r, questions);
    case _ => PlainKeepsOk(s, op);
  }

  lemma {:induction false} OkInEveryRun(s: System, ops: seq<Op>)
    requires Initial(s)
    ensures SystemOk(Run(s, ops))
  {
    if ops != [] {
      OkInEveryRun(s, ops[..|ops| - 1]);
      StepKeepsOk(Run(s, ops[..|ops| - 1]), ops[|ops| - 1]);
    }
  }

  // ---------------------------------------------------------------- what disturbs an agreement

  /** The step rewrites the quiz of this attempt to something its counts do not fit, adds a
      question to it, or deletes an option chosen in it. */
  ghost predicate Disturbs(s: System, op: Op, id: AttemptId)
    requires id in s.t.attempts
  {
    var a := s.t.attempts[id];
    match op
    case AddQuestion(quiz, question) => quiz == a.quiz && quiz in s.building && quiz in s.t.quizzes && NewRows(s.t, [question])
    case SaveCommit(r, questions) =>
      && r in s.saves && s.saves[r] in s.t.quizzes && NewRows(s.t, questions)
      && if s.saves[r] == a.quiz then a.correct != 0 || a.wrong != 0 || a.skipped != |questions|
         else exists row :: row in RowsOf(s.t, id) && Chose(row, OptionIds(s.t.quizzes[s.saves[r]].questions))
    case _ => false
  }

  /** A question more is shown as skipped. */
  lemma AddedIsSkipped(s: System, quiz: QuizId, question: Question, id: AttemptId)
    requires SystemOk(s) && quiz in s.t.quizzes && NewRows(s.t, [question]) && id in s.t.attempts && s.t.attempts[id].quiz == quiz
    ensures CountStatus(Review(QuestionAdded(s.t, quiz, question), id), Skipped) == CountStatus(Review(s.t, id), Skipped) + 1
  {
    var before, rows := s.t.quizzes[quiz].questions, RowsOf(s.t, id);
    assert AttemptOk(s.t, id);
    assert question in [question] && question.id in QuestionIds([question]);
    NoRowJoins(rows, question.id);
    assert (before + [question])[..|before|] == before;
    CountStatusAppend(ReviewOf(before, rows), [Skipped], Skipped);
    assert CountStatus([Skipped], Skipped) == 1;
  }

  lemma SaveDisturbsIff(s: System, r: Request, questions: seq<Question>, id: AttemptId)
    requires SystemOk(s) && id in s.t.attempts && s.t.attempts[id].status == Completed && Agrees(s.t, id)
    ensures var u := Apply(s, SaveCommit(r, questions)).t;
            && id in u.attempts && u.attempts[id] == s.t.attempts[id] && s.t.attempts[id].quiz in u.quizzes
            && (!Agrees(u, id) <==> Disturbs(s, SaveCommit(r, questions), id))
  {
    var u := Apply(s, SaveCommit(r, questions));
    if u != s {
      var quiz, a := s.saves[r], s.t.attempts[id];
      RowsAfterSave(s, quiz, questions, id);
      if quiz == a.quiz {
        ReviewWithoutRows(questions);
      } else {
        OtherQuizSaved(s, quiz, id);
      }
    }
  }

  lemma OtherQuizSaved(s: System, quiz: QuizId, id: AttemptId)
    requires SystemOk(s) && quiz in s.t.quizzes && id in s.t.attempts && quiz != s.t.attempts[id].quiz
    ensures var rows, gone, asked := RowsOf(s.t, id), OptionIds(s.t.quizzes[quiz].questions), s.t.quizzes[s.t.attempts[id].quiz].questions;
            if exists row :: row in rows && Chose(row, gone)
            then CountStatus(ReviewOf(asked, Nulled(rows, gone)), Skipped) > CountStatus(ReviewOf(asked, rows), Skipped)
            else Nulled(rows, gone) == rows
  {
    assert AttemptOk(s.t, id);
    ForgottenChoices(RowsOf(s.t, id), OptionIds(s.t.quizzes[quiz].questions), s.t.quizzes[s.t.attempts[id].quiz].questions);
  }

  lemma ForgottenChoices(rows: seq<AnswerRow>, gone: set<OptionId>, asked: seq<Question>)
    requires RowsWithin(rows, asked)
    ensures if exists row :: row in rows && Chose(row, gone)
            then CountStatus(ReviewOf(asked, Nulled(rows, gone)), Skipped) > CountStatus(ReviewOf(asked, rows), Skipped)
            else Nulled(rows, gone) == rows
  {
    NulledReview(asked, rows, gone);
    if row :| row in rows && Chose(row, gone) {
      var i :| 0 <= i < |rows| && rows[i] == row;
      assert ChoseFor(rows, gone, asked);
    }
  }

  lemma AddDisturbsIff(s: System, quiz: QuizId, question: Question, id: AttemptId)
    requires SystemOk(s) && id in s.t.attempts && s.t.attempts[id].status == Completed
    requires s.t.attempts[id].quiz in s.t.quizzes && Agrees(s.t, id)
    ensures var u := Apply(s, AddQuestion(quiz, question)).t;
            && id in u.attempts && u.attempts[id] == s.t.attempts[id] && s.t.attempts[id].quiz in u.quizzes
            && (!Agrees(u, id) <==> Disturbs(s, AddQuestion(quiz, question), id))
  {
    if quiz == s.t.attempts[id].quiz && Disturbs(s, AddQuestion(quiz, question), id) {
      AddedIsSkipped(s, quiz, question, id);
    }
  }

  lemma PlainDisturbsNone(s: System, op: Op, id: AttemptId)
    requires Plain(op) || (op.Send? && (PossibleKey(s.t, op.sub) ==> op.sub.attempt != id || !Grades(s.t, op.sub)))
    requires id in s.t.attempts && s.t.attempts[id].quiz in s.t.quizzes
    ensures var u := Apply(s, op).t;
            && id in u.attempts && u.attempts[id] == s.t.attempts[id] && s.t.attempts[id].quiz in u.quizzes
            && (Agrees(u, id) <==> Agrees(s.t, id))
  {
    if op.Send? {
      if PossibleKey(s.t, op.sub) { SubmitFrame(s.t, op.sub); }
    } else {
      PlainFrame(s, op);
    }
  }

  /** Exactly when a step makes the review of a completed attempt disagree with its counts. */
  lemma DisturbedIff(s: System, op: Op, id: AttemptId)
    requires SystemOk(s) && id in s.t.attempts && s.t.attempts[id].status == Completed
    requires s.t.attempts[id].quiz in s.t.quizzes && Agrees(s.t, id)
    ensures var u := Apply(s, op).t;
            && id in u.attempts && u.attempts[id] == s.t.attempts[id] && s.t.attempts[id].quiz in u.quizzes
            && (!Agrees(u, id) <==> Disturbs(s, op, id))
  {
    match op
    case SaveCommit(r, questions) => SaveDisturbsIff(s, r, questions, id);
    case AddQuestion(quiz, question) => AddDisturbsIff(s, quiz, question, id);
    case _ => PlainDisturbsNone(s, op, id);
  }

  /** A first submission agrees. */
  lemma SubmittedAgrees(s: System, sub: Submission)
    requires SystemOk(s) && PossibleKey(s.t, sub) && Grades(s.t, sub)
    ensures var u := Submit(s.t, sub).0;
            u != s.t ==> sub.attempt in u.attempts && u.attempts[sub.attempt].quiz in u.quizzes && Agrees(u, sub.attempt)
  {
    var a := s.t.attempts[sub.attempt];
    var questions := s.t.quizzes[a.quiz].questions;
    var rows := GradedRows(questions, sub.answers, sub.key);
    ReviewCounts(questions, rows, Correct);
    ReviewCounts(questions, rows, Wrong);
    ReviewCounts(questions, rows, Skipped);
  }

  ghost predicate AllAgree(t: Tables) {
    forall id :: id in t.attempts && t.attempts[id].status == Completed ==> t.attempts[id].quiz in t.quizzes && Agrees(t, id)
  }

  ghost predicate DisturbsSome(s: System, op: Op) {
    exists id :: id in s.t.attempts && s.t.attempts[id].status == Completed && Disturbs(s, op, id)
  }

  ghost predicate CompletedIn(t: Tables, id: AttemptId) {
    id in t.attempts && t.attempts[id].status == Completed
  }

  lemma NewlyCompletedAgrees(s: System, op: Op, id: AttemptId)
    requires SystemOk(s)
    ensures CompletedIn(Apply(s, op).t, id) && !CompletedIn(s.t, id) ==>
              Apply(s, op).t.attempts[id].quiz in Apply(s, op).t.quizzes && Agrees(Apply(s, op).t, id)
  {
    if CompletedIn(Apply(s, op).t, id) && !CompletedIn(s.t, id) {
      AttemptsAfter(s, op, id);
      assert op.Send? && op.sub.attempt == id;
      if PossibleKey(s.t, op.sub) && Grades(s.t, op.sub) { SubmittedAgrees(s, op.sub); }
    }
  }

  /** The agreement of all completed attempts survives a step exactly when it disturbs none. */
  lemma AgreementKeptIff(s: System, op: Op)
    requires SystemOk(s) && AllAgree(s.t)
    ensures AllAgree(Apply(s, op).t) <==> !DisturbsSome(s, op)
  {
    var u := Apply(s, op).t;
    if id :| id in s.t.attempts && s.t.attempts[id].status == Completed && Disturbs(s, op, id) {
      DisturbedIff(s, op, id);
    } else {
      forall id | id in u.attempts && u.attempts[id].status == Completed
        ensures u.attempts[id].quiz in u.quizzes && Agrees(u, id)
      {
        if id in s.t.attempts && s.t.attempts[id].status == Completed {
          DisturbedIff(s, op, id);
        } else {
          NewlyCompletedAgrees(s, op, id);
        }
      }
    }
  }

  // ---------------------------------------------------------------- main results

  ghost predicate Undisturbed(s: System, ops: seq<Op>) {
    ops == [] || (Undisturbed(s, ops[..|ops| - 1]) && !DisturbsSome(Run(s, ops[..|ops| - 1]), ops[|ops| - 1]))
  }

  lemma {:induction false} AgreementInEveryRun(s: System, ops: seq<Op>)
    requires Initial(s) && Undisturbed(s, ops)
    ensures AllAgree(Run(s, ops).t)
  {
    if ops != [] {
      AgreementInEveryRun(s, ops[..|ops| - 1]);
      OkInEveryRun(s, ops[..|ops| - 1]);
      AgreementKeptIff(Run(s, ops[..|ops| - 1]), ops[|ops| - 1]);
    }
  }

  lemma StatusesAddUp(statuses: seq<Status>)
    ensures CountStatus(statuses, Correct) + CountStatus(statuses, Wrong) + CountStatus(statuses, Skipped) == |statuses|
  {
    if statuses != [] {
      StatusesAddUp(statuses[..|statuses| - 1]);
    }
  }

  /** Review and score agree: for every completed attempt of every run that disturbs none, the
      statuses GetReview shows count up to the stored numbers, and the stored score is the
      percentage of the correct ones among them. */
  lemma ReviewAgreesWithScore(s: System, ops: seq<Op>, id: AttemptId)
    requires Initial(s) && Undisturbed(s, ops)
    requires id in Run(s, ops).t.attempts && Run(s, ops).t.attempts[id].status == Completed
    ensures var t := Run(s, ops).t;
            var a := t.attempts[id];
            && a.quiz in t.quizzes
            && var review := Review(t, id);
            && |review| == a.correct + a.wrong + a.skipped
            && CountStatus(review, Correct) == a.correct
            && CountStatus(review, Wrong) == a.wrong
            && CountStatus(review, Skipped) == a.skipped
            && a.score == Some(ScorePercent(CountStatus(review, Correct), |review|))
  {
    AgreementInEveryRun(s, ops);
    OkInEveryRun(s, ops);
    var t := Run(s, ops).t;
    assert AttemptOk(t, id) && t.attempts[id].quiz in t.quizzes && Agrees(t, id);
    StatusesAddUp(Review(t, id));
  }

  /** What a student is told on submitting, the first time or again, is what the review then shows. */
  lemma ResultAgreesWithReview(s: System, ops: seq<Op>, sub: Submission)
    requires Initial(s) && Undisturbed(s, ops) && PossibleKey(Run(s, ops).t, sub) && Submit(Run(s, ops).t, sub).1.Ok?
    ensures var (u, r) := Submit(Run(s, ops).t, sub);
            && sub.attempt in u.attempts && u.attempts[sub.attempt].quiz in u.quizzes
            && var review := Review(u, sub.attempt);
            && r.value.total == |review|
            && r.value.correct == CountStatus(review, Correct)
            && r.value.wrong == CountStatus(review, Wrong)
            && r.value.skipped == CountStatus(review, Skipped)
  {
    AgreementInEveryRun(s, ops);
    OkInEveryRun(s, ops);
    var w := Run(s, ops);
    if Grades(w.t, sub) {
      SubmittedAgrees(w, sub);
    } else {
      assert AttemptOk(w.t, sub.attempt) && Agrees(w.t, sub.attempt);
    }
    StatusesAddUp(Review(Submit(w.t, sub).0, sub.attempt));
  }

  /** Question by question, whether the last answer was the key's option. */
  ghost predicate ShowsChoices(questions: seq<Question>, sub: Submission, review: seq<Status>)
    requires IsKey(questions, sub.key)
  {
    && |review| == |questions|
    && forall i :: 0 <= i < |questions| ==>
         && questions[i] in questions
         && var chosen := LastChoice(sub.answers, questions[i].id);
            && (review[i] == Skipped <==> chosen.None?)
            && (review[i] == Correct <==> chosen.Some? && chosen == sub.key[questions[i].id])
  }

  lemma GradedStatus(questions: seq<Question>, sub: Submission, i: nat)
    requires IsKey(questions, sub.key) && i < |questions|
    ensures questions[i] in questions
    ensures var chosen, status := LastChoice(sub.answers, questions[i].id), StatusOf(GradedRows(questions, sub.answers, sub.key)[i]);
            && (status == Skipped <==> chosen.None?)
            && (status == Correct <==> chosen.Some? && chosen == sub.key[questions[i].id])
  {
  }

  lemma GradedShowsChoices(questions: seq<Question>, sub: Submission)
    requires IsKey(questions, sub.key) && DistinctQuestions(questions)
    ensures ShowsChoices(questions, sub, ReviewOf(questions, GradedRows(questions, sub.answers, sub.key)))
  {
    var rows := GradedRows(questions, sub.answers, sub.key);
    ReviewIsRowStatuses(questions, rows, |rows|);
    assert questions[..|questions|] == questions && rows[..|rows|] == rows;
    forall i | 0 <= i < |questions|
      ensures questions[i] in questions
      ensures var chosen := LastChoice(sub.answers, questions[i].id);
              && (StatusOf(rows[i]) == Skipped <==> chosen.None?)
              && (StatusOf(rows[i]) == Correct <==> chosen.Some? && chosen == sub.key[questions[i].id])
    {
      GradedStatus(questions, sub, i);
    }
  }

  lemma FreshReview(s: System, sub: Submission)
    requires SystemOk(s) && PossibleKey(s.t, sub) && Grades(s.t, sub) && Submit(s.t, sub).1.Ok?
    ensures var u := Submit(s.t, sub).0;
            && sub.attempt in u.attempts && u.attempts[sub.attempt].quiz in u.quizzes
            && ShowsChoices(s.t.quizzes[s.t.attempts[sub.attempt].quiz].questions, sub, Review(u, sub.attempt))
  {
    GradedShowsChoices(s.t.quizzes[s.t.attempts[sub.attempt].quiz].questions, sub);
  }

  /** What callers can see to before a step: attempts start at finished quizzes, submissions
      choose among the options of the attempt's own quiz, and a save commits while its quiz is
      still a draft. */
  ghost predicate Careful(s: System, op: Op) {
    match op
    case LookUp(_, quiz, _, _) => quiz !in s.building
    case Send(sub) =>
      PossibleKey(s.t, sub) && Grades(s.t, sub) ==>
        var questions := s.t.quizzes[s.t.attempts[sub.attempt].quiz].questions;
        forall q :: q in questions && LastChoice(sub.answers, q.id).Some? ==> LastChoice(sub.answers, q.id).value in OptionIds(questions)
    case SaveCommit(r, _) => r in s.saves && s.saves[r] in s.t.quizzes ==> s.t.quizzes[s.saves[r]].draft
    case _ => true
  }

  ghost predicate OwnOptions(t: Tables, id: AttemptId)
    requires id in t.attempts && t.attempts[id].quiz in t.quizzes
  {
    forall row :: row in RowsOf(t, id) && row.selected.Some? ==> row.selected.value in OptionIds(t.quizzes[t.attempts[id].quiz].questions)
  }

  ghost predicate Finished(s: System, quiz: QuizId) {
    quiz in s.t.quizzes && quiz !in s.building && !s.t.quizzes[quiz].draft
  }

  /** Attempts and waiting calls are at finished, published quizzes, and answers choose there. */
  ghost predicate CarefulOk(s: System) {
    && (forall id :: id in s.t.attempts ==> Finished(s, s.t.attempts[id].quiz) && OwnOptions(s.t, id))
    && forall r :: r in s.lookups ==> Finished(s, s.lookups[r].quiz)
  }

  lemma CarefulDisturbsNone(s: System, op: Op)
    requires SystemOk(s) && CarefulOk(s) && Careful(s, op)
    ensures !DisturbsSome(s, op)
  {
    forall id | id in s.t.attempts
      ensures !Disturbs(s, op, id)
    {
      assert Finished(s, s.t.attempts[id].quiz) && OwnOptions(s.t, id);
    }
  }

  lemma FinishedStays(s: System, op: Op, quiz: QuizId)
    requires Finished(s, quiz)
    requires op.SaveCommit? ==> Careful(s, op)
    ensures Finished(Apply(s, op), quiz) && Apply(s, op).t.quizzes[quiz] == s.t.quizzes[quiz]
  {
  }

  lemma CarefulRows(s: System, op: Op, id: AttemptId)
    requires SystemOk(s) && CarefulOk(s) && Careful(s, op) && id in s.t.attempts && !op.Send?
    ensures forall row :: row in RowsOf(Apply(s, op).t, id) && row.selected.Some? ==>
              row.selected.value in OptionIds(s.t.quizzes[s.t.attempts[id].quiz].questions)
  {
    assert Finished(s, s.t.attempts[id].quiz) && OwnOptions(s.t, id);
    match op
    case SaveCommit(r, questions) =>
      if r in s.saves && s.saves[r] in s.t.quizzes && NewRows(s.t, questions) {
        RowsAfterSave(s, s.saves[r], questions, id);
        NulledChoices(RowsOf(s.t, id), OptionIds(s.t.quizzes[s.saves[r]].questions));
      }
    case AddQuestion(_, _) =>
    case _ => PlainFrame(s, op);
  }

  lemma NulledChoices(rows: seq<AnswerRow>, gone: set<OptionId>)
    ensures forall row :: row in Nulled(rows, gone) && row.selected.Some? ==> row in rows
  {
  }

  lemma CarefulSend(t: Tables, sub: Submission, id: AttemptId)
    requires PossibleKey(t, sub) && id in t.attempts && t.attempts[id].quiz in t.quizzes && OwnOptions(t, id)
    requires Grades(t, sub) ==>
               var questions := t.quizzes[t.attempts[sub.attempt].quiz].questions;
               forall q :: q in questions && LastChoice(sub.answers, q.id).Some? ==> LastChoice(sub.answers, q.id).value in OptionIds(questions)
    ensures var u := Submit(t, sub).0;
            id in u.attempts && u.attempts[id].quiz == t.attempts[id].quiz && u.quizzes == t.quizzes && OwnOptions(u, id)
  {
    var u := Submit(t, sub).0;
    SubmitFrame(t, sub);
    if id == sub.attempt && Grades(t, sub) {
      var questions := t.quizzes[t.attempts[id].quiz].questions;
      var rows := GradedRows(questions, sub.answers, sub.key);
      forall row | row in rows && row.selected.Some?
        ensures row.selected.value in OptionIds(questions)
      {
        var i :| 0 <= i < |rows| && rows[i] == row;
        assert questions[i] in questions;
      }
    }
  }

  lemma CarefulStep(s: System, op: Op)
    requires SystemOk(s) && CarefulOk(s) && Careful(s, op)
    ensures CarefulOk(Apply(s, op))
  {
    var u := Apply(s, op);
    forall id | id in u.t.attempts
      ensures Finished(u, u.t.attempts[id].quiz) && OwnOptions(u.t, id)
    {
      AttemptsAfter(s, op, id);
      if id in s.t.attempts {
        FinishedStays(s, op, s.t.attempts[id].quiz);
        assert OwnOptions(s.t, id);
        if op.Send? {
          if PossibleKey(s.t, op.sub) { CarefulSend(s.t, op.sub, id); }
        } else {
          CarefulRows(s, op, id);
        }
      } else {
        assert Finished(s, s.lookups[op.r].quiz);
        FinishedStays(s, op, s.lookups[op.r].quiz);
        assert RowsOf(u.t, id) == [];
      }
    }
    forall r | r in u.lookups
      ensures Finished(u, u.lookups[r].quiz)
    {
      if r in s.lookups { FinishedStays(s, op, s.lookups[r].quiz); }
    }
  }

  ghost predicate CarefulRun(s: System, ops: seq<Op>) {
    ops == [] || (CarefulRun(s, ops[..|ops| - 1]) && Careful(Run(s, ops[..|ops| - 1]), ops[|ops| - 1]))
  }

  /** Careful callers never disturb an attempt, so all reviews agree in all their runs. */
  lemma {:induction false} CarefulRunsAgree(s: System, ops: seq<Op>)
    requires Initial(s) && CarefulRun(s, ops)
    ensures Undisturbed(s, ops) && AllAgree(Run(s, ops).t) && CarefulOk(Run(s, ops))
  {
    if ops != [] {
      var init, op := ops[..|ops| - 1], ops[|ops| - 1];
      CarefulRunsAgree(s, init);
      OkInEveryRun(s, init);
      CarefulDisturbsNone(Run(s, init), op);
      CarefulStep(Run(s, init), op);
      AgreementKeptIff(Run(s, init), op);
    }
  }

  /** After a successful submission, whatever happens next, also to the quiz, the owner's later
      submissions return the identical result and change nothing, with any answers and at any
      time. */
  lemma ResubmissionReturnsTheSameResult(s: System, sub: Submission, ops: seq<Op>, again: Submission)
    requires PossibleKey(s.t, sub) && Submit(s.t, sub).1.Ok?
    requires again.attempt == sub.attempt && again.user == sub.user
    ensures var u := Run(Apply(s, Send(sub)), ops).t;
            PossibleKey(u, again) && Submit(u, again) == (u, Submit(s.t, sub).1)
  {
    CompletedStays(Apply(s, Send(sub)), ops, sub.attempt);
  }

  lemma {:induction false} CompletedStays(s: System, ops: seq<Op>, id: AttemptId)
    requires id in s.t.attempts && s.t.attempts[id].status == Completed
    ensures id in Run(s, ops).t.attempts && Run(s, ops).t.attempts[id] == s.t.attempts[id]
  {
    if ops != [] {
      CompletedStays(s, ops[..|ops| - 1], id);
      AttemptsAfter(Run(s, ops[..|ops| - 1]), ops[|ops| - 1], id);
    }
  }

  // ---------------------------------------------------------------- a save that comes too late

  /** A save passes its draft check, the exam is published, and a student opens an attempt. */
  function OpenedBeforeSave(quiz: QuizId, user: User, at: int, r: Request, id: AttemptId): seq<Op> {
    [SaveCheck(r, quiz), Publish(quiz), LookUp(r, quiz, user, at), Insert(r, id)]
  }

  lemma ExamPublished(s: System, quiz: QuizId, r: Request)
    requires quiz in s.t.quizzes && quiz !in s.building && s.t.quizzes[quiz].draft && r !in s.saves
    ensures Apply(Apply(s, SaveCheck(r, quiz)), Publish(quiz)) ==
            s.(t := s.t.(quizzes := s.t.quizzes[quiz := Quiz(false, s.t.quizzes[quiz].questions)]), saves := s.saves[r := quiz])
  {
  }

  lemma ExamOpened(s: System, quiz: QuizId, user: User, at: int, r: Request, id: AttemptId)
    requires quiz in s.t.quizzes && quiz !in s.building && s.t.quizzes[quiz].draft && !HasOpen(s.t, quiz, user)
    requires r !in s.saves && r !in s.lookups && id !in s.t.attempts
    ensures Run(s, OpenedBeforeSave(quiz, user, at, r, id)) ==
            System(Tables(s.t.quizzes[quiz := Quiz(false, s.t.quizzes[quiz].questions)], s.t.options,
                          s.t.attempts[id := NewAttempt(quiz, user, at)], s.t.answers),
                   s.building, s.lookups, s.saves[r := quiz])
  {
    var ops := OpenedBeforeSave(quiz, user, at, r, id);
    ExamPublished(s, quiz, r);
    RunNext(s, ops, 1);
    RunNext(s, ops, 2);
    var published := Run(s, ops[..2]);
    assert ops[..0] == [] && published == Apply(Apply(s, SaveCheck(r, quiz)), Publish(quiz));
    RunNext(s, ops, 3);
    RunNext(s, ops, 4);
    CreatedIsLookUpThenInsert(published, quiz, user, at, r, id);
    assert ops[..4] == ops;
    assert s.lookups[r := Missed(quiz, user, at)] - {r} == s.lookups;
  }

  lemma {:induction false} RunKeepsOk(s: System, ops: seq<Op>)
    requires SystemOk(s)
    ensures SystemOk(Run(s, ops))
  {
    if ops != [] {
      RunKeepsOk(s, ops[..|ops| - 1]);
      StepKeepsOk(Run(s, ops[..|ops| - 1]), ops[|ops| - 1]);
    }
  }

  /** A submission, then a save of its quiz. */
  lemma SubmittedNow(s: System, sub: Submission)
    requires SystemOk(s) && Grades(s.t, sub) && PossibleKey(s.t, sub)
    requires KnownOptions(GradedRows(s.t.quizzes[s.t.attempts[sub.attempt].quiz].questions, sub.answers, sub.key), s.t.options)
    ensures var u := Submit(s.t, sub).0;
            && u.quizzes == s.t.quizzes && u.options == s.t.options && sub.attempt in u.attempts
            && u.attempts[sub.attempt].status == Completed && u.attempts[sub.attempt].quiz == s.t.attempts[sub.attempt].quiz
            && u.attempts[sub.attempt].quiz in u.quizzes && Agrees(u, sub.attempt)
  {
    SubmittedAgrees(s, sub);
  }

  lemma SubmitThenSave(s: System, r: Request, sub: Submission, questions: seq<Question>)
    requires SystemOk(s) && Grades(s.t, sub) && PossibleKey(s.t, sub)
    requires KnownOptions(GradedRows(s.t.quizzes[s.t.attempts[sub.attempt].quiz].questions, sub.answers, sub.key), s.t.options)
    requires r in s.saves && s.saves[r] == s.t.attempts[sub.attempt].quiz && NewRows(s.t, questions)
    ensures SavedAfter(Apply(s, Send(sub)), r, sub.attempt, questions)
  {
    SubmittedNow(s, sub);
    StepKeepsOk(s, Send(sub));
    SavedLater(Apply(s, Send(sub)), r, sub.attempt, questions);
  }

  lemma SavedLater(s: System, r: Request, id: AttemptId, questions: seq<Question>)
    requires SystemOk(s) && id in s.t.attempts && s.t.attempts[id].status == Completed
    requires s.t.attempts[id].quiz in s.t.quizzes && Agrees(s.t, id)
    requires r in s.saves && s.saves[r] == s.t.attempts[id].quiz && NewRows(s.t, questions)
    ensures SavedAfter(s, r, id, questions)
  {
    DisturbedIff(s, SaveCommit(r, questions), id);
  }

  /** A completed attempt is shown right, and a save of its quiz now leaves it right only if
      nothing was answered and as many questions are saved as there were. */
  ghost predicate SavedAfter(s: System, r: Request, id: AttemptId, questions: seq<Question>) {
    && id in s.t.attempts && s.t.attempts[id].status == Completed && s.t.attempts[id].quiz in s.t.quizzes && Agrees(s.t, id)
    && var a, saved := s.t.attempts[id], Apply(s, SaveCommit(r, questions)).t;
    && id in saved.attempts && saved.attempts[id] == a && a.quiz in saved.quizzes
    && (Agrees(saved, id) <==> a.correct == 0 && a.wrong == 0 && a.skipped == |questions|)
  }

  /** How this breaks for every draft, student and submission. */
  lemma LateSaveBreaksReview(s: System, quiz: QuizId, at: int, r: Request, sub: Submission, questions: seq<Question>)
    requires SystemOk(s) && quiz in s.t.quizzes && quiz !in s.building && s.t.quizzes[quiz].draft && !HasOpen(s.t, quiz, sub.user)
    requires r !in s.saves && r !in s.lookups && sub.attempt !in s.t.attempts
    requires IsKey(s.t.quizzes[quiz].questions, sub.key) && NewRows(s.t, questions)
    requires KnownOptions(GradedRows(s.t.quizzes[quiz].questions, sub.answers, sub.key), s.t.options)
    ensures SavedAfter(Run(s, OpenedBeforeSave(quiz, sub.user, at, r, sub.attempt) + [Send(sub)]), r, sub.attempt, questions)
  {
    var ops := OpenedBeforeSave(quiz, sub.user, at, r, sub.attempt);
    ExamOpened(s, quiz, sub.user, at, r, sub.attempt);
    RunKeepsOk(s, ops);
    assert (ops + [Send(sub)])[..|ops|] == ops;
    SubmitThenSave(Run(s, ops), r, sub, questions);
  }
}
