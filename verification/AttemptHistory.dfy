/** Attempts while the quizzes around them change: students open, submit and review, workers
    write quizzes question by question, owners save and publish drafts (quiz/service.go:143-416,
    quiz/review.go:111-239, 345-391, scan/worker.go:404-415).

    CreateAttempt is two steps: its look-up and its insert are separate statements without a
    lock. The status check goes with the look-up, because a published quiz stays published. */
module AttemptHistory {
  import opened Common
  import opened Scores
  import opened Attempts

  type Request = nat

  /** A CreateAttempt call whose look-up found no open attempt. */
  datatype Missed = Missed(quiz: QuizId, user: User, startedAt: int)

  /** `building` are the quizzes whose worker is still adding questions; `saves` are SaveDraft
      calls that have passed their draft check. */
  datatype System = System(t: Tables, building: set<QuizId>, lookups: map<Request, Missed>, saves: map<Request, QuizId>)

  datatype Op =
    | LookUp(r: Request, quiz: QuizId, user: User, startedAt: int)
    | Insert(r: Request, id: AttemptId)
    | Send(sub: Submission)
    | NewQuiz(quiz: QuizId, draft: bool)
    | AddQuestion(quiz: QuizId, question: Question)
    | Finish(quiz: QuizId)
    | SaveCheck(r: Request, quiz: QuizId)
    | SaveCommit(r: Request, questions: seq<Question>)
    | Publish(quiz: QuizId)

  // ---------------------------------------------------------------- the tables under a save

  ghost function QuestionIds(questions: seq<Question>): set<QuestionId> {
    set q | q in questions :: q.id
  }

  ghost function OptionIds(questions: seq<Question>): set<OptionId> {
    set q, i | q in questions && 0 <= i < |q.options| :: q.options[i].id
  }

  /** ON DELETE CASCADE: the answers to deleted questions go. */
  ghost function Kept(rows: seq<AnswerRow>, gone: set<QuestionId>): seq<AnswerRow> {
    if rows == [] then []
    else Kept(rows[..|rows| - 1], gone) + if rows[|rows| - 1].question in gone then [] else [rows[|rows| - 1]]
  }

  predicate Chose(row: AnswerRow, options: set<OptionId>) {
    row.selected.Some? && row.selected.value in options
  }

  /** ON DELETE SET NULL: a selection of a deleted option is forgotten. */
  ghost function Nulled(rows: seq<AnswerRow>, gone: set<OptionId>): (r: seq<AnswerRow>)
    ensures |r| == |rows|
  {
    seq(|rows|, i requires 0 <= i < |rows| => if Chose(rows[i], gone) then rows[i].(selected := None) else rows[i])
  }

  ghost function Cascaded(rows: seq<AnswerRow>, deleted: seq<Question>): seq<AnswerRow> {
    Nulled(Kept(rows, QuestionIds(deleted)), OptionIds(deleted))
  }

  /** The SaveDraft transaction: the old questions are deleted, the new ones inserted. */
  ghost function Saved(t: Tables, quiz: QuizId, questions: seq<Question>): Tables
    requires quiz in t.quizzes
  {
    var old_ := t.quizzes[quiz].questions;
    t.(quizzes := t.quizzes[quiz := t.quizzes[quiz].(questions := questions)],
       options := (t.options - OptionIds(old_)) + OptionIds(questions),
       answers := map id | id in t.answers :: Cascaded(t.answers[id], old_))
  }

  ghost function QuestionAdded(t: Tables, quiz: QuizId, question: Question): Tables
    requires quiz in t.quizzes
  {
    t.(quizzes := t.quizzes[quiz := t.quizzes[quiz].(questions := t.quizzes[quiz].questions + [question])],
       options := t.options + OptionIds([question]))
  }

  /** Rows get new ids. */
  ghost predicate NewRows(t: Tables, questions: seq<Question>) {
    && DistinctQuestions(questions)
    && (forall z :: z in t.quizzes ==> QuestionIds(questions) !! QuestionIds(t.quizzes[z].questions))
    && OptionIds(questions) !! t.options
  }

  // ---------------------------------------------------------------- steps

  ghost function Apply(s: System, op: Op): System {
    match op
    case LookUp(r, quiz, user, startedAt) =>
      if r !in s.lookups && Attemptable(s.t, quiz) && !HasOpen(s.t, quiz, user)
      then s.(lookups := s.lookups[r := Missed(quiz, user, startedAt)]) else s
    case Insert(r, id) =>
      if r in s.lookups && id !in s.t.attempts
      then s.(t := s.t.(attempts := s.t.attempts[id := NewAttempt(s.lookups[r].quiz, s.lookups[r].user, s.lookups[r].startedAt)]),
              lookups := s.lookups - {r})
      else s
    case Send(sub) => s.(t := if PossibleKey(s.t, sub) then Submit(s.t, sub).0 else s.t)
    case NewQuiz(quiz, draft) =>
      if quiz !in s.t.quizzes
      then s.(t := s.t.(quizzes := s.t.quizzes[quiz := Quiz(draft, [])]), building := s.building + {quiz}) else s
    case AddQuestion(quiz, question) =>
      if quiz in s.building && quiz in s.t.quizzes && NewRows(s.t, [question])
      then s.(t := QuestionAdded(s.t, quiz, question)) else s
    case Finish(quiz) => s.(building := s.building - {quiz})
    case SaveCheck(r, quiz) =>
      if r !in s.saves && quiz in s.t.quizzes && quiz !in s.building && s.t.quizzes[quiz].draft
      then s.(saves := s.saves[r := quiz]) else s
    case SaveCommit(r, questions) =>
      if r in s.saves && s.saves[r] in s.t.quizzes && NewRows(s.t, questions)
      then s.(t := Saved(s.t, s.saves[r], questions), saves := s.saves - {r}) else s
    case Publish(quiz) =>
      if quiz in s.t.quizzes && quiz !in s.building
      then s.(t := s.t.(quizzes := s.t.quizzes[quiz := s.t.quizzes[quiz].(draft := false)])) else s
  }

  ghost function Run(s: System, ops: seq<Op>): System {
    if ops == [] then s else Apply(Run(s, ops[..|ops| - 1]), ops[|ops| - 1])
  }

  ghost predicate Initial(s: System) {
    s == System(Tables(map[], {}, map[], map[]), {}, map[], map[])
  }

  // ---------------------------------------------------------------- one open attempt

  predicate SameOpenPair(a: Attempt, b: Attempt) {
    a.status == b.status == InProgress && a.quiz == b.quiz && a.owner == b.owner
  }

  ghost predicate OneOpen(t: Tables) {
    forall k, k' :: k in t.attempts && k' in t.attempts && SameOpenPair(t.attempts[k], t.attempts[k']) ==> k == k'
  }

  /** The step inserts an attempt for this quiz and user. */
  ghost predicate Opens(s: System, op: Op, quiz: QuizId, user: User) {
    op.Insert? && op.r in s.lookups && op.id !in s.t.attempts && s.lookups[op.r].quiz == quiz && s.lookups[op.r].user == user
  }

  /** Only submitting changes an attempt, and only inserting adds one. */
  lemma AttemptsAfter(s: System, op: Op, k: AttemptId)
    ensures k in s.t.attempts ==>
              && k in Apply(s, op).t.attempts
              && Apply(s, op).t.attempts[k].quiz == s.t.attempts[k].quiz && Apply(s, op).t.attempts[k].owner == s.t.attempts[k].owner
              && (s.t.attempts[k].status == Completed ==> Apply(s, op).t.attempts[k] == s.t.attempts[k])
              && (Apply(s, op).t.attempts[k].status == InProgress ==> Apply(s, op).t.attempts[k] == s.t.attempts[k])
    ensures k !in s.t.attempts && k in Apply(s, op).t.attempts ==>
              && op.Insert? && op.id == k && op.r in s.lookups
              && Apply(s, op).t.attempts[k] == NewAttempt(s.lookups[op.r].quiz, s.lookups[op.r].user, s.lookups[op.r].startedAt)
  {
  }

  /** Exactly when a step gives a student a second open attempt at a quiz: it is the insert of
      a call whose quiz and user have an open attempt by now. */
  lemma SecondAttemptIff(s: System, op: Op)
    requires OneOpen(s.t)
    ensures !OneOpen(Apply(s, op).t) <==>
              exists quiz, user :: Opens(s, op, quiz, user) && HasOpen(s.t, quiz, user)
  {
    var u := Apply(s, op).t;
    forall k ensures k in s.t.attempts ==> k in u.attempts { AttemptsAfter(s, op, k); }
    if quiz, user :| Opens(s, op, quiz, user) && HasOpen(s.t, quiz, user) {
      var k :| k in s.t.attempts && OpenAt(s.t.attempts[k], quiz, user);
      assert SameOpenPair(u.attempts[k], u.attempts[op.id]) && k != op.id;
    }
    if !OneOpen(u) {
      var k, k' :| k in u.attempts && k' in u.attempts && SameOpenPair(u.attempts[k], u.attempts[k']) && k != k';
      AttemptsAfter(s, op, k);
      AttemptsAfter(s, op, k');
      var quiz, user := u.attempts[k].quiz, u.attempts[k].owner;
      assert Opens(s, op, quiz, user);
      assert HasOpen(s.t, quiz, user);
    }
  }

  /** The call r looked up at step i, found nothing, and has not inserted by step n. */
  ghost predicate Waiting(s: System, ops: seq<Op>, i: nat, n: nat, r: Request)
    requires i < n <= |ops|
  {
    && ops[i].LookUp? && ops[i].r == r && r !in Run(s, ops[..i]).lookups
    && forall j :: i < j <= n ==> r in Run(s, ops[..j]).lookups
  }

  /** The attempt k was inserted between steps i and n by another call. */
  ghost predicate InsertedBetween(s: System, ops: seq<Op>, i: nat, n: nat, quiz: QuizId, user: User, k: AttemptId)
    requires i < n <= |ops|
  {
    exists j :: i < j < n && Opens(Run(s, ops[..j]), ops[j], quiz, user) && ops[j].id == k
  }

  lemma RunNext(s: System, ops: seq<Op>, n: nat)
    requires 0 < n <= |ops|
    ensures Run(s, ops[..n]) == Apply(Run(s, ops[..n - 1]), ops[n - 1])
  {
    assert ops[..n][..n - 1] == ops[..n - 1];
  }

  lemma {:induction false} StillWaiting(s: System, ops: seq<Op>, i: nat, n: nat, r: Request)
    requires i < n <= |ops| && Waiting(s, ops, i, n, r)
    ensures r in Run(s, ops[..n]).lookups
    ensures Run(s, ops[..n]).lookups[r] == Missed(ops[i].quiz, ops[i].user, ops[i].startedAt)
    ensures n == i + 1 ==> !HasOpen(Run(s, ops[..n]).t, ops[i].quiz, ops[i].user)
  {
    RunNext(s, ops, n);
    assert r in Run(s, ops[..n]).lookups;
    if n > i + 1 {
      StillWaiting(s, ops, i, n - 1, r);
    }
  }

  /** While a call waits between look-up and insert, the open attempts of its quiz and user are
      those that other calls have inserted since. */
  lemma {:induction false} OpenSinceLookUp(s: System, ops: seq<Op>, i: nat, n: nat, r: Request, k: AttemptId)
    requires i < n <= |ops| && Waiting(s, ops, i, n, r)
    ensures var quiz, user := ops[i].quiz, ops[i].user;
            var t := Run(s, ops[..n]).t;
            k in t.attempts && OpenAt(t.attempts[k], quiz, user) <==>
              InsertedBetween(s, ops, i, n, quiz, user, k) && k in t.attempts && t.attempts[k].status == InProgress
    ensures InsertedBetween(s, ops, i, n, ops[i].quiz, ops[i].user, k) ==>
              var t := Run(s, ops[..n]).t; k in t.attempts && t.attempts[k].quiz == ops[i].quiz && t.attempts[k].owner == ops[i].user
  {
    var quiz, user := ops[i].quiz, ops[i].user;
    if n == i + 1 {
      StillWaiting(s, ops, i, n, r);
    } else {
      OpenSinceLookUp(s, ops, i, n - 1, r, k);
      RunNext(s, ops, n);
      var before, op := Run(s, ops[..n - 1]), ops[n - 1];
      AttemptsAfter(before, op, k);
      InsertedOneMore(s, ops, i, n, quiz, user, k);
    }
  }

  lemma InsertedOneMore(s: System, ops: seq<Op>, i: nat, n: nat, quiz: QuizId, user: User, k: AttemptId)
    requires i + 1 < n <= |ops|
    ensures InsertedBetween(s, ops, i, n, quiz, user, k) <==>
              InsertedBetween(s, ops, i, n - 1, quiz, user, k)
              || (Opens(Run(s, ops[..n - 1]), ops[n - 1], quiz, user) && ops[n - 1].id == k)
  {
  }

  /** The exact condition for a second open attempt, for every run: the insert of a waiting
      call makes one iff another call inserted since this one's look-up missed, and that attempt
      is still open. */
  lemma SecondAttemptIffOvertaken(s: System, ops: seq<Op>, i: nat, r: Request, id: AttemptId)
    requires i < |ops| && Waiting(s, ops, i, |ops|, r) && OneOpen(Run(s, ops).t) && id !in Run(s, ops).t.attempts
    ensures !OneOpen(Apply(Run(s, ops), Insert(r, id)).t) <==>
              exists k :: InsertedBetween(s, ops, i, |ops|, ops[i].quiz, ops[i].user, k)
                          && k in Run(s, ops).t.attempts && Run(s, ops).t.attempts[k].status == InProgress
  {
    var u := Run(s, ops);
    assert ops[..|ops|] == ops;
    StillWaiting(s, ops, i, |ops|, r);
    SecondAttemptIff(u, Insert(r, id));
    assert Opens(u, Insert(r, id), ops[i].quiz, ops[i].user);
    forall k
      ensures k in u.t.attempts && OpenAt(u.t.attempts[k], ops[i].quiz, ops[i].user) <==>
              InsertedBetween(s, ops, i, |ops|, ops[i].quiz, ops[i].user, k) && k in u.t.attempts && u.t.attempts[k].status == InProgress
    {
      OpenSinceLookUp(s, ops, i, |ops|, r, k);
    }
  }

  /** How it happens, from any state with a published quiz: two calls look up before
      either inserts. */
  lemma OverlappingCallsOpenTwo(s: System, quiz: QuizId, user: User, at: int, r: Request, r': Request, id: AttemptId, id': AttemptId)
    requires Attemptable(s.t, quiz) && !HasOpen(s.t, quiz, user)
    requires r != r' && r !in s.lookups && r' !in s.lookups
    requires id != id' && id !in s.t.attempts && id' !in s.t.attempts
    ensures var u := Run(s, [LookUp(r, quiz, user, at), LookUp(r', quiz, user, at), Insert(r, id), Insert(r', id')]);
            id in u.t.attempts && id' in u.t.attempts && SameOpenPair(u.t.attempts[id], u.t.attempts[id'])
  {
    var ops := [LookUp(r, quiz, user, at), LookUp(r', quiz, user, at), Insert(r, id), Insert(r', id')];
    BothLookUp(s, quiz, user, at, r, r');
    RunNext(s, ops, 1);
    RunNext(s, ops, 2);
    RunNext(s, ops, 3);
    RunNext(s, ops, 4);
    assert ops[..4] == ops && ops[..0] == [];
  }

  lemma BothLookUp(s: System, quiz: QuizId, user: User, at: int, r: Request, r': Request)
    requires Attemptable(s.t, quiz) && !HasOpen(s.t, quiz, user) && r != r' && r !in s.lookups && r' !in s.lookups
    ensures Apply(Apply(s, LookUp(r, quiz, user, at)), LookUp(r', quiz, user, at)) ==
            s.(lookups := s.lookups[r := Missed(quiz, user, at)][r' := Missed(quiz, user, at)])
  {
  }

  /** CreateAttempt without a disturbance is its two steps. */
  lemma CreatedIsLookUpThenInsert(s: System, quiz: QuizId, user: User, startedAt: int, r: Request, id: AttemptId)
    requires r !in s.lookups
    ensures Apply(Apply(s, LookUp(r, quiz, user, startedAt)), Insert(r, id)).t == Created(s.t, quiz, user, startedAt, id)
  {
  }

  /** No two calls for the same quiz and user are between their look-up and their insert. */
  ghost predicate NoOverlap(s: System, ops: seq<Op>) {
    ops == [] ||
    (NoOverlap(s, ops[..|ops| - 1]) &&
     var before, op := Run(s, ops[..|ops| - 1]), ops[|ops| - 1];
     op.LookUp? ==> forall r :: r in before.lookups ==> before.lookups[r].quiz != op.quiz || before.lookups[r].user != op.user)
  }

  /** What waiting calls rely on. */
  ghost predicate AloneWaiting(s: System) {
    && (forall r :: r in s.lookups ==> !HasOpen(s.t, s.lookups[r].quiz, s.lookups[r].user))
    && forall r, r' :: r in s.lookups && r' in s.lookups && s.lookups[r].quiz == s.lookups[r'].quiz && s.lookups[r].user == s.lookups[r'].user ==> r == r'
  }

  lemma AloneStep(s: System, op: Op)
    requires OneOpen(s.t) && AloneWaiting(s)
    requires op.LookUp? ==> forall r :: r in s.lookups ==> s.lookups[r].quiz != op.quiz || s.lookups[r].user != op.user
    ensures OneOpen(Apply(s, op).t) && AloneWaiting(Apply(s, op))
  {
    var u := Apply(s, op);
    SecondAttemptIff(s, op);
    forall r | r in u.lookups
      ensures !HasOpen(u.t, u.lookups[r].quiz, u.lookups[r].user)
    {
      if k :| k in u.t.attempts && OpenAt(u.t.attempts[k], u.lookups[r].quiz, u.lookups[r].user) {
        AttemptsAfter(s, op, k);
        assert r in s.lookups ==> !HasOpen(s.t, s.lookups[r].quiz, s.lookups[r].user);
      }
    }
  }

  /** Then a student never has two open attempts at one quiz, whatever else happens. */
  lemma {:induction false} OneOpenInEveryRun(s: System, ops: seq<Op>)
    requires Initial(s) && NoOverlap(s, ops)
    ensures OneOpen(Run(s, ops).t) && AloneWaiting(Run(s, ops))
  {
    if ops != [] {
      OneOpenInEveryRun(s, ops[..|ops| - 1]);
      AloneStep(Run(s, ops[..|ops| - 1]), ops[|ops| - 1]);
    }
  }
}
