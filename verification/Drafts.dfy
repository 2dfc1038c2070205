/** Draft exams: how the worker and the owner write questions, and when a draft can be
    published (quiz/review.go:24-239, scan/worker.go:658-689). */
module Drafts {
  import opened Common
  import opened DraftInput
  import opened Scores
  import Attempts

  type QuizId = nat
  type User = nat

  /** `tag` is the option_label column. */
  datatype StoredOption = StoredOption(id: nat, tag: string, text: string, correct: bool)

  /** `explanations` are the explanation rows by id; readers show the first. */
  datatype StoredQuestion = StoredQuestion(id: nat, text: string, kind: string, answer: AnswerStatus,
                                           explanations: seq<string>, options: seq<StoredOption>)

  datatype Exam = Exam(published: bool, total: nat, questions: seq<StoredQuestion>)

  /** A question as the generator returns it. */
  datatype Generated = Generated(text: string, kind: string, correctIndex: int, explanation: string, options: seq<OptionInput>)

  datatype ReviewError = QuizForbidden | QuizNotFound | QuizNotDraft | DraftInvalid(cause: InputError) | AnswersIncomplete(missing: nat)

  // ---------------------------------------------------------------- the answer invariant

  ghost predicate OneCorrect(options: seq<StoredOption>) {
    exists i :: 0 <= i < |options| && options[i].correct && forall j :: 0 <= j < |options| && options[j].correct ==> j == i
  }

  ghost predicate NoneCorrect(options: seq<StoredOption>) {
    forall i :: 0 <= i < |options| ==> !options[i].correct
  }

  /** Exactly one correct option when the answer is set, none when it is unknown. */
  ghost predicate AnswerOk(q: StoredQuestion) {
    if q.answer == Set then OneCorrect(q.options) else NoneCorrect(q.options)
  }

  ghost predicate AnswersOk(questions: seq<StoredQuestion>) {
    forall i :: 0 <= i < |questions| ==> AnswerOk(questions[i])
  }

  // ---------------------------------------------------------------- writing questions

  /** The option rows insertDraftQuestion writes; option ids are drawn in order. */
  function InsertedOptions(n: Normalized, first: nat): (rows: seq<StoredOption>)
    ensures |rows| == |n.options|
  {
    seq(|n.options|, i requires 0 <= i < |n.options| =>
      StoredOption(first + i, n.options[i].tag, n.options[i].text, i == n.correctIndex))
  }

  function Inserted(n: Normalized, id: nat, first: nat): StoredQuestion {
    StoredQuestion(id, n.text, n.kind, n.answer, if Trim(n.explanation) != "" then [n.explanation] else [], InsertedOptions(n, first))
  }

  /** How many options the first n questions have. */
  ghost function OptionTotal(ns: seq<Normalized>, n: nat): nat
    requires n <= |ns|
  {
    if n == 0 then 0 else OptionTotal(ns, n - 1) + |ns[n - 1].options|
  }

  ghost function InsertedUpto(ns: seq<Normalized>, n: nat, id: nat, first: nat): (rows: seq<StoredQuestion>)
    requires n <= |ns|
    ensures |rows| == n
  {
    if n == 0 then []
    else InsertedUpto(ns, n - 1, id, first) + [Inserted(ns[n - 1], id + n - 1, first + OptionTotal(ns, n - 1))]
  }

  ghost function InsertedAll(ns: seq<Normalized>, id: nat, first: nat): (rows: seq<StoredQuestion>) {
    InsertedUpto(ns, |ns|, id, first)
  }

  /** Normalization leaves the answer set with an index in range, or unknown with none. */
  ghost predicate AnswerFits(n: Normalized) {
    if n.answer == Set then 0 <= n.correctIndex < |n.options| else n.correctIndex == CORRECT_INDEX_UNKNOWN
  }

  lemma FittingOptions(n: Normalized, first: nat)
    requires AnswerFits(n)
    ensures if n.answer == Set then OneCorrect(InsertedOptions(n, first)) else NoneCorrect(InsertedOptions(n, first))
  {
    var rows := InsertedOptions(n, first);
    assert forall j :: 0 <= j < |rows| ==> rows[j].correct == (j == n.correctIndex);
    if n.answer == Set {
      assert rows[n.correctIndex].correct;
    }
  }

  lemma FittingAnswerOk(n: Normalized, id: nat, first: nat)
    requires AnswerFits(n)
    ensures AnswerOk(Inserted(n, id, first)) && Inserted(n, id, first).id == id
  {
    FittingOptions(n, first);
  }

  lemma InsertedAt(ns: seq<Normalized>, n: nat, id: nat, first: nat, i: nat)
    requires i < n <= |ns| && AnswerFits(ns[i])
    ensures InsertedUpto(ns, n, id, first)[i].id == id + i
    ensures AnswerOk(InsertedUpto(ns, n, id, first)[i])
  {
    InsertedIs(ns, n, id, first, i);
    FittingAnswerOk(ns[i], id + i, first + OptionTotal(ns, i));
  }

  /** Every saved question satisfies the answer invariant. */
  lemma SavedAnswerOk(q: QuestionInput, id: nat, first: nat)
    ensures AnswerFits(Normalize(q)) && AnswerOk(Inserted(Normalize(q), id, first))
  {
    FittingAnswerOk(Normalize(q), id, first);
  }

  /** The rows persistQuestion writes: `extract` is the question-scan mode. */
  function Persisted(g: Generated, extract: bool, id: nat, first: nat): StoredQuestion {
    var known := 0 <= g.correctIndex < |g.options|;
    StoredQuestion(id, g.text, if g.kind == "" then "mcq" else g.kind, if extract && !known then Unknown else Set, [g.explanation],
                   seq(|g.options|, i requires 0 <= i < |g.options| =>
                     StoredOption(first + i, if g.options[i].tag == "" then Letter(i) else g.options[i].tag, g.options[i].text,
                                  known && i == g.correctIndex)))
  }

  /** The row holds the generated question: its texts in their columns, labels by position where
      it has none, the option at its index correct, and no answer only if extracted without one. */
  ghost predicate HoldsGenerated(q: StoredQuestion, g: Generated, extract: bool) {
    && q.text == g.text && q.kind == (if g.kind == "" then "mcq" else g.kind) && q.explanations == [g.explanation]
    && (q.answer == Unknown <==> extract && !(0 <= g.correctIndex < |g.options|))
    && |q.options| == |g.options|
    && forall i :: 0 <= i < |q.options| ==>
         && q.options[i].text == g.options[i].text
         && q.options[i].tag == (if g.options[i].tag == "" then Letter(i) else g.options[i].tag)
         && (q.options[i].correct <==> i == g.correctIndex)
  }

  /** A persisted question satisfies the invariant exactly when it was extracted or its answer
      index is in range: outside question-scan an index out of range would be stored as `set`
      with no correct option. */
  lemma PersistedAnswerOkIff(g: Generated, extract: bool, id: nat, first: nat)
    ensures AnswerOk(Persisted(g, extract, id, first)) <==> extract || 0 <= g.correctIndex < |g.options|
  {
    var q := Persisted(g, extract, id, first);
    if 0 <= g.correctIndex < |g.options| {
      assert q.options[g.correctIndex].correct;
    } else {
      assert NoneCorrect(q.options);
    }
  }

  // ---------------------------------------------------------------- reading a draft

  /** What GetDraft shows of a question. */
  datatype DraftQuestion = DraftQuestion(id: nat, text: string, kind: string, answer: AnswerStatus, explanation: string,
                                         options: seq<StoredOption>)

  datatype DraftDetail = DraftDetail(published: bool, total: nat, questions: seq<DraftQuestion>, needsAnswer: nat)

  function Shown(explanations: seq<string>): string {
    if explanations == [] then "" else explanations[0]
  }

  function View(q: StoredQuestion, options: seq<StoredOption>): DraftQuestion {
    DraftQuestion(q.id, q.text, q.kind, q.answer, Shown(q.explanations), options)
  }

  /** A question is shown with its own texts and its first explanation, if it has any. */
  ghost predicate Displays(v: DraftQuestion, q: StoredQuestion, options: seq<StoredOption>) {
    && v.id == q.id && v.text == q.text && v.kind == q.kind && v.answer == q.answer && v.options == options
    && (if q.explanations == [] then v.explanation == "" else v.explanation == q.explanations[0])
  }

  ghost predicate DisplayAll(views: seq<DraftQuestion>, questions: seq<StoredQuestion>, listing: seq<seq<StoredOption>>) {
    && |views| == |questions| == |listing|
    && forall i :: 0 <= i < |views| ==> Displays(views[i], questions[i], listing[i])
  }

  lemma ViewsDisplay(questions: seq<StoredQuestion>, listing: seq<seq<StoredOption>>)
    requires |listing| == |questions|
    ensures DisplayAll(Views(questions, listing), questions, listing)
  {
  }

  /** `options` lists the rows `stored` by label; the order of equal labels is open. `rank` is
      the database's collation. */
  ghost predicate Lists(options: seq<StoredOption>, stored: seq<StoredOption>, rank: string -> int) {
    && multiset(options) == multiset(stored)
    && forall i, j :: 0 <= i < j < |options| ==> rank(options[i].tag) <= rank(options[j].tag)
  }

  ghost predicate IsListing(listing: seq<seq<StoredOption>>, questions: seq<StoredQuestion>, rank: string -> int) {
    && |listing| == |questions|
    && forall i :: 0 <= i < |questions| ==> Lists(listing[i], questions[i].options, rank)
  }

  ghost function Views(questions: seq<StoredQuestion>, listing: seq<seq<StoredOption>>): seq<DraftQuestion>
    requires |listing| == |questions|
  {
    seq(|questions|, i requires 0 <= i < |questions| => View(questions[i], listing[i]))
  }

  ghost function NeedsAnswer(questions: seq<StoredQuestion>): nat {
    if questions == [] then 0
    else NeedsAnswer(questions[..|questions| - 1]) + if questions[|questions| - 1].answer == Unknown then 1 else 0
  }

  lemma {:induction false} NoneNeedsAnswerIff(questions: seq<StoredQuestion>)
    ensures NeedsAnswer(questions) == 0 <==> forall i :: 0 <= i < |questions| ==> questions[i].answer == Set
  {
    if questions != [] {
      NoneNeedsAnswerIff(questions[..|questions| - 1]);
    }
  }

  predicate HasCorrect(options: seq<StoredOption>) {
    exists i :: 0 <= i < |options| && options[i].correct
  }

  lemma ListingKeepsCorrect(options: seq<StoredOption>, stored: seq<StoredOption>)
    requires multiset(options) == multiset(stored)
    ensures HasCorrect(options) <==> HasCorrect(stored)
  {
    SameOptions(options, stored);
    if i :| 0 <= i < |options| && options[i].correct {
      assert options[i] in stored;
    }
    if i :| 0 <= i < |stored| && stored[i].correct {
      assert stored[i] in options;
    }
  }

  /** How many questions PublishDraft finds without a correct option. */
  ghost function Missing(questions: seq<StoredQuestion>): nat {
    if questions == [] then 0
    else Missing(questions[..|questions| - 1]) + if HasCorrect(questions[|questions| - 1].options) then 0 else 1
  }

  /** Under the invariant these are the questions whose answer is unknown. */
  lemma {:induction false} MissingIsNeedsAnswer(questions: seq<StoredQuestion>)
    requires AnswersOk(questions)
    ensures Missing(questions) == NeedsAnswer(questions)
  {
    if questions != [] {
      MissingIsNeedsAnswer(questions[..|questions| - 1]);
      assert AnswerOk(questions[|questions| - 1]);
    }
  }

  // ---------------------------------------------------------------- round trip

  ghost predicate AscendingTags(options: seq<StoredOption>, rank: string -> int) {
    forall i, j :: 0 <= i < j < |options| ==> rank(options[i].tag) < rank(options[j].tag)
  }

  /** There is only one way to list rows whose labels are strictly increasing. */
  lemma {:induction false} OnlyOneListing(options: seq<StoredOption>, stored: seq<StoredOption>, rank: string -> int)
    requires Lists(options, stored, rank) && AscendingTags(stored, rank)
    ensures options == stored
    decreases |stored|
  {
    SameOptions(options, stored);
    if stored != [] {
      var n := |stored| - 1;
      LastIsTheSame(options, stored, rank);
      DropLast(options, stored);
      OnlyOneListing(options[..n], stored[..n], rank);
      assert options == options[..n] + [options[n]] && stored == stored[..n] + [stored[n]];
    }
  }

  lemma DropLast(options: seq<StoredOption>, stored: seq<StoredOption>)
    requires multiset(options) == multiset(stored) && |options| == |stored| > 0
    requires options[|options| - 1] == stored[|stored| - 1]
    ensures multiset(options[..|options| - 1]) == multiset(stored[..|stored| - 1])
  {
    var n := |stored| - 1;
    assert options == options[..n] + [options[n]] && stored == stored[..n] + [stored[n]];
    assert multiset(options[..n]) == multiset(options) - multiset{options[n]};
    assert multiset(stored[..n]) == multiset(stored) - multiset{stored[n]};
  }

  lemma LastIsTheSame(options: seq<StoredOption>, stored: seq<StoredOption>, rank: string -> int)
    requires Lists(options, stored, rank) && AscendingTags(stored, rank)
    requires |options| == |stored| > 0
    ensures options[|options| - 1] == stored[|stored| - 1]
  {
    var n := |stored| - 1;
    SameOptions(options, stored);
    assert options[n] in options && stored[n] in stored;
    var i :| 0 <= i <= n && stored[i] == options[n];
    var j :| 0 <= j <= n && options[j] == stored[n];
    assert rank(options[j].tag) <= rank(options[n].tag);
  }

  lemma SameOptions(options: seq<StoredOption>, stored: seq<StoredOption>)
    requires multiset(options) == multiset(stored)
    ensures |options| == |stored| && forall o :: o in options <==> o in stored
  {
    assert |multiset(options)| == |options| && |multiset(stored)| == |stored|;
    forall o
      ensures o in options <==> o in stored
    {
      assert o in multiset(options) <==> o in multiset(stored);
    }
  }

  ghost function FirstCorrect(options: seq<StoredOption>): int {
    if options == [] then -1
    else
      var before := FirstCorrect(options[..|options| - 1]);
      if before != -1 then before else if options[|options| - 1].correct then |options| - 1 else -1
  }

  /** What the review screen sends back for a question it shows and does not edit. */
  ghost function SentBack(v: DraftQuestion): QuestionInput {
    QuestionInput(v.text, v.kind, FirstCorrect(v.options), v.explanation,
                  seq(|v.options|, i requires 0 <= i < |v.options| => OptionInput(v.options[i].tag, v.options[i].text)))
  }

  lemma {:induction false} FirstCorrectIs(options: seq<StoredOption>)
    ensures -1 <= FirstCorrect(options) < |options|
    ensures FirstCorrect(options) != -1 ==> options[FirstCorrect(options)].correct
    ensures FirstCorrect(options) == -1 ==> NoneCorrect(options)
  {
    if options != [] {
      FirstCorrectIs(options[..|options| - 1]);
    }
  }

  /** With strictly increasing labels, GetDraft shows a saved question's options in the order
      they were saved, and saving what it shows gives the same question. */
  lemma SavingWhatIsShownChangesNothing(q: QuestionInput, id: nat, first: nat, options: seq<StoredOption>, rank: string -> int)
    requires Acceptable(q)
    requires var stored := Inserted(Normalize(q), id, first);
             AscendingTags(stored.options, rank) && Lists(options, stored.options, rank)
    ensures var back := SentBack(View(Inserted(Normalize(q), id, first), options));
            && options == InsertedOptions(Normalize(q), first)
            && Acceptable(back) && Normalize(back) == Normalize(q)
  {
    var n := Normalize(q);
    var stored := Inserted(n, id, first);
    OnlyOneListing(options, stored.options, rank);
    var back := SentBack(View(stored, options));
    TrimIdempotent(q.explanation);
    assert back.options == n.options;
    FirstCorrectIs(options);
    assert n.answer == Set ==> options[n.correctIndex].correct;
    assert back == Unchanged(n);
    NormalizeIsIdempotent(q);
  }

  /** The row holds what the client wrote: trimmed texts in their columns, the kept options in
      their order, and the option at the client's index correct, if there is one. */
  ghost predicate HoldsInput(row: StoredQuestion, q: QuestionInput) {
    var kept := Kept(q.options);
    && row.text == Trim(q.text) && row.kind == Trim(q.kind)
    && row.explanations == (if Trim(q.explanation) == "" then [] else [Trim(q.explanation)])
    && (row.answer == Set <==> 0 <= q.correctIndex < |kept|)
    && HoldsOptions(row.options, kept, q.correctIndex)
  }

  ghost predicate HoldsOptions(rows: seq<StoredOption>, kept: seq<OptionInput>, correctIndex: int) {
    && |rows| == |kept|
    && forall i :: 0 <= i < |rows| ==>
         rows[i].text == kept[i].text && rows[i].tag == kept[i].tag && (rows[i].correct <==> i == correctIndex)
  }

  ghost predicate Holds(e: Exam, inputs: seq<QuestionInput>) {
    && e.total == |inputs| == |e.questions|
    && forall i :: 0 <= i < |inputs| ==> HoldsInput(e.questions[i], inputs[i])
  }

  lemma InsertedHoldsInput(q: QuestionInput, id: nat, first: nat)
    ensures HoldsInput(Inserted(Normalize(q), id, first), q)
  {
    TrimIdempotent(q.explanation);
  }

  lemma InsertedUptoHolds(ns: seq<Normalized>, n: nat, id: nat, first: nat, i: nat, q: QuestionInput)
    requires i < n <= |ns| && ns[i] == Normalize(q)
    ensures HoldsInput(InsertedUpto(ns, n, id, first)[i], q)
  {
    InsertedHoldsInput(q, id + i, first + OptionTotal(ns, i));
    InsertedIs(ns, n, id, first, i);
  }

  lemma SavedHoldsInputs(inputs: seq<QuestionInput>, id: nat, first: nat)
    ensures Holds(Exam(false, |inputs|, InsertedAll(NormalizedAll(inputs), id, first)), inputs)
  {
    forall i | 0 <= i < |inputs|
      ensures HoldsInput(InsertedAll(NormalizedAll(inputs), id, first)[i], inputs[i])
    {
      InsertedUptoHolds(NormalizedAll(inputs), |inputs|, id, first, i, inputs[i]);
    }
  }

  lemma InsertedNext(ns: seq<Normalized>, n: nat, id: nat, first: nat)
    requires n < |ns|
    ensures InsertedUpto(ns, n + 1, id, first) == InsertedUpto(ns, n, id, first) + [Inserted(ns[n], id + n, first + OptionTotal(ns, n))]
    ensures OptionTotal(ns, n + 1) == OptionTotal(ns, n) + |ns[n].options|
  {
  }

  lemma {:induction false} InsertedIs(ns: seq<Normalized>, n: nat, id: nat, first: nat, i: nat)
    requires i < n <= |ns|
    ensures InsertedUpto(ns, n, id, first)[i] == Inserted(ns[i], id + i, first + OptionTotal(ns, i))
  {
    var init := InsertedUpto(ns, n - 1, id, first);
    var last := Inserted(ns[n - 1], id + n - 1, first + OptionTotal(ns, n - 1));
    assert InsertedUpto(ns, n, id, first) == init + [last];
    if i < n - 1 {
      InsertedIs(ns, n - 1, id, first, i);
      assert (init + [last])[i] == init[i];
    }
  }

  /** Equal but for the ids of the rows. */
  ghost predicate SameQuestion(q: StoredQuestion, p: StoredQuestion) {
    && q.text == p.text && q.kind == p.kind && q.answer == p.answer && q.explanations == p.explanations
    && |q.options| == |p.options|
    && forall i :: 0 <= i < |q.options| ==>
         q.options[i].tag == p.options[i].tag && q.options[i].text == p.options[i].text && q.options[i].correct == p.options[i].correct
  }

  ghost predicate SameUpToIds(rows: seq<StoredQuestion>, others: seq<StoredQuestion>) {
    |rows| == |others| && forall i :: 0 <= i < |rows| ==> SameQuestion(rows[i], others[i])
  }

  ghost function SentBackAll(views: seq<DraftQuestion>): (inputs: seq<QuestionInput>)
    ensures |inputs| == |views|
  {
    seq(|views|, i requires 0 <= i < |views| => SentBack(views[i]))
  }

  /** The row of a normalized question, whatever ids it got. */
  ghost predicate IsInserted(row: StoredQuestion, n: Normalized) {
    exists id, first :: row == Inserted(n, id, first)
  }

  /** The rows are what SaveDraft writes for these inputs, whatever ids they got. */
  ghost predicate SavedFrom(rows: seq<StoredQuestion>, inputs: seq<QuestionInput>) {
    |rows| == |inputs| && forall i :: 0 <= i < |rows| ==> IsInserted(rows[i], Normalize(inputs[i]))
  }

  lemma InsertedAllIsSaved(inputs: seq<QuestionInput>, id: nat, first: nat)
    ensures SavedFrom(InsertedAll(NormalizedAll(inputs), id, first), inputs)
  {
    var ns := NormalizedAll(inputs);
    forall i | 0 <= i < |ns|
      ensures IsInserted(InsertedAll(ns, id, first)[i], Normalize(inputs[i]))
    {
      InsertedIs(ns, |ns|, id, first, i);
    }
  }

  lemma SavedTwice(rows: seq<StoredQuestion>, others: seq<StoredQuestion>, inputs: seq<QuestionInput>)
    requires SavedFrom(rows, inputs) && SavedFrom(others, inputs)
    ensures SameUpToIds(rows, others)
  {
    forall i | 0 <= i < |rows|
      ensures SameQuestion(rows[i], others[i])
    {
      assert IsInserted(rows[i], Normalize(inputs[i])) && IsInserted(others[i], Normalize(inputs[i]));
    }
  }

  /** Draft normal form: SaveDraft accepts what GetDraft shows of a saved draft, unedited, and
      the draft is then the same up to the ids of its rows. */
  lemma SavingTheShownDraft(inputs: seq<QuestionInput>, rows: seq<StoredQuestion>, listing: seq<seq<StoredOption>>,
                            rank: string -> int, id: nat, first: nat)
    requires AllAcceptable(inputs) && SavedFrom(rows, inputs) && IsListing(listing, rows, rank)
    requires forall i :: 0 <= i < |rows| ==> AscendingTags(rows[i].options, rank)
    ensures var back := SentBackAll(Views(rows, listing));
            && AllAcceptable(back) && NormalizedAll(back) == NormalizedAll(inputs)
            && SameUpToIds(InsertedAll(NormalizedAll(back), id, first), rows)
  {
    var back := SentBackAll(Views(rows, listing));
    forall i | 0 <= i < |inputs|
      ensures Acceptable(back[i]) && Normalize(back[i]) == Normalize(inputs[i])
    {
      ShownQuestion(inputs[i], rows[i], listing[i], rank);
    }
    SameNormalized(inputs, back);
    InsertedAllIsSaved(inputs, id, first);
    SavedTwice(InsertedAll(NormalizedAll(inputs), id, first), rows, inputs);
  }

  lemma ShownQuestion(q: QuestionInput, row: StoredQuestion, options: seq<StoredOption>, rank: string -> int)
    requires Acceptable(q) && IsInserted(row, Normalize(q))
    requires AscendingTags(row.options, rank) && Lists(options, row.options, rank)
    ensures Acceptable(SentBack(View(row, options))) && Normalize(SentBack(View(row, options))) == Normalize(q)
  {
    var id, first :| row == Inserted(Normalize(q), id, first);
    SavingWhatIsShownChangesNothing(q, id, first, options, rank);
  }

  lemma SameNormalized(inputs: seq<QuestionInput>, back: seq<QuestionInput>)
    requires AllAcceptable(inputs) && |back| == |inputs|
    requires forall i :: 0 <= i < |inputs| ==> Acceptable(back[i]) && Normalize(back[i]) == NormalizedAll(inputs)[i]
    ensures AllAcceptable(back) && NormalizedAll(back) == NormalizedAll(inputs)
  {
  }

  /** By default labels are strictly increasing: blank ones become A, B, C, ... */
  lemma DefaultTagsAscend(q: QuestionInput, id: nat, first: nat, rank: string -> int)
    requires Acceptable(q) && forall i :: 0 <= i < |q.options| ==> Trim(q.options[i].tag) == ""
    requires forall i: nat, j: nat :: i < j < 26 ==> rank(Letter(i)) < rank(Letter(j))
    ensures AscendingTags(Inserted(Normalize(q), id, first).options, rank)
  {
    BlankLabelsAreLetters(q.options);
  }

  /** Whatever the labels, sending back what is shown keeps the same option correct. */
  lemma AnswerSurvivesReordering(q: QuestionInput, id: nat, first: nat, options: seq<StoredOption>, rank: string -> int)
    requires Acceptable(q) && Normalize(q).answer == Set
    requires Lists(options, Inserted(Normalize(q), id, first).options, rank)
    ensures var n, again := Normalize(q), Normalize(SentBack(View(Inserted(Normalize(q), id, first), options)));
            again.answer == Set && again.options[again.correctIndex] == n.options[n.correctIndex]
  {
    var n := Normalize(q);
    var stored := InsertedOptions(n, first);
    var back := SentBack(View(Inserted(n, id, first), options));
    SameOptions(options, stored);
    KeptAreNormal(q.options);
    forall i | 0 <= i < |options|
      ensures NormalOption(back.options[i])
    {
      assert options[i] in stored;
    }
    NormalOptionsStay(back.options);
    FirstCorrectIs(options);
    assert stored[n.correctIndex] in options;
    var k := FirstCorrect(options);
    assert options[k] in stored;
  }

  // ---------------------------------------------------------------- publishing

  /** One question after PublishDraft: answered, and with an explanation row added if none is
      shown and the explainer gives one. */
  ghost function Released(q: StoredQuestion, v: DraftQuestion, explain: DraftQuestion -> string): StoredQuestion {
    q.(answer := Set,
       explanations := if Trim(v.explanation) == "" && Trim(explain(v)) != "" then q.explanations + [explain(v)] else q.explanations)
  }

  /** Publishing changes nothing of a question but its answer status, and adds at most one
      explanation, where none is shown. */
  ghost predicate Publishes(before: StoredQuestion, after: StoredQuestion, explained: string) {
    && after.id == before.id && after.text == before.text && after.kind == before.kind && after.options == before.options
    && after.answer == Set
    && (if (before.explanations == [] || Trim(before.explanations[0]) == "") && Trim(explained) != ""
        then after.explanations == before.explanations + [explained]
        else after.explanations == before.explanations)
  }

  /** The explanation generated at publication is the one shown exactly when the question had
      no explanation row: an empty row written by the worker keeps hiding it. */
  lemma GeneratedExplanationShownIff(q: StoredQuestion, options: seq<StoredOption>, explain: DraftQuestion -> string)
    requires Trim(Shown(q.explanations)) == "" && Trim(explain(View(q, options))) != ""
    ensures Shown(Released(q, View(q, options), explain).explanations) == explain(View(q, options)) <==> q.explanations == []
  {
  }

  /** A published exam as the attempt service reads it. */
  function AsQuiz(e: Exam): Attempts.Quiz {
    Attempts.Quiz(!e.published, seq(|e.questions|, i requires 0 <= i < |e.questions| => AsQuestion(e.questions[i])))
  }

  function AsQuestion(q: StoredQuestion): Attempts.Question {
    Attempts.Question(q.id, seq(|q.options|, i requires 0 <= i < |q.options| => Attempts.OptionRow(q.options[i].id, q.options[i].correct)))
  }

  ghost predicate AllSet(questions: seq<StoredQuestion>) {
    forall i :: 0 <= i < |questions| ==> questions[i].answer == Set
  }

  /** The unordered `LIMIT 1` of the answer key is harmless: there is one correct option. */
  lemma KeyIsTheCorrectOption(q: StoredQuestion, key: Attempts.AnswerKey, i: nat)
    requires AnswerOk(q) && i < |q.options| && q.options[i].correct
    requires Attempts.IsKey([AsQuestion(q)], key)
    ensures key[q.id] == Some(q.options[i].id)
  {
    var asked := AsQuestion(q);
    assert asked in [asked];
    assert asked.options[i].correct;
    assert Attempts.HasCorrect(asked);
    var k :| 0 <= k < |asked.options| && asked.options[k] == Attempts.OptionRow(key[q.id].value, true);
    assert q.options[k].correct;
  }

  /** On a published exam, choosing the correct option of every question scores 100. */
  lemma PublishedExamScoresFull(e: Exam, answers: seq<Attempts.Answer>, key: Attempts.AnswerKey)
    requires e.questions != [] && AnswersOk(e.questions) && AllSet(e.questions) && Attempts.IsKey(AsQuiz(e).questions, key)
    requires forall i, k :: 0 <= i < |e.questions| && 0 <= k < |e.questions[i].options| && e.questions[i].options[k].correct ==>
               Attempts.LastChoice(answers, e.questions[i].id) == Some(e.questions[i].options[k].id)
    ensures var rows := Attempts.GradedRows(AsQuiz(e).questions, answers, key);
            ScorePercent(Attempts.Count(rows, Attempts.Correct), |rows|) == 100.0
  {
    var questions := AsQuiz(e).questions;
    forall q | q in questions
      ensures key[q.id].Some? && Attempts.LastChoice(answers, q.id) == key[q.id]
    {
      var i :| 0 <= i < |questions| && questions[i] == q;
      assert AnswerOk(e.questions[i]);
      var k :| 0 <= k < |e.questions[i].options| && e.questions[i].options[k].correct;
      KeyIsTheCorrectOption(e.questions[i], key, k);
    }
    Attempts.AllRightScoresFull(questions, answers, key);
  }

  // ---------------------------------------------------------------- the service

  ghost predicate ExamOk(e: Exam, nextQuestion: nat) {
    && AnswersOk(e.questions)
    && (forall i :: 0 <= i < |e.questions| ==> e.questions[i].id < nextQuestion)
    && forall i, j :: 0 <= i < j < |e.questions| ==> e.questions[i].id != e.questions[j].id
  }

  ghost predicate ExamsOk(exams: map<QuizId, Exam>, nextQuestion: nat) {
    forall z :: z in exams ==> ExamOk(exams[z], nextQuestion)
  }

  lemma ExamWritten(exams: map<QuizId, Exam>, before: nat, quiz: QuizId, e: Exam, after: nat)
    requires ExamsOk(exams, before) && before <= after && ExamOk(e, after)
    ensures ExamsOk(exams[quiz := e], after)
  {
    forall z | z in exams
      ensures ExamOk(exams[z], after)
    {
      assert ExamOk(exams[z], before);
    }
  }

  lemma InsertedAllOk(inputs: seq<QuestionInput>, id: nat, first: nat)
    ensures ExamOk(Exam(false, |inputs|, InsertedAll(NormalizedAll(inputs), id, first)), id + |inputs|)
  {
    var ns := NormalizedAll(inputs);
    var rows := InsertedAll(ns, id, first);
    forall i | 0 <= i < |rows|
      ensures rows[i].id == id + i && AnswerOk(rows[i])
    {
      assert AnswerFits(ns[i]);
      InsertedAt(ns, |ns|, id, first, i);
    }
    RowsOk(rows, |inputs|, id);
  }

  lemma RowsOk(rows: seq<StoredQuestion>, total: nat, id: nat)
    requires forall i :: 0 <= i < |rows| ==> rows[i].id == id + i && AnswerOk(rows[i])
    ensures ExamOk(Exam(false, total, rows), id + |rows|)
  {
  }

  lemma ReleasedOk(questions: seq<StoredQuestion>, listing: seq<seq<StoredOption>>, explain: DraftQuestion -> string,
                   released: seq<StoredQuestion>, next: nat)
    requires ExamOk(Exam(false, 0, questions), next) && AllSet(questions) && |listing| == |questions| == |released|
    requires forall i :: 0 <= i < |questions| ==> released[i] == Released(questions[i], View(questions[i], listing[i]), explain)
    ensures AllSet(released)
    ensures forall total :: ExamOk(Exam(true, total, released), next)
  {
    forall i | 0 <= i < |released|
      ensures AnswerOk(released[i])
    {
      assert AnswerOk(questions[i]);
    }
  }

  ghost function SavedExam(inputs: seq<QuestionInput>, id: nat, first: nat): Exam {
    Exam(false, |inputs|, InsertedAll(NormalizedAll(inputs), id, first))
  }

  lemma SavedExamOk(exams: map<QuizId, Exam>, quiz: QuizId, inputs: seq<QuestionInput>, id: nat, first: nat)
    requires ExamsOk(exams, id)
    ensures ExamsOk(exams[quiz := SavedExam(inputs, id, first)], id + |inputs|) && Holds(SavedExam(inputs, id, first), inputs)
  {
    InsertedAllOk(inputs, id, first);
    SavedHoldsInputs(inputs, id, first);
    ExamWritten(exams, id, quiz, SavedExam(inputs, id, first), id + |inputs|);
  }

  class ReviewService {
    var exams: map<QuizId, Exam>
    var owners: set<(QuizId, User)>    // through their scan jobs
    var nextQuestion: nat
    var nextOption: nat
    ghost const rank: string -> int

    constructor (ghost rank: string -> int)
      ensures Valid() && exams == map[] && owners == {} && this.rank == rank
    {
      exams, owners, nextQuestion, nextOption := map[], {}, 1, 1;
      this.rank := rank;
    }

    ghost predicate Valid()
      reads this
    {
      ExamsOk(exams, nextQuestion)
    }

    /** The rows of one question; in question-scan the answer may be missing. */
    method PersistQuestion(g: Generated, extract: bool) returns (q: StoredQuestion)
      modifies this`nextQuestion, this`nextOption
      ensures q == Persisted(g, extract, old(nextQuestion), old(nextOption))
      ensures HoldsGenerated(q, g, extract) && q.id == old(nextQuestion)
      ensures forall i :: 0 <= i < |q.options| ==> q.options[i].id == old(nextOption) + i
      ensures nextQuestion == old(nextQuestion) + 1 && nextOption == old(nextOption) + |g.options|
    {
      var kind := if g.kind == "" then "mcq" else g.kind;
      var answer := Set;
      var known := g.correctIndex >= 0 && g.correctIndex < |g.options|;
      if extract && !known {
        answer := Unknown;
      }
      var id := nextQuestion;
      nextQuestion := nextQuestion + 1;
      var rows: seq<StoredOption> := [];
      var i := 0;
      while i < |g.options|
        invariant 0 <= i == |rows| <= |g.options|
        invariant nextOption == old(nextOption) + i && nextQuestion == old(nextQuestion) + 1
        invariant forall k :: 0 <= k < i ==> rows[k] == Persisted(g, extract, old(nextQuestion), old(nextOption)).options[k]
      {
        var tag := g.options[i].tag;
        if tag == "" {
          tag := Letter(i);
        }
        rows := rows + [StoredOption(nextOption, tag, g.options[i].text, known && i == g.correctIndex)];
        nextOption := nextOption + 1;
        i := i + 1;
      }
      q := StoredQuestion(id, g.text, kind, answer, [g.explanation], rows);
    }

    /** persistQuiz: a draft in question-scan, published at once otherwise. There every answer
        index is in range, which the generator's response validation checks. */
    method PersistQuiz(quiz: QuizId, user: User, generated: seq<Generated>, extract: bool)
      requires Valid() && quiz !in exams
      requires !extract ==> forall i :: 0 <= i < |generated| ==> 0 <= generated[i].correctIndex < |generated[i].options|
      modifies this
      ensures Valid() && quiz in exams && owners == old(owners) + {(quiz, user)}
      ensures exams == old(exams)[quiz := exams[quiz]]
      ensures exams[quiz].published == !extract && exams[quiz].total == |exams[quiz].questions| == |generated|
      ensures forall i :: 0 <= i < |generated| ==> HoldsGenerated(exams[quiz].questions[i], generated[i], extract)
    {
      var rows: seq<StoredQuestion> := [];
      var i := 0;
      while i < |generated|
        invariant 0 <= i == |rows| <= |generated|
        invariant exams == old(exams) && owners == old(owners) && nextQuestion == old(nextQuestion) + i
        invariant forall k :: 0 <= k < i ==> rows[k].id == old(nextQuestion) + k && AnswerOk(rows[k])
        invariant forall k :: 0 <= k < i ==> HoldsGenerated(rows[k], generated[k], extract)
      {
        ghost var first := nextOption;
        var q := PersistQuestion(generated[i], extract);
        PersistedAnswerOkIff(generated[i], extract, nextQuestion - 1, first);
        rows := rows + [q];
        i := i + 1;
      }
      ExamWritten(exams, old(nextQuestion), quiz, Exam(!extract, |generated|, rows), nextQuestion);
      exams := exams[quiz := Exam(!extract, |generated|, rows)];
      owners := owners + {(quiz, user)};
    }

    /** `listing` is the order in which the database returns the options. */
    method GetDraft(quiz: QuizId, user: User, listing: seq<seq<StoredOption>>) returns (r: Result<DraftDetail, ReviewError>)
      requires quiz in exams ==> IsListing(listing, exams[quiz].questions, rank)
      ensures r == if (quiz, user) !in owners then Err(QuizForbidden)
                   else if quiz !in exams then Err(QuizNotFound)
                   else Ok(DraftDetail(exams[quiz].published, exams[quiz].total, Views(exams[quiz].questions, listing),
                                       NeedsAnswer(exams[quiz].questions)))
      ensures r.Ok? ==> DisplayAll(r.value.questions, exams[quiz].questions, listing)
    {
      if (quiz, user) !in owners { return Err(QuizForbidden); }
      if quiz !in exams { return Err(QuizNotFound); }
      var e := exams[quiz];
      var shown: seq<DraftQuestion> := [];
      var needsAnswer := 0;
      var i := 0;
      while i < |e.questions|
        invariant 0 <= i == |shown| <= |e.questions|
        invariant forall k :: 0 <= k < i ==> shown[k] == View(e.questions[k], listing[k])
        invariant needsAnswer == NeedsAnswer(e.questions[..i])
      {
        shown := shown + [View(e.questions[i], listing[i])];
        assert e.questions[..i + 1][..i] == e.questions[..i];
        if e.questions[i].answer == Unknown {
          needsAnswer := needsAnswer + 1;
        }
        i := i + 1;
      }
      assert e.questions[..i] == e.questions && shown == Views(e.questions, listing);
      ViewsDisplay(e.questions, listing);
      return Ok(DraftDetail(e.published, e.total, shown, needsAnswer));
    }

    /** The checks SaveDraft makes before it looks at the input. */
    function EditError(quiz: QuizId, user: User): Option<ReviewError>
      reads this
    {
      if (quiz, user) !in owners then Some(QuizForbidden)
      else if quiz !in exams then Some(QuizNotFound)
      else if exams[quiz].published then Some(QuizNotDraft)
      else None
    }

    /** Replaces all questions of a draft, or changes nothing. */
    method SaveDraft(quiz: QuizId, user: User, inputs: seq<QuestionInput>) returns (r: Result<nat, ReviewError>)
      requires Valid()
      modifies this
      ensures Valid() && owners == old(owners)
      ensures old(EditError(quiz, user)).Some? ==> r == Err(old(EditError(quiz, user)).value)
      ensures r.Ok? <==> old(EditError(quiz, user)) == None && AllAcceptable(inputs)
      ensures exams == if r.Ok? then old(exams)[quiz := SavedExam(inputs, old(nextQuestion), old(nextOption))] else old(exams)
      ensures r.Ok? ==> r.value == |inputs| && quiz in exams && Holds(exams[quiz], inputs)
      ensures r.Err? && old(EditError(quiz, user)) == None ==> r.error.DraftInvalid? && Explains(r.error.cause, inputs)
    {
      var refused := EditError(quiz, user);
      if refused.Some? { return Err(refused.value); }
      var checked := ValidateDraftInput(inputs);
      if checked.Err? {
        RefusedInput(inputs, checked.error);
        return Err(DraftInvalid(checked.error));
      }
      ReplaceQuestions(quiz, inputs, checked.value);
      return Ok(|checked.value|);
    }

    /** The writes of SaveDraft. */
    method ReplaceQuestions(quiz: QuizId, ghost inputs: seq<QuestionInput>, ns: seq<Normalized>)
      requires Valid() && ns == NormalizedAll(inputs)
      modifies this`exams, this`nextQuestion, this`nextOption
      ensures Valid() && Holds(SavedExam(inputs, old(nextQuestion), old(nextOption)), inputs)
      ensures exams == old(exams)[quiz := SavedExam(inputs, old(nextQuestion), old(nextOption))]
    {
      SavedExamOk(exams, quiz, inputs, nextQuestion, nextOption);
      var rows := InsertAll(ns);
      exams := exams[quiz := Exam(false, |ns|, rows)];
    }

    /** The insert loop of SaveDraft. */
    method InsertAll(ns: seq<Normalized>) returns (rows: seq<StoredQuestion>)
      modifies this`nextQuestion, this`nextOption
      ensures rows == InsertedAll(ns, old(nextQuestion), old(nextOption))
      ensures nextQuestion == old(nextQuestion) + |ns|
    {
      rows := [];
      var i := 0;
      while i < |ns|
        invariant 0 <= i <= |ns|
        invariant rows == InsertedUpto(ns, i, old(nextQuestion), old(nextOption))
        invariant nextQuestion == old(nextQuestion) + i && nextOption == old(nextOption) + OptionTotal(ns, i)
      {
        var q := InsertDraftQuestion(ns[i]);
        InsertedNext(ns, i, old(nextQuestion), old(nextOption));
        rows := rows + [q];
        i := i + 1;
      }
    }

    method InsertDraftQuestion(n: Normalized) returns (q: StoredQuestion)
      modifies this`nextQuestion, this`nextOption
      ensures q == Inserted(n, old(nextQuestion), old(nextOption))
      ensures nextQuestion == old(nextQuestion) + 1 && nextOption == old(nextOption) + |n.options|
    {
      var id := nextQuestion;
      nextQuestion := nextQuestion + 1;
      var rows: seq<StoredOption> := [];
      var i := 0;
      while i < |n.options|
        invariant 0 <= i == |rows| <= |n.options|
        invariant nextOption == old(nextOption) + i && nextQuestion == old(nextQuestion) + 1
        invariant forall k :: 0 <= k < i ==> rows[k] == InsertedOptions(n, old(nextOption))[k]
      {
        rows := rows + [StoredOption(nextOption, n.options[i].tag, n.options[i].text, i == n.correctIndex)];
        nextOption := nextOption + 1;
        i := i + 1;
      }
      q := StoredQuestion(id, n.text, n.kind, n.answer, if Trim(n.explanation) != "" then [n.explanation] else [], rows);
    }

    /** `correctOption`: the first correct option shown. */
    static method CorrectOption(options: seq<StoredOption>) returns (found: Option<StoredOption>)
      ensures found.Some? <==> HasCorrect(options)
      ensures found.Some? ==> found.value in options && found.value.correct
    {
      var i := 0;
      while i < |options|
        invariant 0 <= i <= |options|
        invariant forall k :: 0 <= k < i ==> !options[k].correct
      {
        if options[i].correct { return Some(options[i]); }
        i := i + 1;
      }
      return None;
    }

    /** The loop that looks for questions without an answer. */
    static method CountMissing(questions: seq<StoredQuestion>, listing: seq<seq<StoredOption>>, ghost rank: string -> int)
      returns (missing: nat)
      requires IsListing(listing, questions, rank)
      ensures missing == Missing(questions)
    {
      missing := 0;
      var i := 0;
      while i < |questions|
        invariant 0 <= i <= |questions|
        invariant missing == Missing(questions[..i])
      {
        assert questions[..i + 1][..i] == questions[..i];
        ListingKeepsCorrect(listing[i], questions[i].options);
        var found := CorrectOption(listing[i]);
        if found.None? {
          missing := missing + 1;
        }
        i := i + 1;
      }
      assert questions[..i] == questions;
    }

    /** A non-empty draft is published exactly when no question needs an answer. */
    method PublishDraft(quiz: QuizId, user: User, listing: seq<seq<StoredOption>>, explain: DraftQuestion -> string)
      returns (r: Result<nat, ReviewError>)
      requires Valid() && (quiz in exams ==> IsListing(listing, exams[quiz].questions, rank))
      modifies this`exams
      ensures Valid()
      ensures r.Ok? <==> (quiz, user) in owners && quiz in old(exams) && !old(exams)[quiz].published
                         && old(exams)[quiz].questions != [] && NeedsAnswer(old(exams)[quiz].questions) == 0
      ensures r.Err? ==> exams == old(exams)
      ensures r.Err? && r.error.AnswersIncomplete? ==> quiz in old(exams) && r.error.missing == NeedsAnswer(old(exams)[quiz].questions)
      ensures r.Ok? ==>
                && quiz in exams && exams == old(exams)[quiz := exams[quiz]]
                && exams[quiz].published && AllSet(exams[quiz].questions) && r.value == |exams[quiz].questions|
                && |exams[quiz].questions| == |old(exams)[quiz].questions|
                && forall i :: 0 <= i < |exams[quiz].questions| ==>
                     exams[quiz].questions[i] == Released(old(exams)[quiz].questions[i], View(old(exams)[quiz].questions[i], listing[i]), explain)
      ensures r.Ok? ==>
                && exams[quiz].total == old(exams)[quiz].total
                && forall i :: 0 <= i < |exams[quiz].questions| ==>
                     var before := old(exams)[quiz].questions[i];
                     Publishes(before, exams[quiz].questions[i], explain(View(before, listing[i])))
      ensures (quiz, user) !in owners ==> r == Err(QuizForbidden)
      ensures (quiz, user) in owners && quiz !in exams ==> r == Err(QuizNotFound)
      ensures (quiz, user) in owners && quiz in old(exams) && old(exams)[quiz].published ==> r == Err(QuizNotDraft)
      ensures (quiz, user) in owners && quiz in old(exams) && !old(exams)[quiz].published && old(exams)[quiz].questions == [] ==>
                r == Err(DraftInvalid(NoQuestions))
    {
      var draft := GetDraft(quiz, user, listing);
      if draft.Err? { return Err(draft.error); }
      if draft.value.published { return Err(QuizNotDraft); }
      if |draft.value.questions| == 0 { return Err(DraftInvalid(NoQuestions)); }
      var questions := exams[quiz].questions;
      MissingIsNeedsAnswer(questions);
      var missing := CountMissing(questions, listing, rank);
      if missing > 0 { return Err(AnswersIncomplete(missing)); }
      NoneNeedsAnswerIff(questions);
      var released := ReleaseAll(questions, listing, explain);
      ReleasedOk(questions, listing, explain, released, nextQuestion);
      ExamWritten(exams, nextQuestion, quiz, exams[quiz].(published := true, questions := released), nextQuestion);
      exams := exams[quiz := exams[quiz].(published := true, questions := released)];
      return Ok(|released|);
    }

    /** The explanation loop and the two updates of PublishDraft. */
    static method ReleaseAll(questions: seq<StoredQuestion>, listing: seq<seq<StoredOption>>, explain: DraftQuestion -> string)
      returns (released: seq<StoredQuestion>)
      requires |listing| == |questions|
      ensures |released| == |questions|
      ensures forall i :: 0 <= i < |questions| ==> released[i] == Released(questions[i], View(questions[i], listing[i]), explain)
    {
      released := [];
      var i := 0;
      while i < |questions|
        invariant 0 <= i == |released| <= |questions|
        invariant forall k :: 0 <= k < i ==> released[k] == Released(questions[k], View(questions[k], listing[k]), explain)
      {
        var q, v := questions[i], View(questions[i], listing[i]);
        var explanations := q.explanations;
        if Trim(v.explanation) == "" {
          var explanation := explain(v);
          if Trim(explanation) != "" {
            explanations := explanations + [explanation];
          }
        }
        released := released + [q.(answer := Set, explanations := explanations)];
        i := i + 1;
      }
    }
  }

  lemma RefusedInput(inputs: seq<QuestionInput>, e: InputError)
    requires Explains(e, inputs)
    ensures !AllAcceptable(inputs)
  {
  }
}
