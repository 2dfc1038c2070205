/** Submitting a practice set and what it does to the user's skill gaps
    (careergoals/practice.go:94-266, careergoals/skillgaps.go). */
module SkillGaps {
  import opened Common
  import opened Scores
  import opened Attempts

  // ---------------------------------------------------------------- keys

  const SKILL_KEY_SEP := '\U{1F}'

  function SkillGapKey(subject: string, topic: string): string {
    subject + [SKILL_KEY_SEP] + topic
  }

  /** Where the first separator is, or the length. */
  function FirstSep(key: string): (i: nat)
    ensures i <= |key|
  {
    if key == [] || key[0] == SKILL_KEY_SEP then 0 else 1 + FirstSep(key[1..])
  }

  /** `strings.SplitN(key, sep, 2)`. */
  function SplitSkillGapKey(key: string): (string, string) {
    var i := FirstSep(key);
    if i < |key| then (key[..i], key[i + 1..]) else ("", key)
  }

  lemma {:induction false} FirstSepFinds(key: string)
    ensures SKILL_KEY_SEP !in key[..FirstSep(key)]
    ensures FirstSep(key) < |key| ==> key[FirstSep(key)] == SKILL_KEY_SEP
  {
    if key != [] && key[0] != SKILL_KEY_SEP {
      FirstSepFinds(key[1..]);
      assert key[..FirstSep(key)] == [key[0]] + key[1..][..FirstSep(key[1..])];
    }
  }

  lemma {:induction false} FirstSepIs(key: string, i: nat)
    requires i < |key| && key[i] == SKILL_KEY_SEP && SKILL_KEY_SEP !in key[..i]
    ensures FirstSep(key) == i
  {
    if i > 0 {
      assert key[0] in key[..i];
      assert forall c :: c in key[1..][..i - 1] ==> c in key[..i];
      FirstSepIs(key[1..], i - 1);
    }
  }

  /** Splitting reverses the key exactly when the subject has no separator. */
  lemma SplitReversesKeyIff(subject: string, topic: string)
    ensures SplitSkillGapKey(SkillGapKey(subject, topic)) == (subject, topic) <==> SKILL_KEY_SEP !in subject
  {
    var key := SkillGapKey(subject, topic);
    assert key[..|subject|] == subject && key[|subject| + 1..] == topic;
    FirstSepFinds(key);
    if SKILL_KEY_SEP !in subject {
      FirstSepIs(key, |subject|);
    }
  }

  predicate HasSep(key: string) {
    SKILL_KEY_SEP in key
  }

  /** A key with a separator is put together again from its two parts, whatever they hold; so
      different keys go to different rows. */
  lemma KeyReversesSplit(key: string)
    requires HasSep(key)
    ensures SkillGapKey(SplitSkillGapKey(key).0, SplitSkillGapKey(key).1) == key
  {
    FirstSepFinds(key);
    var i := FirstSep(key);
    assert key[..|key|] == key;
    assert key == key[..i] + [key[i]] + key[i + 1..];
  }

  // ---------------------------------------------------------------- weakness

  datatype Direction = Improved | NeedsWork | Unchanged

  function DirectionForScore(score: real): Direction {
    if score > 80.0 then Improved else if score < 60.0 then NeedsWork else Unchanged
  }

  datatype GapRow = GapRow(user: User, subject: string, topic: string)

  type Gaps = map<GapRow, nat>

  /** The upsert of UpdateSkillGaps. */
  function Upsert(known: bool, weakness: nat, score: real): nat {
    if !known then (if score < 60.0 then 10 else 0)
    else if score < 60.0 then Min(weakness + 10, 100)
    else if score > 80.0 then Max(weakness - 15, 0)
    else weakness
  }

  predicate WeaknessOk(w: nat) {
    w % 5 == 0 && w <= 100
  }

  /** A known weakness moves exactly with the reported direction, until it meets its bound. */
  lemma WeaknessFollowsDirection(weakness: nat, score: real)
    requires WeaknessOk(weakness)
    ensures Upsert(true, weakness, score) > weakness <==> DirectionForScore(score) == NeedsWork && weakness < 100
    ensures Upsert(true, weakness, score) < weakness <==> DirectionForScore(score) == Improved && weakness > 0
  {
  }

  /** A known weakness after n submissions with the same score. */
  function Repeated(weakness: nat, score: real, n: nat): nat {
    if n == 0 then weakness else Upsert(true, Repeated(weakness, score, n - 1), score)
  }

  /** Weak results add 10 each up to 100, strong ones take 15 each down to 0, others nothing:
      ten weak results fill any weakness and seven strong ones empty it. */
  lemma {:induction false} RepeatedScores(weakness: nat, score: real, n: nat)
    requires WeaknessOk(weakness)
    ensures Repeated(weakness, score, n) ==
            match DirectionForScore(score)
            case NeedsWork => Min(weakness + 10 * n, 100)
            case Improved => Max(weakness - 15 * n, 0)
            case Unchanged => weakness
  {
    if n > 0 {
      RepeatedScores(weakness, score, n - 1);
    }
  }

  /** The row a key is stored under. */
  function RowOf(user: User, key: string): GapRow {
    GapRow(user, SplitSkillGapKey(key).0, SplitSkillGapKey(key).1)
  }

  ghost function RowsOf(user: User, keys: set<string>): (rows: set<GapRow>)
    ensures forall key :: key in keys && RowOf(user, key).topic != "" ==> RowOf(user, key) in rows
    ensures forall row :: row in rows ==> row.topic != "" && exists key :: key in keys && RowOf(user, key) == row
  {
    set key | key in keys && RowOf(user, key).topic != "" :: RowOf(user, key)
  }

  ghost predicate Keys(keys: set<string>) {
    forall key :: key in keys ==> HasSep(key)
  }

  lemma RowHasItsKey(user: User, keys: set<string>, row: GapRow)
    requires Keys(keys) && row in RowsOf(user, keys)
    ensures SkillGapKey(row.subject, row.topic) in keys && row.user == user
  {
    var key :| key in keys && RowOf(user, key) == row;
    KeyReversesSplit(key);
  }

  /** What an update writes to one row. */
  function Written(gaps: Gaps, row: GapRow, score: real): nat {
    Upsert(row in gaps, if row in gaps then gaps[row] else 0, score)
  }

  function ScoreOf(scores: map<string, real>, row: GapRow): real {
    var key := SkillGapKey(row.subject, row.topic);
    if key in scores then scores[key] else 0.0
  }

  /** One row after the upserts for `keys`. */
  ghost predicate RowUpdated(gaps: Gaps, after: Gaps, user: User, scores: map<string, real>, keys: set<string>, row: GapRow) {
    if row in RowsOf(user, keys) then row in after && after[row] == Written(gaps, row, ScoreOf(scores, row))
    else (row in after <==> row in gaps) && (row in gaps ==> after[row] == gaps[row])
  }

  /** All upserts of one submission at once: no order is mentioned. */
  ghost predicate IsUpdated(gaps: Gaps, after: Gaps, user: User, scores: map<string, real>, keys: set<string>) {
    forall row :: RowUpdated(gaps, after, user, scores, keys, row)
  }

  /** So the table does not depend on the order of the upserts. */
  lemma UpdateIsUnique(gaps: Gaps, a: Gaps, b: Gaps, user: User, scores: map<string, real>, keys: set<string>)
    requires IsUpdated(gaps, a, user, scores, keys) && IsUpdated(gaps, b, user, scores, keys)
    ensures a == b
  {
    forall row
      ensures row in a <==> row in b
      ensures row in a ==> a[row] == b[row]
    {
      assert RowUpdated(gaps, a, user, scores, keys, row) && RowUpdated(gaps, b, user, scores, keys, row);
    }
  }

  lemma RowsGrow(user: User, keys: set<string>, key: string)
    requires Keys(keys + {key}) && key !in keys
    ensures RowOf(user, key) !in RowsOf(user, keys)
    ensures RowsOf(user, keys + {key}) == RowsOf(user, keys) + if RowOf(user, key).topic == "" then {} else {RowOf(user, key)}
  {
    var row := RowOf(user, key);
    KeyReversesSplit(key);
    if row in RowsOf(user, keys) { RowHasItsKey(user, keys, row); }
    forall r | r in RowsOf(user, keys + {key})
      ensures r in RowsOf(user, keys) || r == row
    {
      var k :| k in keys + {key} && RowOf(user, k) == r;
    }
  }

  lemma OneMoreKey(gaps: Gaps, before: Gaps, user: User, scores: map<string, real>, keys: set<string>, key: string)
    requires Keys(keys + {key}) && key in scores && key !in keys
    requires IsUpdated(gaps, before, user, scores, keys)
    ensures var row := RowOf(user, key);
            IsUpdated(gaps, if row.topic == "" then before else before[row := Written(before, row, scores[key])], user, scores, keys + {key})
  {
    var row := RowOf(user, key);
    var after := if row.topic == "" then before else before[row := Written(before, row, scores[key])];
    RowsGrow(user, keys, key);
    KeyReversesSplit(key);
    assert RowUpdated(gaps, before, user, scores, keys, row);
    forall r
      ensures RowUpdated(gaps, after, user, scores, keys + {key}, r)
    {
      assert RowUpdated(gaps, before, user, scores, keys, r);
    }
  }

  lemma NothingUpdated(gaps: Gaps, user: User, scores: map<string, real>)
    ensures IsUpdated(gaps, gaps, user, scores, {})
  {
    assert RowsOf(user, {}) == {};
  }

  ghost predicate GapsOk(gaps: Gaps) {
    forall row :: row in gaps ==> WeaknessOk(gaps[row])
  }

  /** Every weakness stays a multiple of 5 between 0 and 100. */
  lemma UpdatesKeepRange(gaps: Gaps, after: Gaps, user: User, scores: map<string, real>, keys: set<string>)
    requires GapsOk(gaps) && IsUpdated(gaps, after, user, scores, keys)
    ensures GapsOk(after)
  {
    forall row | row in after
      ensures WeaknessOk(after[row])
    {
      assert RowUpdated(gaps, after, user, scores, keys, row);
    }
  }

  // ---------------------------------------------------------------- tallies

  datatype PracticeQuestion = PracticeQuestion(id: nat, correct: Option<nat>, subject: string, topic: string)

  datatype Tally = Tally(subject: string, topic: string, correct: nat, total: nat)

  ghost predicate Right(q: PracticeQuestion, answers: seq<Answer>) {
    Grade(LastChoice(answers, q.id), q.correct) == Correct
  }

  function KeyOf(q: PracticeQuestion): string {
    SkillGapKey(q.subject, q.topic)
  }

  /** How many of the first n questions have a key, and how many of those were answered right. */
  ghost function CountKey(questions: seq<PracticeQuestion>, n: nat, key: string): nat
    requires n <= |questions|
  {
    if n == 0 then 0 else CountKey(questions, n - 1, key) + if KeyOf(questions[n - 1]) == key then 1 else 0
  }

  ghost function CountRight(questions: seq<PracticeQuestion>, n: nat, answers: seq<Answer>, key: string): nat
    requires n <= |questions|
  {
    if n == 0 then 0
    else CountRight(questions, n - 1, answers, key) + if KeyOf(questions[n - 1]) == key && Right(questions[n - 1], answers) then 1 else 0
  }

  ghost function RightTotal(questions: seq<PracticeQuestion>, n: nat, answers: seq<Answer>): nat
    requires n <= |questions|
  {
    if n == 0 then 0 else RightTotal(questions, n - 1, answers) + if Right(questions[n - 1], answers) then 1 else 0
  }

  /** How many of the first n questions have no choice that counts. */
  ghost function SkippedTotal(questions: seq<PracticeQuestion>, n: nat, answers: seq<Answer>): nat
    requires n <= |questions|
  {
    if n == 0 then 0
    else SkippedTotal(questions, n - 1, answers) + if LastChoice(answers, questions[n - 1].id).None? then 1 else 0
  }

  ghost predicate TallyOf(t: Tally, key: string, questions: seq<PracticeQuestion>, n: nat, answers: seq<Answer>)
    requires n <= |questions|
  {
    && HasSep(key) && key == SkillGapKey(t.subject, t.topic)
    && t.total == CountKey(questions, n, key) > 0 && t.correct == CountRight(questions, n, answers, key) <= t.total
  }

  /** The tallies of the first n questions: one for each key that occurs. */
  ghost predicate TalliesOf(tallies: map<string, Tally>, questions: seq<PracticeQuestion>, n: nat, answers: seq<Answer>)
    requires n <= |questions|
  {
    && (forall key :: key in tallies ==> TallyOf(tallies[key], key, questions, n, answers))
    && forall key :: key !in tallies ==> CountKey(questions, n, key) == 0 && CountRight(questions, n, answers, key) == 0
  }

  ghost function SumTotals(tallies: map<string, Tally>): nat {
    if tallies == map[] then 0
    else
      var key :| key in tallies;
      tallies[key].total + SumTotals(tallies - {key})
  }

  ghost function SumCorrect(tallies: map<string, Tally>): nat {
    if tallies == map[] then 0
    else
      var key :| key in tallies;
      tallies[key].correct + SumCorrect(tallies - {key})
  }

  /** The sums do not depend on the order in which keys are taken. */
  lemma {:induction false} SumWithout(tallies: map<string, Tally>, key: string)
    requires key in tallies
    ensures SumTotals(tallies) == tallies[key].total + SumTotals(tallies - {key})
    ensures SumCorrect(tallies) == tallies[key].correct + SumCorrect(tallies - {key})
    decreases |tallies|
  {
    var a :| a in tallies && SumTotals(tallies) == tallies[a].total + SumTotals(tallies - {a});
    var b :| b in tallies && SumCorrect(tallies) == tallies[b].correct + SumCorrect(tallies - {b});
    SumSwap(tallies, a, key);
    SumSwap(tallies, b, key);
  }

  lemma SumSwap(tallies: map<string, Tally>, a: string, key: string)
    requires a in tallies && key in tallies
    ensures tallies[a].total + SumTotals(tallies - {a}) == tallies[key].total + SumTotals(tallies - {key})
    ensures tallies[a].correct + SumCorrect(tallies - {a}) == tallies[key].correct + SumCorrect(tallies - {key})
    decreases |tallies|, 0
  {
    if a != key {
      SumWithout(tallies - {a}, key);
      SumWithout(tallies - {key}, a);
      assert tallies - {a} - {key} == tallies - {key} - {a};
    }
  }

  lemma SumUpdate(tallies: map<string, Tally>, key: string, t: Tally)
    ensures SumTotals(tallies[key := t]) == SumTotals(tallies) - (if key in tallies then tallies[key].total else 0) + t.total
    ensures SumCorrect(tallies[key := t]) == SumCorrect(tallies) - (if key in tallies then tallies[key].correct else 0) + t.correct
  {
    SumWithout(tallies[key := t], key);
    assert tallies[key := t] - {key} == tallies - {key};
    if key in tallies {
      SumWithout(tallies, key);
    } else {
      assert tallies - {key} == tallies;
    }
  }

  /** The tally of a question's key once the question is counted. */
  ghost function Tallied(tallies: map<string, Tally>, q: PracticeQuestion, answers: seq<Answer>): Tally {
    var t := if KeyOf(q) in tallies then tallies[KeyOf(q)] else Tally(q.subject, q.topic, 0, 0);
    t.(total := t.total + 1, correct := t.correct + if Right(q, answers) then 1 else 0)
  }

  lemma TallyNext(tallies: map<string, Tally>, questions: seq<PracticeQuestion>, i: nat, answers: seq<Answer>)
    requires i < |questions| && TalliesOf(tallies, questions, i, answers)
    ensures TalliesOf(tallies[KeyOf(questions[i]) := Tallied(tallies, questions[i], answers)], questions, i + 1, answers)
  {
    var q, key := questions[i], KeyOf(questions[i]);
    assert HasSep(key) by { assert key[|q.subject|] == SKILL_KEY_SEP; }
    assert TallyOf(Tallied(tallies, q, answers), key, questions, i + 1, answers);
    forall k | k in tallies && k != key
      ensures TallyOf(tallies[k], k, questions, i + 1, answers)
    {
      assert TallyOf(tallies[k], k, questions, i, answers);
    }
  }

  /** The tallies without the last question. */
  ghost function Untallied(tallies: map<string, Tally>, q: PracticeQuestion, answers: seq<Answer>): map<string, Tally>
    requires KeyOf(q) in tallies && tallies[KeyOf(q)].total > 0
    requires Right(q, answers) ==> tallies[KeyOf(q)].correct > 0
  {
    var t := tallies[KeyOf(q)];
    if t.total == 1 then tallies - {KeyOf(q)}
    else tallies[KeyOf(q) := t.(total := t.total - 1, correct := t.correct - if Right(q, answers) then 1 else 0)]
  }

  lemma UntalliedOk(tallies: map<string, Tally>, questions: seq<PracticeQuestion>, n: nat, answers: seq<Answer>)
    requires 0 < n <= |questions| && TalliesOf(tallies, questions, n, answers)
    ensures var q := questions[n - 1];
            && KeyOf(q) in tallies && 0 < tallies[KeyOf(q)].total && tallies[KeyOf(q)].correct <= tallies[KeyOf(q)].total
            && (Right(q, answers) ==> tallies[KeyOf(q)].correct > 0)
            && (tallies[KeyOf(q)].total == 1 ==> tallies[KeyOf(q)].correct == if Right(q, answers) then 1 else 0)
            && TalliesOf(Untallied(tallies, q, answers), questions, n - 1, answers)
  {
    var q, key := questions[n - 1], KeyOf(questions[n - 1]);
    assert CountKey(questions, n, key) > 0;
    assert TallyOf(tallies[key], key, questions, n, answers);
    CorrectWithinTotal(questions, n - 1, answers, key);
    var before := Untallied(tallies, q, answers);
    forall k | k in before
      ensures TallyOf(before[k], k, questions, n - 1, answers)
    {
      assert TallyOf(tallies[k], k, questions, n, answers);
    }
  }

  lemma {:induction false} CorrectWithinTotal(questions: seq<PracticeQuestion>, n: nat, answers: seq<Answer>, key: string)
    requires n <= |questions|
    ensures CountRight(questions, n, answers, key) <= CountKey(questions, n, key)
  {
    if n > 0 {
      CorrectWithinTotal(questions, n - 1, answers, key);
    }
  }

  lemma NoQuestionsNoTallies(tallies: map<string, Tally>, questions: seq<PracticeQuestion>, answers: seq<Answer>)
    requires TalliesOf(tallies, questions, 0, answers)
    ensures tallies == map[]
  {
    assert forall key :: key !in tallies;
  }

  /** The tallies add up to the set's totals. */
  lemma {:induction false} TalliesAddUp(tallies: map<string, Tally>, questions: seq<PracticeQuestion>, n: nat, answers: seq<Answer>)
    requires n <= |questions| && TalliesOf(tallies, questions, n, answers)
    ensures SumTotals(tallies) == n && SumCorrect(tallies) == RightTotal(questions, n, answers)
    decreases n
  {
    if n == 0 {
      NoQuestionsNoTallies(tallies, questions, answers);
    } else {
      var before := LastQuestion(tallies, questions, n, answers);
      TalliesAddUp(before, questions, n - 1, answers);
    }
  }

  lemma LastQuestion(tallies: map<string, Tally>, questions: seq<PracticeQuestion>, n: nat, answers: seq<Answer>)
    returns (before: map<string, Tally>)
    requires 0 < n <= |questions| && TalliesOf(tallies, questions, n, answers)
    ensures TalliesOf(before, questions, n - 1, answers)
    ensures SumTotals(tallies) == SumTotals(before) + 1
    ensures SumCorrect(tallies) == SumCorrect(before) + if Right(questions[n - 1], answers) then 1 else 0
  {
    UntalliedOk(tallies, questions, n, answers);
    before := Untallied(tallies, questions[n - 1], answers);
    SumsOfLast(tallies, questions[n - 1], answers);
  }

  lemma SumsOfLast(tallies: map<string, Tally>, q: PracticeQuestion, answers: seq<Answer>)
    requires KeyOf(q) in tallies && tallies[KeyOf(q)].total > 0 && tallies[KeyOf(q)].correct <= tallies[KeyOf(q)].total
    requires Right(q, answers) ==> tallies[KeyOf(q)].correct > 0
    requires tallies[KeyOf(q)].total == 1 ==> tallies[KeyOf(q)].correct == if Right(q, answers) then 1 else 0
    ensures SumTotals(tallies) == SumTotals(Untallied(tallies, q, answers)) + 1
    ensures SumCorrect(tallies) == SumCorrect(Untallied(tallies, q, answers)) + if Right(q, answers) then 1 else 0
  {
    var before := Untallied(tallies, q, answers);
    assert before[KeyOf(q) := tallies[KeyOf(q)]] == tallies;
    SumUpdate(before, KeyOf(q), tallies[KeyOf(q)]);
  }

  /** What a submission reports for each of its topics. */
  datatype SkillDelta = SkillDelta(subject: string, topic: string, direction: Direction, score: real)

  function TopicScore(t: Tally): real {
    ScorePct(t.correct, t.total)
  }

  function DeltaOf(t: Tally): SkillDelta {
    SkillDelta(t.subject, t.topic, DirectionForScore(TopicScore(t)), TopicScore(t))
  }

  ghost function NamedTopics(tallies: map<string, Tally>): set<string> {
    set key | key in tallies && tallies[key].topic != ""
  }

  /** The score map and the report of a submission: one entry for each tally with a topic. */
  ghost predicate ReportOf(scores: map<string, real>, updates: map<string, SkillDelta>, tallies: map<string, Tally>, keys: set<string>) {
    && scores.Keys == updates.Keys == NamedTopics(tallies) * keys
    && forall key :: key in scores ==> scores[key] == TopicScore(tallies[key]) && updates[key] == DeltaOf(tallies[key])
  }

  /** The report of a set: for each entry the topic its key is made of, the score of the questions
      with that key, improved above 80 and needing work below 60. */
  ghost predicate ReportsTopics(updates: map<string, SkillDelta>, questions: seq<PracticeQuestion>, answers: seq<Answer>) {
    forall key :: key in updates ==>
      var u, n := updates[key], |questions|;
      && key == SkillGapKey(u.subject, u.topic) && u.topic != "" && CountKey(questions, n, key) > 0
      && u.score == ScorePct(CountRight(questions, n, answers, key), CountKey(questions, n, key))
      && (u.direction == Improved <==> u.score > 80.0) && (u.direction == NeedsWork <==> u.score < 60.0)
  }

  lemma TalliesReport(scores: map<string, real>, updates: map<string, SkillDelta>, tallies: map<string, Tally>,
                      questions: seq<PracticeQuestion>, answers: seq<Answer>)
    requires TalliesOf(tallies, questions, |questions|, answers) && ReportOf(scores, updates, tallies, tallies.Keys)
    ensures ReportsTopics(updates, questions, answers)
  {
    forall key | key in updates
      ensures key in tallies && updates[key] == DeltaOf(tallies[key]) && TallyOf(tallies[key], key, questions, |questions|, answers)
      ensures tallies[key].topic != ""
    {
      assert key in scores;
    }
  }

  /** A topic without a row counts as weakness 0. */
  function WeaknessAt(gaps: Gaps, row: GapRow): int {
    if row in gaps then gaps[row] else 0
  }

  predicate Moved(direction: Direction, before: int, after: int) {
    match direction
    case NeedsWork => after == Min(before + 10, 100)
    case Improved => after == Max(before - 15, 0)
    case Unchanged => after == before
  }

  /** A submission moves each topic's row with the direction it reports for that topic: up 10 to
      at most 100, down 15 to at least 0, or not at all. A topic seen for the first time starts at
      10 iff the report says it needs work, and at 0 otherwise. */
  lemma RowFollowsReport(gaps: Gaps, after: Gaps, user: User, tallies: map<string, Tally>, scores: map<string, real>,
                         updates: map<string, SkillDelta>, key: string)
    requires GapsOk(gaps) && Keys(scores.Keys) && IsUpdated(gaps, after, user, scores, scores.Keys)
    requires ReportOf(scores, updates, tallies, tallies.Keys)
    requires key in updates && RowOf(user, key).topic != ""
    ensures var row := RowOf(user, key);
            && row in after && SkillGapKey(row.subject, row.topic) == key
            && Moved(updates[key].direction, WeaknessAt(gaps, row), after[row])
  {
    var row := RowOf(user, key);
    KeyReversesSplit(key);
    assert key in scores && updates[key] == DeltaOf(tallies[key]);
    assert RowUpdated(gaps, after, user, scores, scores.Keys, row);
  }

  // ---------------------------------------------------------------- the service

  type SetId = nat

  datatype PracticeSet = PracticeSet(owner: User, completed: bool, score: real, questions: seq<PracticeQuestion>)

  datatype PracticeResult = PracticeResult(id: SetId, score: real, correct: nat, wrong: nat, skipped: nat, total: nat,
                                           updates: map<string, SkillDelta>)

  datatype PracticeError = SetNotFound | SetForbidden

  class PracticeService {
    var sets: map<SetId, PracticeSet>
    var gaps: Gaps

    constructor (sets: map<SetId, PracticeSet>)
      ensures this.sets == sets && gaps == map[] && GapsOk(gaps)
    {
      this.sets := sets;
      gaps := map[];
    }

    /** One question of the grading loop: its status, and its tally brought up to date. */
    static method TallyOne(tallies: map<string, Tally>, q: PracticeQuestion, given: seq<Answer>, chosen: map<QuestionId, Option<OptionId>>)
      returns (status: Status, next: map<string, Tally>)
      requires LastChoice(given, q.id) == if q.id in chosen then chosen[q.id] else None
      ensures status == Grade(LastChoice(given, q.id), q.correct)
      ensures next == tallies[KeyOf(q) := Tallied(tallies, q, given)]
    {
      var key := SkillGapKey(q.subject, q.topic);
      var t := if key in tallies then tallies[key] else Tally(q.subject, q.topic, 0, 0);
      t := t.(total := t.total + 1);
      if q.id !in chosen || chosen[q.id].None? {
        status := Skipped;
      } else if q.correct.Some? && chosen[q.id].value == q.correct.value {
        status := Correct;
        t := t.(correct := t.correct + 1);
      } else {
        status := Wrong;
      }
      next := tallies[key := t];
    }

    /** The grading loop of SubmitPractice. */
    static method TallyAll(questions: seq<PracticeQuestion>, given: seq<Answer>)
      returns (tallies: map<string, Tally>, correct: nat, wrong: nat, skipped: nat)
      ensures TalliesOf(tallies, questions, |questions|, given)
      ensures |questions| == correct + wrong + skipped && correct == RightTotal(questions, |questions|, given)
      ensures skipped == SkippedTotal(questions, |questions|, given)
    {
      var chosen := QuizService.Selections(given);
      tallies, correct, wrong, skipped := map[], 0, 0, 0;
      var i := 0;
      while i < |questions|
        invariant 0 <= i <= |questions|
        invariant TalliesOf(tallies, questions, i, given)
        invariant i == correct + wrong + skipped && correct == RightTotal(questions, i, given)
        invariant skipped == SkippedTotal(questions, i, given)
      {
        TallyNext(tallies, questions, i, given);
        var status;
        status, tallies := TallyOne(tallies, questions[i], given, chosen);
        if status == Skipped {
          skipped := skipped + 1;
        } else if status == Correct {
          correct := correct + 1;
        } else {
          wrong := wrong + 1;
        }
        i := i + 1;
      }
    }

    /** The loop over the tallies, in whatever order the map yields them. */
    static method Report(tallies: map<string, Tally>) returns (scores: map<string, real>, updates: map<string, SkillDelta>)
      ensures ReportOf(scores, updates, tallies, tallies.Keys)
    {
      scores, updates := map[], map[];
      var left := tallies.Keys;
      while left != {}
        invariant left <= tallies.Keys
        invariant ReportOf(scores, updates, tallies, tallies.Keys - left)
        decreases |left|
      {
        var key :| key in left;
        left := left - {key};
        var t := tallies[key];
        if t.topic != "" {
          var pct := ScorePct(t.correct, t.total);
          scores := scores[key := pct];
          updates := updates[key := SkillDelta(t.subject, t.topic, DirectionForScore(pct), pct)];
        }
      }
      assert tallies.Keys - left == tallies.Keys;
    }

    /** The upsert loop, in whatever order the map yields the keys. */
    method UpdateSkillGaps(user: User, scores: map<string, real>)
      requires Keys(scores.Keys) && GapsOk(gaps)
      modifies this`gaps
      ensures IsUpdated(old(gaps), gaps, user, scores, scores.Keys) && GapsOk(gaps)
    {
      ghost var done: set<string> := {};
      var left := scores.Keys;
      NothingUpdated(gaps, user, scores);
      while left != {}
        invariant done !! left && done + left == scores.Keys
        invariant IsUpdated(old(gaps), gaps, user, scores, done)
        decreases |left|
      {
        var key :| key in left;
        OneMoreKey(old(gaps), gaps, user, scores, done, key);
        left := left - {key};
        done := done + {key};
        var (subject, topic) := SplitSkillGapKey(key);
        if topic != "" {
          var row := GapRow(user, subject, topic);
          gaps := gaps[row := Upsert(row in gaps, if row in gaps then gaps[row] else 0, scores[key])];
        }
      }
      assert done == scores.Keys;
      UpdatesKeepRange(old(gaps), gaps, user, scores, scores.Keys);
    }

    /** Scores a set once. A second submission returns the stored score, with all counts zero,
        and changes nothing. */
    method SubmitPractice(id: SetId, user: User, given: seq<Answer>)
      returns (r: Result<PracticeResult, PracticeError>, ghost tallies: map<string, Tally>, ghost scores: map<string, real>)
      requires GapsOk(gaps)
      modifies this
      ensures GapsOk(gaps)
      ensures r.Err? <==> id !in old(sets) || old(sets)[id].owner != user
      ensures r.Err? ==> r.error == if id !in old(sets) then SetNotFound else SetForbidden
      ensures r.Err? || old(sets)[id].completed ==> sets == old(sets) && gaps == old(gaps)
      ensures r.Ok? && old(sets)[id].completed ==> r.value == PracticeResult(id, old(sets)[id].score, 0, 0, 0, 0, map[])
      ensures r.Ok? && !old(sets)[id].completed ==>
                var questions := old(sets)[id].questions;
                && TalliesOf(tallies, questions, |questions|, given) && ReportOf(scores, r.value.updates, tallies, tallies.Keys)
                && r.value.id == id && r.value.skipped == SkippedTotal(questions, |questions|, given)
                && ReportsTopics(r.value.updates, questions, given)
                && SumTotals(tallies) == |questions| == r.value.total == r.value.correct + r.value.wrong + r.value.skipped
                && SumCorrect(tallies) == r.value.correct == RightTotal(questions, |questions|, given)
                && r.value.score == ScorePct(r.value.correct, r.value.total)
                && sets == old(sets)[id := old(sets)[id].(completed := true, score := r.value.score)]
                && IsUpdated(old(gaps), gaps, user, scores, scores.Keys)
    {
      tallies, scores := map[], map[];
      if id !in sets { return Err(SetNotFound), tallies, scores; }
      var s := sets[id];
      if s.owner != user { return Err(SetForbidden), tallies, scores; }
      if s.completed { return Ok(PracticeResult(id, s.score, 0, 0, 0, 0, map[])), tallies, scores; }
      var counted, correct, wrong, skipped := TallyAll(s.questions, given);
      TalliesAddUp(counted, s.questions, |s.questions|, given);
      var total := |s.questions|;
      var overall := ScorePct(correct, total);
      sets := sets[id := s.(completed := true, score := overall)];
      var topicScores, updates := Report(counted);
      TalliesReport(topicScores, updates, counted, s.questions, given);
      UpdateSkillGaps(user, topicScores);
      return Ok(PracticeResult(id, overall, correct, wrong, skipped, total, updates)), counted, topicScores;
    }
  }
}
