/** Validation of a reviewer's edits: `validateDraftInput` (quiz/review.go:287-343). */
module DraftInput {
  import opened Common

  const CORRECT_INDEX_UNKNOWN := -1

  datatype OptionInput = OptionInput(tag: string, text: string)

  datatype QuestionInput = QuestionInput(text: string, kind: string, correctIndex: int, explanation: string, options: seq<OptionInput>)

  datatype AnswerStatus = Set | Unknown

  /** A validated question. */
  datatype Normalized = Normalized(text: string, kind: string, answer: AnswerStatus, explanation: string,
                                   correctIndex: int, options: seq<OptionInput>)

  /** The number of the offending question is kept, as in the error message. */
  datatype InputError = NoQuestions | EmptyText(question: nat) | InvalidType(question: nat) | OptionCount(question: nat, got: nat)

  // ---------------------------------------------------------------- strings.TrimSpace

  /** `unicode.IsSpace`. */
  predicate IsSpace(c: char) {
    '\t' <= c <= '\r' || c == ' ' || c == '\U{85}' || c == '\U{A0}' || c == '\U{1680}' || '\U{2000}' <= c <= '\U{200A}'
    || c == '\U{2028}' || c == '\U{2029}' || c == '\U{202F}' || c == '\U{205F}' || c == '\U{3000}'
  }

  function TrimLeft(s: string): string {
    if s != [] && IsSpace(s[0]) then TrimLeft(s[1..]) else s
  }

  function TrimRight(s: string): string {
    if s != [] && IsSpace(s[|s| - 1]) then TrimRight(s[..|s| - 1]) else s
  }

  function Trim(s: string): string {
    TrimRight(TrimLeft(s))
  }

  predicate Trimmed(s: string) {
    s == [] || (!IsSpace(s[0]) && !IsSpace(s[|s| - 1]))
  }

  lemma {:induction false} TrimLeftStarts(s: string)
    ensures TrimLeft(s) == [] || !IsSpace(TrimLeft(s)[0])
  {
    if s != [] && IsSpace(s[0]) {
      TrimLeftStarts(s[1..]);
    }
  }

  lemma {:induction false} TrimRightEnds(s: string)
    requires s == [] || !IsSpace(s[0])
    ensures Trimmed(TrimRight(s))
  {
    if s != [] && IsSpace(s[|s| - 1]) {
      TrimRightEnds(s[..|s| - 1]);
    }
  }

  lemma TrimTrims(s: string)
    ensures Trimmed(Trim(s))
  {
    TrimLeftStarts(s);
    TrimRightEnds(TrimLeft(s));
  }

  lemma TrimmedStays(s: string)
    requires Trimmed(s)
    ensures Trim(s) == s
  {
  }

  ghost predicate AllSpace(s: string) {
    forall i :: 0 <= i < |s| ==> IsSpace(s[i])
  }

  lemma {:induction false} TrimLeftCuts(s: string) returns (before: string)
    ensures AllSpace(before) && s == before + TrimLeft(s)
  {
    before := "";
    if s != [] && IsSpace(s[0]) {
      var rest := TrimLeftCuts(s[1..]);
      before := [s[0]] + rest;
    }
  }

  lemma {:induction false} TrimRightCuts(s: string) returns (after: string)
    ensures AllSpace(after) && s == TrimRight(s) + after
  {
    after := "";
    if s != [] && IsSpace(s[|s| - 1]) {
      var rest := TrimRightCuts(s[..|s| - 1]);
      after := rest + [s[|s| - 1]];
    }
  }

  /** Trimming cuts white space off both ends, and all of it. */
  lemma TrimCuts(s: string) returns (before: string, after: string)
    ensures AllSpace(before) && AllSpace(after) && s == before + Trim(s) + after && Trimmed(Trim(s))
  {
    before := TrimLeftCuts(s);
    after := TrimRightCuts(TrimLeft(s));
    TrimTrims(s);
  }

  /** Trimming twice is trimming once. */
  lemma TrimIdempotent(s: string)
    ensures Trim(Trim(s)) == Trim(s)
  {
    TrimTrims(s);
    TrimmedStays(Trim(s));
  }

  // ---------------------------------------------------------------- options

  /** `string(rune('A' + n))`, for the few options a question has. */
  function Letter(n: nat): string {
    if n < 26 then ['A' + n as char] else "?"
  }

  predicate Blank(o: OptionInput) {
    Trim(o.text) == ""
  }

  function Keep(o: OptionInput, position: nat): OptionInput {
    OptionInput(if Trim(o.tag) == "" then Letter(position) else Trim(o.tag), Trim(o.text))
  }

  /** The options that survive: blank ones are dropped, the rest are trimmed and labelled. */
  function Kept(options: seq<OptionInput>): seq<OptionInput> {
    if options == [] then []
    else
      var before, o := Kept(options[..|options| - 1]), options[|options| - 1];
      if Blank(o) then before else before + [Keep(o, |before|)]
  }

  /** Where each surviving option came from. */
  ghost function Sources(options: seq<OptionInput>): (sources: seq<nat>)
    ensures |sources| == |Kept(options)|
    ensures forall i :: 0 <= i < |sources| ==> sources[i] < |options|
  {
    if options == [] then []
    else
      var before, o := Sources(options[..|options| - 1]), options[|options| - 1];
      if Blank(o) then before else before + [|options| - 1]
  }

  /** The surviving options are the non-blank ones ... */
  lemma {:induction false} SourcesAreTheNonBlank(options: seq<OptionInput>, k: nat)
    requires k < |options|
    ensures !Blank(options[k]) <==> k in Sources(options)
  {
    if k < |options| - 1 {
      SourcesAreTheNonBlank(options[..|options| - 1], k);
    }
  }

  /** ... in their order ... */
  lemma {:induction false} SourcesIncrease(options: seq<OptionInput>)
    ensures Increasing(Sources(options))
  {
    if options != [] {
      SourcesIncrease(options[..|options| - 1]);
    }
  }

  /** ... each with its own text. */
  lemma {:induction false} KeptComeFromSources(options: seq<OptionInput>, i: nat)
    requires i < |Sources(options)|
    ensures Kept(options)[i] == Keep(options[Sources(options)[i]], i)
    ensures var o, kept := options[Sources(options)[i]], Kept(options)[i];
            kept.text == Trim(o.text) && (if Trim(o.tag) == "" then kept.tag == Letter(i) else kept.tag == Trim(o.tag))
  {
    if i < |Sources(options[..|options| - 1])| {
      KeptComeFromSources(options[..|options| - 1], i);
    }
  }

  ghost predicate Increasing(s: seq<nat>) {
    forall a, b :: 0 <= a < b < |s| ==> s[a] < s[b]
  }

  lemma {:induction false} SourceAtLeast(s: seq<nat>, i: nat)
    requires Increasing(s) && i < |s|
    ensures s[i] >= i
    ensures s[i] == i ==> forall k :: 0 <= k <= i ==> s[k] == k
  {
    if i > 0 {
      SourceAtLeast(s, i - 1);
    }
  }

  lemma {:induction false} SourceIsOwnIndex(s: seq<nat>, i: nat)
    requires Increasing(s) && i < |s| && forall k :: 0 <= k <= i ==> k in s
    ensures s[i] == i
  {
    if i > 0 {
      SourceIsOwnIndex(s, i - 1);
      SourceAtLeast(s, i - 1);
    }
    SourceAtLeast(s, i);
    assert i in s;
    var p :| 0 <= p < |s| && s[p] == i;
    assert p >= i && (p > i ==> s[i] < s[p]);
  }

  // ---------------------------------------------------------------- questions

  predicate KnownKind(kind: string) {
    kind == "mcq" || kind == "fill_blank" || kind == "true_false"
  }

  predicate GoodCount(kind: string, n: nat) {
    2 <= n && n <= (if kind == "mcq" then 6 else if kind == "fill_blank" then 4 else 2)
  }

  function Normalize(q: QuestionInput): Normalized {
    var options := Kept(q.options);
    var known := 0 <= q.correctIndex < |options|;
    Normalized(Trim(q.text), Trim(q.kind), if known then Set else Unknown, Trim(q.explanation),
               if known then q.correctIndex else CORRECT_INDEX_UNKNOWN, options)
  }

  predicate Acceptable(q: QuestionInput) {
    Trim(q.text) != "" && KnownKind(Trim(q.kind)) && GoodCount(Trim(q.kind), |Kept(q.options)|)
  }

  function Refusal(q: QuestionInput, number: nat): InputError
    requires !Acceptable(q)
  {
    if Trim(q.text) == "" then EmptyText(number)
    else if !KnownKind(Trim(q.kind)) then InvalidType(number)
    else OptionCount(number, |Kept(q.options)|)
  }

  /** The option loop of validateDraftInput. */
  method KeepOptions(options: seq<OptionInput>) returns (kept: seq<OptionInput>)
    ensures kept == Kept(options)
  {
    kept := [];
    var i := 0;
    while i < |options|
      invariant 0 <= i <= |options|
      invariant kept == Kept(options[..i])
    {
      assert options[..i + 1][..i] == options[..i];
      var text := Trim(options[i].text);
      if text != "" {
        var tag := Trim(options[i].tag);
        if tag == "" {
          tag := Letter(|kept|);
        }
        kept := kept + [OptionInput(tag, text)];
      }
      i := i + 1;
    }
    assert options[..i] == options;
  }

  /** The normalized question says what the client wrote, and its answer is the index the client
      gave if that is the index of an option that was kept. */
  ghost predicate Says(n: Normalized, q: QuestionInput) {
    && n.text == Trim(q.text) && n.kind == Trim(q.kind) && n.explanation == Trim(q.explanation) && n.options == Kept(q.options)
    && n.text != "" && n.kind in {"mcq", "fill_blank", "true_false"} && 2 <= |n.options| <= MaxOptions(n.kind)
    && (n.answer == Set <==> 0 <= q.correctIndex < |n.options|)
    && n.correctIndex == if n.answer == Set then q.correctIndex else -1
  }

  /** The error names the question and the first check it fails. */
  ghost predicate Blames(e: InputError, q: QuestionInput, number: nat) {
    var (n, kind) := (|Kept(q.options)|, Trim(q.kind));
    && (Trim(q.text) == "" ==> e == EmptyText(number))
    && (Trim(q.text) != "" && !KnownKind(kind) ==> e == InvalidType(number))
    && (Trim(q.text) != "" && KnownKind(kind) ==> e == OptionCount(number, n) && !(2 <= n <= MaxOptions(kind)))
  }

  function MaxOptions(kind: string): nat {
    match kind
    case "mcq" => 6
    case "fill_blank" => 4
    case _ => 2
  }

  /** The body of the question loop of validateDraftInput. */
  method NormalizeQuestion(q: QuestionInput, number: nat) returns (r: Result<Normalized, InputError>)
    ensures r == if Acceptable(q) then Ok(Normalize(q)) else Err(Refusal(q, number))
    ensures if r.Ok? then Says(r.value, q) else Blames(r.error, q, number)
  {
    var text := Trim(q.text);
    if text == "" { return Err(EmptyText(number)); }
    var kind := Trim(q.kind);
    var minOptions, maxOptions := 4, 4;
    if kind == "mcq" {
      minOptions, maxOptions := 2, 6;
    } else if kind == "fill_blank" {
      minOptions, maxOptions := 2, 4;
    } else if kind == "true_false" {
      minOptions, maxOptions := 2, 2;
    } else {
      return Err(InvalidType(number));
    }
    var options := KeepOptions(q.options);
    if |options| < minOptions || |options| > maxOptions { return Err(OptionCount(number, |options|)); }

    var correctIndex, answer := q.correctIndex, Set;
    if correctIndex < 0 || correctIndex >= |options| {
      correctIndex, answer := CORRECT_INDEX_UNKNOWN, Unknown;
    }
    return Ok(Normalized(text, kind, answer, Trim(q.explanation), correctIndex, options));
  }

  ghost predicate AllNormalized(questions: seq<QuestionInput>, out: seq<Normalized>) {
    |out| <= |questions| && forall k :: 0 <= k < |out| ==> Acceptable(questions[k]) && out[k] == Normalize(questions[k])
  }

  ghost predicate AllAcceptable(questions: seq<QuestionInput>) {
    questions != [] && forall i :: 0 <= i < |questions| ==> Acceptable(questions[i])
  }

  ghost function NormalizedAll(questions: seq<QuestionInput>): (ns: seq<Normalized>)
    ensures |ns| == |questions|
  {
    seq(|questions|, i requires 0 <= i < |questions| => Normalize(questions[i]))
  }

  lemma AcceptedAll(questions: seq<QuestionInput>, out: seq<Normalized>)
    requires questions != [] && AllNormalized(questions, out) && |out| == |questions|
    ensures AllAcceptable(questions) && out == NormalizedAll(questions)
  {
  }

  lemma AcceptNext(questions: seq<QuestionInput>, out: seq<Normalized>)
    requires AllNormalized(questions, out) && |out| < |questions| && Acceptable(questions[|out|])
    ensures AllNormalized(questions, out + [Normalize(questions[|out|])])
  {
  }

  lemma RefuseNext(questions: seq<QuestionInput>, out: seq<Normalized>)
    requires AllNormalized(questions, out) && |out| < |questions| && !Acceptable(questions[|out|])
    ensures FirstBad(questions, |out|)
  {
  }

  ghost predicate FirstBad(questions: seq<QuestionInput>, k: int) {
    0 <= k < |questions| && !Acceptable(questions[k]) && forall i :: 0 <= i < k ==> Acceptable(questions[i])
  }

  ghost predicate SayAll(ns: seq<Normalized>, questions: seq<QuestionInput>) {
    |ns| == |questions| && forall i :: 0 <= i < |questions| ==> Says(ns[i], questions[i])
  }

  /** There are no questions, or the first bad one is blamed, counted from one. */
  ghost predicate Explains(e: InputError, questions: seq<QuestionInput>) {
    if questions == [] then e == NoQuestions else exists k :: FirstBad(questions, k) && Blames(e, questions[k], k + 1)
  }

  /** All questions are accepted, each normalized, or the first bad one is reported. */
  method ValidateDraftInput(questions: seq<QuestionInput>) returns (r: Result<seq<Normalized>, InputError>)
    ensures r.Ok? ==> AllAcceptable(questions) && r.value == NormalizedAll(questions) && SayAll(r.value, questions)
    ensures r.Err? ==> Explains(r.error, questions)
  {
    if |questions| == 0 { return Err(NoQuestions); }
    var out := [];
    var i := 0;
    while i < |questions|
      invariant 0 <= i == |out| <= |questions|
      invariant AllNormalized(questions, out)
    {
      var n := NormalizeQuestion(questions[i], i + 1);
      if n.Err? {
        RefuseNext(questions, out);
        return Err(n.error);
      }
      AcceptNext(questions, out);
      out := out + [n.value];
      i := i + 1;
    }
    AcceptedAll(questions, out);
    return Ok(out);
  }

  // ---------------------------------------------------------------- what normalization means

  /** The option the client chose stays the correct one exactly when no blank option comes at
      or before it; otherwise a later option, or none, takes its place. */
  lemma ChosenOptionStaysIff(q: QuestionInput)
    requires 0 <= q.correctIndex < |q.options|
    ensures var n := Normalize(q);
            (n.answer == Set && Sources(q.options)[n.correctIndex] == q.correctIndex)
            <==> forall k :: 0 <= k <= q.correctIndex ==> !Blank(q.options[k])
    ensures var n := Normalize(q);
            n.answer == Set ==> Sources(q.options)[n.correctIndex] >= q.correctIndex
  {
    var s := Sources(q.options);
    SourcesIncrease(q.options);
    forall k | 0 <= k < |q.options|
      ensures !Blank(q.options[k]) <==> k in s
    {
      SourcesAreTheNonBlank(q.options, k);
    }
    if q.correctIndex < |s| {
      SourceAtLeast(s, q.correctIndex);
      if forall k :: 0 <= k <= q.correctIndex ==> !Blank(q.options[k]) {
        SourceIsOwnIndex(s, q.correctIndex);
      } else if s[q.correctIndex] == q.correctIndex {
        forall k | 0 <= k <= q.correctIndex ensures k in s { assert s[k] == k; }
      }
    } else if forall k :: 0 <= k <= q.correctIndex ==> !Blank(q.options[k]) {
      PrefixKept(q.options, q.correctIndex + 1);
      assert false;
    }
  }

  lemma {:induction false} PrefixKept(options: seq<OptionInput>, n: nat)
    requires n <= |options| && forall k :: 0 <= k < n ==> !Blank(options[k])
    ensures |Sources(options)| >= n
  {
    if |options| > n {
      PrefixKept(options[..|options| - 1], n);
    } else if n > 0 {
      PrefixKept(options[..n - 1], n - 1);
    }
  }

  /** A concrete question whose answer moves: the client chose "P", "R" is stored. */
  lemma BlankOptionMovesTheAnswer()
    ensures var q := QuestionInput("Q", "mcq", 1, "", [OptionInput("A", ""), OptionInput("B", "P"), OptionInput("C", "R")]);
            && Acceptable(q) && Normalize(q).answer == Set && Normalize(q).correctIndex == 1
            && Normalize(q).options == [OptionInput("B", "P"), OptionInput("C", "R")]
  {
    TrimmedStays("Q");
    TrimmedStays("mcq");
    FirstOptionBlank(OptionInput("A", ""), OptionInput("B", "P"), OptionInput("C", "R"));
  }

  lemma FirstOptionBlank(blank: OptionInput, p: OptionInput, r: OptionInput)
    requires Trim(blank.text) == "" && NormalOption(p) && NormalOption(r)
    ensures Kept([blank, p, r]) == [p, r]
  {
    TrimmedStays(p.tag);
    TrimmedStays(p.text);
    TrimmedStays(r.tag);
    TrimmedStays(r.text);
    assert [blank, p, r][..2] == [blank, p] && [blank, p][..1] == [blank] && [blank][..0] == [];
    assert Kept([blank]) == [];
    assert Kept([blank, p]) == [p];
  }

  /** Options as normalization leaves them. */
  predicate NormalOption(o: OptionInput) {
    o.text != "" && Trimmed(o.text) && o.tag != "" && Trimmed(o.tag)
  }

  lemma {:induction false} KeptAreNormal(options: seq<OptionInput>)
    ensures forall i :: 0 <= i < |Kept(options)| ==> NormalOption(Kept(options)[i])
  {
    if options != [] {
      KeptAreNormal(options[..|options| - 1]);
      var o := options[|options| - 1];
      TrimTrims(o.text);
      TrimTrims(o.tag);
    }
  }

  lemma NormalOptionStays(o: OptionInput, position: nat)
    requires NormalOption(o)
    ensures !Blank(o) && Keep(o, position) == o
  {
    TrimmedStays(o.text);
    TrimmedStays(o.tag);
  }

  lemma {:induction false} NormalOptionsStay(options: seq<OptionInput>)
    requires forall i :: 0 <= i < |options| ==> NormalOption(options[i])
    ensures Kept(options) == options
  {
    if options != [] {
      var init, o := options[..|options| - 1], options[|options| - 1];
      NormalOptionsStay(init);
      NormalOptionStays(o, |init|);
      assert options == init + [o];
    }
  }

  /** The input a client sends when it leaves a normalized question alone. */
  function Unchanged(n: Normalized): QuestionInput {
    QuestionInput(n.text, n.kind, n.correctIndex, n.explanation, n.options)
  }

  /** Normalization is a projection: a normalized question is accepted and comes out the same. */
  lemma NormalizeIsIdempotent(q: QuestionInput)
    requires Acceptable(q)
    ensures Acceptable(Unchanged(Normalize(q))) && Normalize(Unchanged(Normalize(q))) == Normalize(q)
  {
    KeptAreNormal(q.options);
    NormalOptionsStay(Kept(q.options));
    TrimIdempotent(q.text);
    TrimIdempotent(q.kind);
    TrimIdempotent(q.explanation);
  }

  /** Blank labels become A, B, C, ... in order. */
  lemma {:induction false} BlankLabelsAreLetters(options: seq<OptionInput>)
    requires forall i :: 0 <= i < |options| ==> Trim(options[i].tag) == ""
    ensures forall i :: 0 <= i < |Kept(options)| ==> Kept(options)[i].tag == Letter(i)
    ensures forall i :: 0 <= i < |Kept(options)| && i < 6 ==> Kept(options)[i].tag == ["ABCDEF"[i]]
  {
    if options != [] {
      BlankLabelsAreLetters(options[..|options| - 1]);
    }
  }
}
