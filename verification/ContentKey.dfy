/** The text a page's cache key is made of: `normalizeText` (scan/service.go:222-224). Lower-casing
    is any map on characters that keeps white space apart from the rest. */
module ContentKey {
  import opened DraftInput

  type Lower = char -> char

  ghost predicate KeepsSpace(lower: Lower) {
    forall c :: IsSpace(lower(c)) <==> IsSpace(c)
  }

  predicate Word(w: string) {
    w != [] && forall i :: 0 <= i < |w| ==> !IsSpace(w[i])
  }

  /** How many leading characters are not white space. */
  function WordLength(s: string): (n: nat)
    ensures n <= |s|
    ensures forall i :: 0 <= i < n ==> !IsSpace(s[i])
    ensures n < |s| ==> IsSpace(s[n])
  {
    if s == [] || IsSpace(s[0]) then 0 else 1 + WordLength(s[1..])
  }

  /** `strings.Fields`. */
  function Fields(s: string): (words: seq<string>)
    ensures forall i :: 0 <= i < |words| ==> Word(words[i])
    decreases |s|
  {
    if s == [] then []
    else if IsSpace(s[0]) then Fields(s[1..])
    else [s[..WordLength(s)]] + Fields(s[WordLength(s)..])
  }

  /** `strings.Join` with a single space. */
  function Join(words: seq<string>): string {
    if words == [] then []
    else if |words| == 1 then words[0]
    else words[0] + " " + Join(words[1..])
  }

  function LowerAll(lower: Lower, s: string): (r: string)
    ensures |r| == |s|
  {
    seq(|s|, i requires 0 <= i < |s| => lower(s[i]))
  }

  function LowerWords(lower: Lower, words: seq<string>): (r: seq<string>)
    ensures |r| == |words|
  {
    seq(|words|, i requires 0 <= i < |words| => LowerAll(lower, words[i]))
  }

  function NormalizeText(lower: Lower, raw: string): string {
    LowerAll(lower, Join(Fields(raw)))
  }

  lemma {:induction false} WordLengthOf(w: string, rest: string)
    requires (forall i :: 0 <= i < |w| ==> !IsSpace(w[i])) && (rest == [] || IsSpace(rest[0]))
    ensures WordLength(w + rest) == |w|
  {
    if w == [] {
      assert w + rest == rest;
    } else {
      assert (w + rest)[1..] == w[1..] + rest;
      WordLengthOf(w[1..], rest);
    }
  }

  lemma FieldsOfWord(w: string, rest: string)
    requires Word(w) && (rest == [] || IsSpace(rest[0]))
    ensures Fields(w + rest) == [w] + Fields(rest)
  {
    WordLengthOf(w, rest);
    assert (w + rest)[0] == w[0];
    assert (w + rest)[..|w|] == w && (w + rest)[|w|..] == rest;
  }

  lemma FieldsOfSpace(rest: string)
    ensures Fields(" " + rest) == Fields(rest)
  {
    assert (" " + rest)[1..] == rest;
  }

  lemma JoinFirst(words: seq<string>)
    requires |words| > 1
    ensures Join(words) == words[0] + (" " + Join(words[1..]))
  {
    assert words[0] + " " + Join(words[1..]) == words[0] + (" " + Join(words[1..]));
  }

  /** Splitting what was joined gives the words back. */
  lemma {:induction false} FieldsOfJoin(words: seq<string>)
    requires forall i :: 0 <= i < |words| ==> Word(words[i])
    ensures Fields(Join(words)) == words
  {
    if |words| == 1 {
      FieldsOfWord(words[0], []);
      assert words[0] + [] == words[0] && words == [words[0]];
    } else if words != [] {
      var rest := Join(words[1..]);
      FieldsOfJoin(words[1..]);
      FieldsOfSpace(rest);
      FieldsOfWord(words[0], " " + rest);
      JoinFirst(words);
      assert words == [words[0]] + words[1..];
    }
  }

  lemma LowerConcat(lower: Lower, a: string, b: string)
    ensures LowerAll(lower, a + b) == LowerAll(lower, a) + LowerAll(lower, b)
  {
  }

  lemma LowerWordsCons(lower: Lower, w: string, words: seq<string>)
    ensures LowerWords(lower, [w] + words) == [LowerAll(lower, w)] + LowerWords(lower, words)
  {
  }

  /** A text that starts with a word is that word and the rest. */
  lemma FirstWord(s: string) returns (w: string, rest: string)
    requires s != [] && !IsSpace(s[0])
    ensures s == w + rest && Word(w) && (rest == [] || IsSpace(rest[0]))
    ensures Fields(s) == [w] + Fields(rest) && |rest| < |s|
  {
    var n := WordLength(s);
    w, rest := s[..n], s[n..];
  }

  /** Lower-casing commutes with splitting. */
  lemma {:induction false} FieldsOfLower(lower: Lower, s: string)
    requires KeepsSpace(lower)
    ensures Fields(LowerAll(lower, s)) == LowerWords(lower, Fields(s))
    decreases |s|
  {
    if s == [] {
    } else if IsSpace(s[0]) {
      FieldsOfLower(lower, s[1..]);
      assert LowerAll(lower, s)[1..] == LowerAll(lower, s[1..]);
    } else {
      var w, rest := FirstWord(s);
      FieldsOfLower(lower, rest);
      LowerConcat(lower, w, rest);
      FieldsOfWord(LowerAll(lower, w), LowerAll(lower, rest));
      LowerWordsCons(lower, w, Fields(rest));
    }
  }

  /** The words of a normalized text are the lower-cased words of the text. */
  lemma WordsOfNormalized(lower: Lower, raw: string)
    requires KeepsSpace(lower)
    ensures Fields(NormalizeText(lower, raw)) == LowerWords(lower, Fields(raw))
  {
    FieldsOfLower(lower, Join(Fields(raw)));
    FieldsOfJoin(Fields(raw));
  }

  lemma {:induction false} LowerJoin(lower: Lower, words: seq<string>)
    requires lower(' ') == ' '
    ensures LowerAll(lower, Join(words)) == Join(LowerWords(lower, words))
  {
    if |words| > 1 {
      LowerJoin(lower, words[1..]);
      LowerConcat(lower, words[0] + " ", Join(words[1..]));
      LowerConcat(lower, words[0], " ");
      assert LowerAll(lower, " ") == " ";
      assert LowerWords(lower, words)[1..] == LowerWords(lower, words[1..]);
    }
  }

  /** Two texts have the same cache text exactly when their words agree up to case: spacing and
      line breaks do not matter, and nothing else is lost. */
  lemma SameKeyIffSameWords(lower: Lower, a: string, b: string)
    requires KeepsSpace(lower) && lower(' ') == ' '
    ensures NormalizeText(lower, a) == NormalizeText(lower, b)
            <==> LowerWords(lower, Fields(a)) == LowerWords(lower, Fields(b))
  {
    WordsOfNormalized(lower, a);
    WordsOfNormalized(lower, b);
    LowerJoin(lower, Fields(a));
    LowerJoin(lower, Fields(b));
  }

  /** Normalizing twice is normalizing once. */
  lemma NormalizeIsIdempotent(lower: Lower, raw: string)
    requires KeepsSpace(lower) && lower(' ') == ' ' && forall c :: lower(lower(c)) == lower(c)
    ensures NormalizeText(lower, NormalizeText(lower, raw)) == NormalizeText(lower, raw)
  {
    WordsOfNormalized(lower, raw);
    LowerJoin(lower, Fields(raw));
    var once := NormalizeText(lower, raw);
    assert LowerAll(lower, once) == once;
  }
}
