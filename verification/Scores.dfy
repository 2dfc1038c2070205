/** The three percentage functions of the backend, over exact rationals: `scorePercent`
    (quiz/service.go), `pct` (quiz/reports.go) and `scorePct` (careergoals/practice.go). */
module Scores {

  /** `math.Round`: halves go away from zero. */
  function Round(x: real): int {
    if x >= 0.0 then (x + 0.5).Floor else -((-x + 0.5).Floor)
  }

  function Round1(x: real): real {
    Round(x * 10.0) as real / 10.0
  }

  function ScorePercent(correct: int, total: int): real {
    if total <= 0 then 0.0
    else
      var raw := (correct as real / total as real) * 100.0;
      Round(raw * 10.0) as real / 10.0
  }

  function Pct(correct: int, total: int): real {
    if total <= 0 then 0.0 else Round1(correct as real / total as real * 100.0)
  }

  function ScorePct(correct: int, total: int): real {
    if total <= 0 then 0.0 else Round(correct as real / total as real * 1000.0) as real / 10.0
  }

  lemma ThreePercentagesAgree(correct: int, total: int)
    ensures ScorePercent(correct, total) == Pct(correct, total) == ScorePct(correct, total)
  {
    if total > 0 {
      var q := correct as real / total as real;
      assert q * 100.0 * 10.0 == q * 1000.0;
    }
  }

  /** The score in tenths of a percent, with integer arithmetic only. */
  function Tenths(correct: nat, total: nat): nat
    requires total > 0
  {
    (2000 * correct + total) / (2 * total)
  }

  lemma FloorOfQuotient(a: nat, b: nat)
    requires b > 0
    ensures (a as real / b as real).Floor == a / b
  {
    var q, r := a / b, a % b;
    assert a == q * b + r;
    assert a as real == q as real * b as real + r as real;
    assert a as real / b as real == q as real + r as real / b as real;
    QuotientBelowOne(r, b);
  }

  lemma QuotientBelowOne(r: nat, b: nat)
    requires r < b
    ensures 0.0 <= r as real / b as real < 1.0
  {
    var x := r as real / b as real;
    assert x * b as real == r as real;
    assert x >= 1.0 ==> x * b as real >= b as real;
    assert x < 0.0 ==> x * b as real < 0.0;
  }

  /** The rounded quotient of the three functions is a single integer division. */
  lemma ScoreIsTenths(correct: nat, total: nat)
    requires total > 0
    ensures ScorePercent(correct, total) == Tenths(correct, total) as real / 10.0
  {
    var c, t := correct as real, total as real;
    var x := c / t;
    assert x * t == c;
    QuotientNonNegative(correct, total);
    var y := (2000 * correct + total) as real / (2 * total) as real;
    var z := x * 1000.0 + 0.5;
    assert y * (2.0 * t) == 2000.0 * c + t;
    assert z * (2.0 * t) == 2000.0 * (x * t) + t;
    Cancel(y, z, 2.0 * t);
    Cancel(z, y, 2.0 * t);
    FloorOfQuotient(2000 * correct + total, 2 * total);
    assert x * 100.0 * 10.0 == x * 1000.0;
  }

  lemma QuotientNonNegative(a: nat, b: nat)
    requires b > 0
    ensures a as real / b as real >= 0.0
  {
    var x := a as real / b as real;
    assert x * b as real == a as real;
    assert x < 0.0 ==> x * b as real < 0.0;
  }

  lemma MulOrder(a: int, b: int, k: nat)
    requires a <= b
    ensures k * a <= k * b
  {
  }

  /** `Tenths` reaches n exactly when the unrounded tenths reach n minus a half. */
  lemma TenthsAtLeastIff(correct: nat, total: nat, n: nat)
    requires total > 0
    ensures n <= Tenths(correct, total) <==> 2 * total * n <= 2000 * correct + total
  {
    var d, a, m := 2 * total, 2000 * correct + total, Tenths(correct, total);
    assert a == m * d + a % d;
    if n <= m {
      MulOrder(n, m, d);
    } else {
      MulOrder(m + 1, n, d);
    }
  }

  lemma TenthsBracket(correct: nat, total: nat)
    requires total > 0
    ensures var n := Tenths(correct, total); 2 * total * n <= 2000 * correct + total < 2 * total * (n + 1)
  {
    TenthsAtLeastIff(correct, total, Tenths(correct, total));
    TenthsAtLeastIff(correct, total, Tenths(correct, total) + 1);
  }

  /** A score is within 0.05 of the true percentage: never below it by more, and below it
      plus 0.05 or exactly that, since halves round up. */
  lemma ScoreIsClose(correct: nat, total: nat)
    requires total > 0
    ensures var exact := 100.0 * correct as real / total as real;
            exact - 0.05 < ScorePercent(correct, total) <= exact + 0.05
  {
    var n := Tenths(correct, total);
    ScoreIsTenths(correct, total);
    TenthsBracket(correct, total);
    assert 2 * total * (n + 1) == 2 * total * n + 2 * total;
    assert (2 * total * n) as real == 2.0 * total as real * n as real;
    CloseInReals(correct as real, total as real, n as real, 100.0 * correct as real / total as real);
  }

  lemma CloseInReals(c: real, t: real, n: real, exact: real)
    requires t > 0.0 && exact * t == 100.0 * c
    requires 2.0 * t * n <= 2000.0 * c + t < 2.0 * t * n + 2.0 * t
    ensures exact - 0.05 < n / 10.0 <= exact + 0.05
  {
    assert (20.0 * exact + 1.0) * t == 2000.0 * c + t;
    assert 2.0 * n * t == 2.0 * t * n;
    Cancel(2.0 * n, 20.0 * exact + 1.0, t);
    assert (2.0 * n + 2.0) * t == 2.0 * t * n + 2.0 * t;
    CancelStrict(20.0 * exact + 1.0, 2.0 * n + 2.0, t);
  }

  lemma Cancel(a: real, b: real, t: real)
    requires t > 0.0 && a * t <= b * t
    ensures a <= b
  {
    assert a > b ==> (a - b) * t > 0.0;
  }

  lemma CancelStrict(a: real, b: real, t: real)
    requires t > 0.0 && a * t < b * t
    ensures a < b
  {
    assert a >= b ==> (a - b) * t >= 0.0;
  }

  /** Scores lie between 0 and 100. */
  lemma ScoreInRange(correct: nat, total: nat)
    requires correct <= total
    ensures 0.0 <= ScorePercent(correct, total) <= 100.0
  {
    if total > 0 {
      ScoreIsTenths(correct, total);
      TenthsAtMost(correct, total);
    }
  }

  lemma TenthsAtMost(correct: nat, total: nat)
    requires correct <= total && total > 0
    ensures Tenths(correct, total) <= 1000
  {
    TenthsAtLeastIff(correct, total, 1001);
  }

  /** One more correct answer never lowers the score. */
  lemma ScoreIsMonotone(fewer: nat, more: nat, total: nat)
    requires fewer <= more && total > 0
    ensures ScorePercent(fewer, total) <= ScorePercent(more, total)
  {
    ScoreIsTenths(fewer, total);
    ScoreIsTenths(more, total);
    TenthsOrder(fewer, more, total);
  }

  lemma TenthsOrder(fewer: nat, more: nat, total: nat)
    requires fewer <= more && total > 0
    ensures Tenths(fewer, total) <= Tenths(more, total)
    ensures fewer < more && total <= 1000 ==> Tenths(fewer, total) < Tenths(more, total)
  {
    var n := Tenths(fewer, total);
    TenthsBracket(fewer, total);
    TenthsAtLeastIff(more, total, n);
    TenthsAtLeastIff(more, total, n + 1);
    assert 2 * total * (n + 1) == 2 * total * n + 2 * total;
  }

  /** Up to 1000 questions, different results always show different scores. */
  lemma ScoreSeparates(fewer: nat, more: nat, total: nat)
    requires fewer < more <= total <= 1000
    ensures ScorePercent(fewer, total) < ScorePercent(more, total)
  {
    ScoreIsTenths(fewer, total);
    ScoreIsTenths(more, total);
    TenthsOrder(fewer, more, total);
  }

  /** A score of 100 means all correct unless the mistakes are at most one in 2000. */
  lemma FullMarksIff(correct: nat, total: nat)
    requires correct <= total && total > 0
    ensures ScorePercent(correct, total) == 100.0 <==> 2000 * (total - correct) <= total
    ensures total < 2000 ==> (ScorePercent(correct, total) == 100.0 <==> correct == total)
  {
    ScoreIsTenths(correct, total);
    TenthsAtMost(correct, total);
    TenthsAtLeastIff(correct, total, 1000);
  }

  /** A score of 0 means none correct unless the hits are fewer than one in 2000. */
  lemma NoMarksIff(correct: nat, total: nat)
    requires correct <= total && total > 0
    ensures ScorePercent(correct, total) == 0.0 <==> 2000 * correct < total
    ensures total <= 2000 ==> (ScorePercent(correct, total) == 0.0 <==> correct == 0)
  {
    ScoreIsTenths(correct, total);
    TenthsAtLeastIff(correct, total, 1);
  }

  /** The bounds 2000 are sharp: one mistake in 2000 still shows 100, one hit in 2001 shows 0. */
  lemma ScoreBoundsAreSharp()
    ensures ScorePercent(1999, 2000) == 100.0 && ScorePercent(1, 2001) == 0.0
  {
    FullMarksIff(1999, 2000);
    NoMarksIff(1, 2001);
  }
}
