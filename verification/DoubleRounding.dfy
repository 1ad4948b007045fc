/** Progress and failure rate as the code computes them, in doubles, compared with the exact quotients of the model. */
module DoubleRounding {
  import opened Prelude
  import opened TaskProgress

  /** Half a unit in the last place of a double with exponent zero. */
  const UNIT: real := 1.0 / 9007199254740992.0

  /** More than any table holds. */
  const LIMIT: nat := 1_000_000_000_000

  /** The numbers that occur: far from underflow and overflow. */
  predicate Occurs(x: real) {
    x == 0.0 || 1.0 / LIMIT as real <= x <= 1000.0
  }

  /** What rounding to the nearest double guarantees for them (section 4.3.1 of IEEE 754-2019): it is monotone, and its relative
   *  error is at most half a unit in the last place. */
  ghost predicate IsRounding(fl: real -> real) {
    && (forall x, y :: Occurs(x) && Occurs(y) && x <= y ==> fl(x) <= fl(y))
    && (forall x :: Occurs(x) ==> x - x * UNIT <= fl(x) <= x + x * UNIT)
  }

  /** Two facts about particular doubles: a half is one, and 199 of 200 comes out as 99.5. */
  ghost predicate KnowsHalves(fl: real -> real) {
    fl(0.5) == 0.5 && fl(fl(0.995) * 100.0) == 99.5
  }

  /** `Math.round((completed / total) * 100)`; an empty list is at 0. */
  function DoubleProgress(fl: real -> real, total: nat, completed: nat): int {
    if total == 0 then 0 else (fl(fl(completed as real / total as real) * 100.0) + 0.5).Floor
  }

  // ------------------------------------------------------------------ error bounds

  lemma RoundedQuotient(fl: real -> real, x: real)
    requires IsRounding(fl) && Occurs(x) && x <= 1.0
    ensures 0.0 <= fl(x) <= 1.0 + UNIT && x - UNIT <= fl(x) <= x + UNIT && x <= 2.0 * fl(x)
  {
    assert 0.0 <= x * UNIT <= UNIT;
    assert x * UNIT <= 0.5 * x;
  }

  /** Two roundings move a percentage by less than 300 units. */
  lemma RoundedPercentage(fl: real -> real, x: real)
    requires IsRounding(fl) && Occurs(x) && x <= 1.0
    ensures 100.0 * x - 300.0 * UNIT <= fl(fl(x) * 100.0) <= 100.0 * x + 300.0 * UNIT
  {
    RoundedQuotient(fl, x);
    var p := fl(x) * 100.0;
    assert Occurs(p) && p <= 150.0;
    assert 0.0 <= p * UNIT <= 150.0 * UNIT;
  }

  // ------------------------------------------------------------------- main results

  /** The exact quotient is a half, so that rounding decides by a hair. */
  predicate IsTie(total: nat, completed: nat)
    requires 0 < total
  {
    (200 * completed + total) % (2 * total) == 0
  }

  lemma ExactQuotient(total: nat, completed: nat)
    requires 0 < total && completed <= total
    ensures var n, d, x := ChecklistProgress(total, completed) as real, (2 * total) as real, 100.0 * (completed as real / total as real) + 0.5;
      && (IsTie(total, completed) ==> x == n)
      && (!IsTie(total, completed) ==> n + 1.0 / d <= x <= n + 1.0 - 1.0 / d)
  {
    var a, d := 200 * completed + total, 2 * total;
    var n, m := a / d, a % d;
    var x := 100.0 * (completed as real / total as real) + 0.5;
    assert a as real == n as real * d as real + m as real;
    QuotientAsReal(completed as real, total as real);
    assert x == a as real / d as real;
    SplitQuotient(a as real, d as real, n as real, m as real);
    if !IsTie(total, completed) {
      assert 1 <= m <= d - 1;
      FractionBounds(m as real, d as real);
    }
  }

  lemma QuotientAsReal(c: real, t: real)
    requires 0.0 < t
    ensures 100.0 * (c / t) + 0.5 == (200.0 * c + t) / (2.0 * t)
  {
    var k := c / t;
    assert k * t == c;
    Quotient(200.0 * c + t, 2.0 * t, 100.0 * k + 0.5);
  }

  lemma Quotient(a: real, d: real, q: real)
    requires 0.0 < d && a == q * d
    ensures a / d == q
  {
  }

  lemma SmallerQuotient(a: real, b: real, d: real)
    requires a <= b && 0.0 < d
    ensures a / d <= b / d
  {
    var p, q := a / d, b / d;
    assert p * d == a && q * d == b;
    assert (q - p) * d == b - a;
  }

  lemma SplitQuotient(a: real, d: real, n: real, m: real)
    requires 0.0 < d && a == n * d + m
    ensures a / d == n + m / d
  {
  }

  lemma FractionBounds(m: real, d: real)
    requires 1.0 <= m <= d - 1.0
    ensures 1.0 / d <= m / d <= 1.0 - 1.0 / d
  {
    SmallerQuotient(1.0, m, d);
    SmallerQuotient(m, d - 1.0, d);
    SplitQuotient(d - 1.0, d, 1.0, -1.0);
    assert -1.0 / d == -(1.0 / d);
  }

  /** For lists of up to a million million entries the stored progress is the exact one, except at ties, where it may be one
   *  lower. */
  lemma {:induction false} DoublesDifferOnlyAtTies(fl: real -> real, total: nat, completed: nat)
    requires IsRounding(fl) && completed <= total <= LIMIT && 0 < total
    ensures DoubleProgress(fl, total, completed) == ChecklistProgress(total, completed)
            || (IsTie(total, completed) && DoubleProgress(fl, total, completed) == ChecklistProgress(total, completed) - 1)
  {
    var x, n := completed as real / total as real, ChecklistProgress(total, completed);
    ExactQuotient(total, completed);
    RatioIsBounded(completed as real, total as real);
    RoundedPercentage(fl, x);
    var y := fl(fl(x) * 100.0) + 0.5;
    assert 0.0 < 300.0 * UNIT < 1.0;
    if !IsTie(total, completed) {
      SmallShare((2 * total) as real);
      assert n as real <= y < n as real + 1.0;
    }
  }

  lemma RatioIsBounded(c: real, t: real)
    requires c == 0.0 || 1.0 <= c
    requires c <= t && 0.0 < t <= LIMIT as real
    ensures Occurs(c / t) && c / t <= 1.0
  {
    SmallerQuotient(c, t, t);
    Quotient(t, t, 1.0);
    if c != 0.0 {
      SmallerQuotient(1.0, c, t);
      Inverse(t, LIMIT as real);
    }
  }

  lemma Inverse(t: real, l: real)
    requires 0.0 < t <= l
    ensures 1.0 / l <= 1.0 / t
  {
    SmallerQuotient(t, l, l);
    Quotient(l, l, 1.0);
    var p := 1.0 / l;
    assert p * l == 1.0 && p * t <= 1.0;
    SmallerQuotient(p * t, 1.0, t);
    Quotient(p * t, t, p);
  }

  lemma SmallShare(d: real)
    requires 0.0 < d <= 2_000_000_000_000.0
    ensures 300.0 * UNIT < 1.0 / d
  {
    assert 300.0 * UNIT * d < 1.0;
    assert 1.0 / d * d == 1.0;
  }

  /** So the finalization gate decides alike: progress is 100 in doubles exactly when it is 100. */
  lemma {:induction false} GateIsTheSameInDoubles(fl: real -> real, total: nat, completed: nat)
    requires IsRounding(fl) && KnowsHalves(fl) && completed <= total <= LIMIT && 0 < total
    ensures DoubleProgress(fl, total, completed) == 100 <==> 200 * (total - completed) <= total
    ensures 0 <= DoubleProgress(fl, total, completed) <= 100
  {
    DoublesDifferOnlyAtTies(fl, total, completed);
    FullProgressExactly(total, completed);
    ProgressIsMonotone(total, completed, completed);
    if ChecklistProgress(total, completed) == 100 && IsTie(total, completed) {
      TieAtHundred(total, completed);
      assert completed as real / total as real == 0.995;
    }
    if ChecklistProgress(total, completed) == 0 {
      NoTieAtZero(total, completed);
    }
  }

  lemma TieAtHundred(total: nat, completed: nat)
    requires completed <= total && 0 < total && ChecklistProgress(total, completed) == 100 && IsTie(total, completed)
    ensures completed as real / total as real == 0.995
  {
    var a, d := 200 * completed + total, 2 * total;
    assert a == (a / d) * d + a % d;
    assert 200 * completed == 199 * total;
    assert completed as real == 0.995 * total as real;
  }

  lemma NoTieAtZero(total: nat, completed: nat)
    requires 0 < total && ChecklistProgress(total, completed) == 0
    ensures !IsTie(total, completed)
  {
    var a, d := 200 * completed + total, 2 * total;
    assert a == (a / d) * d + a % d;
  }

  /** A failure rate in doubles reaches the default threshold of one half exactly when the exact rate does. */
  lemma {:induction false} HalfIsExactInDoubles(fl: real -> real, failures: nat, total: nat)
    requires IsRounding(fl) && KnowsHalves(fl) && failures <= total <= LIMIT && 0 < total
    ensures fl(failures as real / total as real) >= 0.5 <==> total <= 2 * failures
  {
    var x := failures as real / total as real;
    RatioIsBounded(failures as real, total as real);
    if total <= 2 * failures {
      SmallerQuotient(0.5 * total as real, failures as real, total as real);
      Quotient(0.5 * total as real, total as real, 0.5);
    } else {
      BelowHalf(failures as real, total as real);
      SmallShare((2 * total) as real);
      RoundedQuotient(fl, x);
    }
  }

  lemma BelowHalf(f: real, t: real)
    requires 0.0 < t && 2.0 * f <= t - 1.0
    ensures f / t <= 0.5 - 1.0 / (2.0 * t)
  {
    assert f <= 0.5 * t - 0.5;
    assert (0.5 * t - 0.5) / t == 0.5 - 0.5 / t;
    assert 0.5 / t == 1.0 / (2.0 * t);
  }
}
