/** `FairOddsEngine` (src/fair_odds.py): fair over/under prices for a count market from
    a Poisson model. The class has no state, so its two methods are functions here.
    `math.exp` is not computed: it is the parameter `exp`, whose only known property is
    that its values are positive. */
module FairOdds {

  import opened Base

  type Positive = x: real | x > 0.0 witness 1.0

  /** `lam ** k`. */
  function Pow(x: real, k: nat): real
  {
    if k == 0 then 1.0 else x * Pow(x, k - 1)
  }

  lemma {:induction false} PowNonNegative(x: real, k: nat)
    requires x >= 0.0
    ensures Pow(x, k) >= 0.0
  {
    if k > 0 {
      PowNonNegative(x, k - 1);
    }
  }

  /** `math.factorial(k)`. */
  function Factorial(k: nat): (r: nat)
    ensures r >= 1
  {
    if k == 0 then 1 else k * Factorial(k - 1)
  }

  /** `poisson_prob(lam, k)`: the probability of exactly `k` events. */
  function PoissonProb(lam: real, k: nat, exp: real -> Positive): (p: real)
    ensures lam >= 0.0 ==> p >= 0.0
  {
    PowNonNegativeIf(lam, k);
    Pow(lam, k) * exp(-lam) / Factorial(k) as real
  }

  lemma PowNonNegativeIf(x: real, k: nat)
    ensures x >= 0.0 ==> Pow(x, k) >= 0.0
  {
    if x >= 0.0 { PowNonNegative(x, k); }
  }

  /** `int(x)` of a float: truncation toward zero. */
  function Trunc(x: real): int
  {
    if x >= 0.0 then x.Floor else -((-x).Floor)
  }

  /** Number of terms in `range(int(line) + 1)`. */
  function TermCount(line: real): (n: nat)
  {
    if Trunc(line) + 1 > 0 then Trunc(line) + 1 else 0
  }

  /** For a non-negative line the sum runs over k = 0 .. floor(line). */
  lemma TermCountFloor(line: real)
    requires line >= 0.0
    ensures TermCount(line) == line.Floor + 1
  {
  }

  /** The first `k` whose factorial exceeds the largest float: from it on, dividing by
      `math.factorial(k)` raises `OverflowError`. */
  const FactorialFloatLimit: nat := 171

  /** Whether the sum of `fair_odds` reaches a term that raises `OverflowError`. */
  predicate SumOverflows(line: real)
  {
    TermCount(line) > FactorialFloatLimit
  }

  /** For a non-negative line, the sum overflows exactly when the line is at least 171. */
  lemma OverflowFrom(line: real)
    requires line >= 0.0
    ensures SumOverflows(line) <==> line >= 171.0
  {
    TermCountFloor(line);
  }

  /** Sum of the Poisson terms for k = 0 .. n - 1. */
  function UnderSum(lam: real, n: nat, exp: real -> Positive): real
  {
    if n == 0 then 0.0 else UnderSum(lam, n - 1, exp) + PoissonProb(lam, n - 1, exp)
  }

  /** `prob_over`: one minus the mass of the outcomes 0 .. int(line). */
  function ProbOver(lam: real, line: real, exp: real -> Positive): real
  {
    1.0 - UnderSum(lam, TermCount(line), exp)
  }

  /** `prob_under`, written as the source writes it: the complement of `prob_over`. */
  function ProbUnder(lam: real, line: real, exp: real -> Positive): (p: real)
    ensures p == UnderSum(lam, TermCount(line), exp)
    ensures p + ProbOver(lam, line, exp) == 1.0
  {
    1.0 - ProbOver(lam, line, exp)
  }

  /** The dictionary `{"over": ..., "under": ...}`; `None` is a side without a price. */
  datatype FairPrices = FairPrices(over: Option<real>, under: Option<real>)

  /** `fair_odds(avg_value, line)`: each side is priced at the reciprocal of its
      probability, and has no price when that probability is not positive. The sum
      behind it raises `OverflowError` for a line of 171 or more (`SumOverflows`,
      `OverflowFrom`); callers check that first, so for those lines this function
      gives the prices the sum would have had, not what the program does. */
  function FairOddsFor(lam: real, line: real, exp: real -> Positive): (r: FairPrices)
    ensures r.over.Some? <==> ProbOver(lam, line, exp) > 0.0
    ensures r.under.Some? <==> ProbUnder(lam, line, exp) > 0.0
    ensures r.over.Some? ==> r.over.value * ProbOver(lam, line, exp) == 1.0 && r.over.value > 0.0
    ensures r.under.Some? ==> r.under.value * ProbUnder(lam, line, exp) == 1.0 && r.under.value > 0.0
  {
    var pOver := ProbOver(lam, line, exp);
    var pUnder := ProbUnder(lam, line, exp);
    FairPrices(if pOver > 0.0 then Some(1.0 / pOver) else None,
               if pUnder > 0.0 then Some(1.0 / pUnder) else None)
  }

  /** With a non-negative mean every term is non-negative, so the partial sums are too. */
  lemma {:induction false} UnderSumNonNegative(lam: real, n: nat, exp: real -> Positive)
    requires lam >= 0.0
    ensures UnderSum(lam, n, exp) >= 0.0
  {
    if n > 0 {
      UnderSumNonNegative(lam, n - 1, exp);
    }
  }

  /** Raising the line never lowers the under-probability. */
  lemma {:induction false} UnderSumMonotone(lam: real, n: nat, m: nat, exp: real -> Positive)
    requires lam >= 0.0 && n <= m
    ensures UnderSum(lam, n, exp) <= UnderSum(lam, m, exp)
    decreases m - n
  {
    if n < m {
      UnderSumMonotone(lam, n, m - 1, exp);
    }
  }

  /** A larger line has at least as large an under-probability. */
  lemma ProbUnderMonotone(lam: real, line1: real, line2: real, exp: real -> Positive)
    requires lam >= 0.0 && line1 <= line2
    ensures ProbUnder(lam, line1, exp) <= ProbUnder(lam, line2, exp)
  {
    assert line1.Floor <= line2.Floor;
    UnderSumMonotone(lam, TermCount(line1), TermCount(line2), exp);
  }

  /** `prob_over` is at most one, so a fair over price, when there is one, is at least
      one. */
  lemma FairOverAtLeastOne(lam: real, line: real, exp: real -> Positive)
    requires lam >= 0.0
    ensures ProbOver(lam, line, exp) <= 1.0
    ensures FairOddsFor(lam, line, exp).over.Some? ==> FairOddsFor(lam, line, exp).over.value >= 1.0
  {
    UnderSumNonNegative(lam, TermCount(line), exp);
    var p := ProbOver(lam, line, exp);
    if p > 0.0 {
      assert (1.0 / p) * p == 1.0;
    }
  }

  /** Mean 2 and line 1: the under-probability is e^-2 (1 + 2). */
  lemma WorkedExample(exp: real -> Positive)
    ensures ProbUnder(2.0, 1.0, exp) == 3.0 * exp(-2.0)
  {
    assert TermCount(1.0) == 2;
    assert Pow(2.0, 1) == 2.0;
  }
}
