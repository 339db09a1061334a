/** The step of a range query over the whole life of a cluster. */
module QueryStep {

  const METRICS_PERIOD := 15
  const MAX_POINTS := 11000

  /** Integer division as the source does it: towards zero. */
  function Quotient(a: int, b: int): int
    requires b > 0
  {
    if a >= 0 then a / b else -((-a) / b)
  }

  function MultipleOfPeriod(stepSeconds: int): int
    requires stepSeconds >= 0
  {
    if stepSeconds % METRICS_PERIOD != 0 then (stepSeconds / METRICS_PERIOD) * METRICS_PERIOD + METRICS_PERIOD
    else stepSeconds
  }

  function StepSeconds(start: int, end: int): int {
    var k := Quotient(end - start, MAX_POINTS);
    MultipleOfPeriod(if k <= 0 then METRICS_PERIOD else k)
  }

  /** Rounding gives the smallest multiple of the period that is not below the step. */
  lemma RoundsUpToPeriod(s: int)
    requires s >= 0
    ensures var r := MultipleOfPeriod(s);
            r % METRICS_PERIOD == 0 && s <= r < s + METRICS_PERIOD
  {
  }

  /** The step is the least multiple of the period of 15 seconds that is neither below one period nor
      below the raw step; the raw step is an eleven-thousandth of the range, rounded down. */
  lemma StepIsLeast(start: int, end: int)
    ensures var step := StepSeconds(start, end);
            && step % 15 == 0 && 15 <= step && (start <= end ==> (end - start) / 11000 <= step)
            && forall m | 15 <= m && m % 15 == 0 && (start <= end ==> (end - start) / 11000 <= m) :: step <= m
  {
    var k := Quotient(end - start, MAX_POINTS);
    RoundsUpToPeriod(if k <= 0 then METRICS_PERIOD else k);
    if start > end {
      assert (start - end) / MAX_POINTS >= 0;
    }
  }

  /** A range query has a point at the start and one after every whole step. */
  function Points(start: int, end: int): int
    requires start <= end && StepSeconds(start, end) > 0
  {
    (end - start) / StepSeconds(start, end) + 1
  }

  /** The query keeps the limit if and only if the raw step is not itself a positive multiple of the
      period; then it exceeds the limit by at least one point and at most `10999 / k + 1`, hence
      never has more than 11734 points. The step is always a positive multiple of the period. */
  lemma StepBoundsPoints(start: int, end: int)
    ensures StepSeconds(start, end) > 0 && StepSeconds(start, end) % METRICS_PERIOD == 0
    ensures start <= end ==>
              var k := (end - start) / MAX_POINTS;
              var points := Points(start, end);
              && (points <= MAX_POINTS <==> !(k > 0 && k % METRICS_PERIOD == 0))
              && (k > 0 && k % METRICS_PERIOD == 0 ==>
                    MAX_POINTS < points <= MAX_POINTS + 10999 / k + 1 <= 11734)
  {
    var d := end - start;
    var k := Quotient(d, MAX_POINTS);
    RoundsUpToPeriod(if k <= 0 then METRICS_PERIOD else k);
    if start <= end {
      var step := StepSeconds(start, end);
      if k > 0 && k % METRICS_PERIOD == 0 {
        AtTheLimit(d, k);
      } else {
        assert k < step;
        BelowTheLimit(d, k, step);
      }
    }
  }

  /** The limit is first exceeded after 165000 seconds, and the worst case is reached. */
  lemma LimitExceeded()
    ensures StepSeconds(0, 164999) == 15 && Points(0, 164999) == 11000
    ensures StepSeconds(0, 165000) == 15 && Points(0, 165000) == 11001
    ensures StepSeconds(0, 175999) == 15 && Points(0, 175999) == 11734
  {
  }

  lemma TimesMonotone(x: int, y: int, b: int)
    requires x <= y && b >= 0
    ensures x * b <= y * b
  {
  }

  lemma QuotientBetween(a: int, b: int, lo: int, hi: int)
    requires b > 0 && lo * b <= a < hi * b
    ensures lo <= a / b < hi
  {
    var q := a / b;
    assert q * b <= a < q * b + b;
    if q >= hi {
      TimesMonotone(hi, q, b);
    }
    if q + 1 <= lo {
      TimesMonotone(q + 1, lo, b);
    }
  }

  lemma BelowTheLimit(d: int, k: int, step: int)
    requires 0 <= d && k == d / MAX_POINTS && k < step
    ensures d / step < MAX_POINTS
  {
    assert d < MAX_POINTS * (k + 1);
    QuotientBetween(d, step, 0, MAX_POINTS);
  }

  lemma AtTheLimit(d: int, k: int)
    requires 0 <= d && k == d / MAX_POINTS && k > 0 && k % METRICS_PERIOD == 0
    ensures MAX_POINTS <= d / k <= MAX_POINTS + 10999 / k <= 11733
  {
    var e := 10999 / k;
    assert 10999 < e * k + k;
    assert d <= MAX_POINTS * k + 10999;
    assert (MAX_POINTS + e + 1) * k == MAX_POINTS * k + e * k + k;
    QuotientBetween(d, k, MAX_POINTS, MAX_POINTS + e + 1);
    assert k >= METRICS_PERIOD;
    QuotientBetween(10999, k, 0, 734);
  }
}
