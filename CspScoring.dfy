/**
 * The leaf calculators of the CSP engine: the three-point interpolator, the
 * five signal scorers built around it, IV rank and annualised premium yield.
 * Every float64 is a `real`; a NaN result is `None`.
 */
module CspScoring {
  import opened Wrappers
  import opened Numeric

  /** `math.Max(0, math.Min(100, score))`: the final safety net of every scorer. */
  function Clamp100(score: real): (r: real)
    ensures 0.0 <= r <= 100.0
    ensures 0.0 <= score <= 100.0 ==> r == score
    ensures score < 0.0 ==> r == 0.0
    ensures score > 100.0 ==> r == 100.0
  {
    if score > 100.0 then 100.0 else if score < 0.0 then 0.0 else score
  }

  /**
   * Piecewise-linear interpolation through (x0, y0), (x1, y1), (x2, y2),
   * constant beyond the outer points and clamped to [0, 100]. The divisions
   * only happen on a segment whose left end is strictly below `x`, so no
   * divisor can be zero.
   */
  function LinearInterp(x: real, x0: real, x1: real, x2: real, y0: real, y1: real, y2: real): (r: real)
    ensures 0.0 <= r <= 100.0
    ensures x <= x0 ==> r == Clamp100(y0)
    ensures x0 < x1 ==> (x == x1 ==> r == Clamp100(y1))
    ensures x0 < x1 <= x2 ==> (x > x2 ==> r == Clamp100(y2))
    ensures x0 < x1 < x2 && x == x2 ==> r == Clamp100(y2)
  {
    assert x0 < x1 ==> Segment(x1, x0, x1, y0, y1) == y1 by {
      if x0 < x1 { SegmentEnd(x0, x1, y0, y1); }
    }
    assert x1 < x2 ==> Segment(x2, x1, x2, y1, y2) == y2 by {
      if x1 < x2 { SegmentEnd(x1, x2, y1, y2); }
    }
    Clamp100(Unclamped(x, x0, x1, x2, y0, y1, y2))
  }

  /** The straight line from (a, ya) to (b, yb), evaluated at `x`. */
  function Segment(x: real, a: real, b: real, ya: real, yb: real): real
    requires a < b
  {
    ya + (x - a) / (b - a) * (yb - ya)
  }

  /** The interpolated value before the final clamp. */
  function Unclamped(x: real, x0: real, x1: real, x2: real, y0: real, y1: real, y2: real): real
  {
    if x <= x0 then y0
    else if x <= x1 then Segment(x, x0, x1, y0, y1)
    else if x <= x2 then Segment(x, x1, x2, y1, y2)
    else y2
  }

  /** A segment reaches its right end value at its right end. */
  lemma SegmentEnd(a: real, b: real, ya: real, yb: real)
    requires a < b
    ensures Segment(b, a, b, ya, yb) == yb
  {
    assert (b - a) / (b - a) == 1.0;
  }

  /** On a segment whose end values rise, the interpolated value stays between them. */
  lemma SegmentBetween(x: real, a: real, b: real, ya: real, yb: real)
    requires a < x <= b && ya <= yb
    ensures ya <= Segment(x, a, b, ya, yb) <= yb
  {
    var t := (x - a) / (b - a);
    QuotTimes(x - a, b - a);
    SignOfFactor(t, b - a);
    assert (1.0 - t) * (b - a) == b - x;
    SignOfFactor(1.0 - t, b - a);
    MulNonneg(t, yb - ya);
    MulNonneg(1.0 - t, yb - ya);
  }

  /** Within one segment the interpolated value does not fall as `x` grows. */
  lemma SegmentMonotone(x: real, x': real, a: real, b: real, ya: real, yb: real)
    requires a < x <= x' <= b && ya <= yb
    ensures Segment(x, a, b, ya, yb) <= Segment(x', a, b, ya, yb)
  {
    var t, t' := (x - a) / (b - a), (x' - a) / (b - a);
    QuotTimes(x - a, b - a);
    QuotTimes(x' - a, b - a);
    assert (t' - t) * (b - a) == x' - x;
    SignOfFactor(t' - t, b - a);
    MulNonneg(t' - t, yb - ya);
  }

  /** With increasing control points and non-decreasing scores the unclamped value lies in [y0, y2] and rises with `x`. */
  lemma UnclampedMonotone(x: real, x': real, x0: real, x1: real, x2: real, y0: real, y1: real, y2: real)
    requires x0 < x1 < x2 && y0 <= y1 <= y2 && x <= x'
    ensures Unclamped(x, x0, x1, x2, y0, y1, y2) <= Unclamped(x', x0, x1, x2, y0, y1, y2)
  {
    if x <= x0 {
      if x0 < x' <= x1 { SegmentBetween(x', x0, x1, y0, y1); }
      else if x1 < x' <= x2 { SegmentBetween(x', x1, x2, y1, y2); }
    } else if x <= x1 {
      if x' <= x1 { SegmentMonotone(x, x', x0, x1, y0, y1); }
      else {
        SegmentBetween(x, x0, x1, y0, y1);
        if x' <= x2 { SegmentBetween(x', x1, x2, y1, y2); }
      }
    } else if x <= x2 {
      if x' <= x2 { SegmentMonotone(x, x', x1, x2, y1, y2); }
      else { SegmentBetween(x, x1, x2, y1, y2); }
    }
  }

  /** `math.Min`/`math.Max` clamping keeps order. */
  lemma Clamp100Monotone(a: real, b: real)
    requires a <= b
    ensures Clamp100(a) <= Clamp100(b)
  {
  }

  /**
   * With increasing control points and non-decreasing scores the
   * interpolator is monotone non-decreasing in `x`.
   */
  lemma LinearInterpMonotone(x: real, x': real, x0: real, x1: real, x2: real, y0: real, y1: real, y2: real)
    requires x0 < x1 < x2 && y0 <= y1 <= y2 && x <= x'
    ensures LinearInterp(x, x0, x1, x2, y0, y1, y2) <= LinearInterp(x', x0, x1, x2, y0, y1, y2)
  {
    UnclampedMonotone(x, x', x0, x1, x2, y0, y1, y2);
    Clamp100Monotone(Unclamped(x, x0, x1, x2, y0, y1, y2), Unclamped(x', x0, x1, x2, y0, y1, y2));
  }

  /** VIX level: 15 -> 0, 20 -> 50, 30 -> 100. */
  function ScoreVIX(vix: real): (r: real)
    ensures 0.0 <= r <= 100.0
    ensures vix <= 15.0 ==> r == 0.0
    ensures vix == 20.0 ==> r == 50.0
    ensures vix == 25.0 ==> r == 75.0
    ensures vix >= 30.0 ==> r == 100.0
  {
    LinearInterp(vix, 15.0, 20.0, 30.0, 0.0, 50.0, 100.0)
  }

  /** IV rank: 0 -> 0, 50 -> 50, 100 -> 100, i.e. the identity clamped to [0, 100]. */
  function ScoreIVRank(ivRank: real): (r: real)
    ensures 0.0 <= ivRank <= 100.0 ==> r == ivRank
    ensures ivRank < 0.0 ==> r == 0.0
    ensures ivRank > 100.0 ==> r == 100.0
  {
    LinearInterp(ivRank, 0.0, 50.0, 100.0, 0.0, 50.0, 100.0)
  }

  /** RSI, inverted: 70 -> 0, 40 -> 50, 20 -> 100 (an overbought underlying scores low). */
  function ScoreRSI(rsi: real): (r: real)
    ensures 0.0 <= r <= 100.0
    ensures rsi >= 70.0 ==> r == 0.0
    ensures rsi == 40.0 ==> r == 50.0
    ensures rsi == 30.0 ==> r == 75.0
    ensures rsi <= 20.0 ==> r == 100.0
  {
    if rsi >= 70.0 then 0.0
    else if rsi <= 20.0 then 100.0
    else if rsi >= 40.0 then 50.0 - (rsi - 40.0) / (70.0 - 40.0) * 50.0
    else 100.0 - (rsi - 20.0) / (40.0 - 20.0) * 50.0
  }

  /** A higher RSI never gives a higher score. */
  lemma ScoreRSIMonotone(rsi: real, rsi': real)
    requires rsi <= rsi'
    ensures ScoreRSI(rsi') <= ScoreRSI(rsi)
  {
  }

  /** Put/call ratio: 0.5 -> 0, 1.0 -> 50, 1.5 -> 100. */
  function ScorePutCallRatio(pcr: real): (r: real)
    ensures 0.0 <= r <= 100.0
    ensures pcr <= 0.5 ==> r == 0.0
    ensures pcr == 1.0 ==> r == 50.0
    ensures pcr >= 1.5 ==> r == 100.0
  {
    LinearInterp(pcr, 0.5, 1.0, 1.5, 0.0, 50.0, 100.0)
  }

  /** Annualised premium yield in percent: 0 -> 0, 15 -> 50, 30 -> 100. */
  function ScorePremiumYield(annualizedYield: real): (r: real)
    ensures 0.0 <= r <= 100.0
    ensures annualizedYield <= 0.0 ==> r == 0.0
    ensures annualizedYield == 15.0 ==> r == 50.0
    ensures annualizedYield >= 30.0 ==> r == 100.0
  {
    LinearInterp(annualizedYield, 0.0, 15.0, 30.0, 0.0, 50.0, 100.0)
  }

  /** The scorers built on the interpolator reward a larger input with a score at least as large. */
  lemma InterpScorersMonotone(a: real, b: real)
    requires a <= b
    ensures ScoreVIX(a) <= ScoreVIX(b)
    ensures ScoreIVRank(a) <= ScoreIVRank(b)
    ensures ScorePutCallRatio(a) <= ScorePutCallRatio(b)
    ensures ScorePremiumYield(a) <= ScorePremiumYield(b)
  {
    LinearInterpMonotone(a, b, 15.0, 20.0, 30.0, 0.0, 50.0, 100.0);
    LinearInterpMonotone(a, b, 0.0, 50.0, 100.0, 0.0, 50.0, 100.0);
    LinearInterpMonotone(a, b, 0.5, 1.0, 1.5, 0.0, 50.0, 100.0);
    LinearInterpMonotone(a, b, 0.0, 15.0, 30.0, 0.0, 50.0, 100.0);
  }

  /**
   * IV rank in percent: where `current` lies within [low, high]. A zero range
   * makes the rank undefined (NaN in the Go code), never 0 or 100.
   */
  function CalculateIVRank(current: real, low52w: real, high52w: real): (r: Option<real>)
    ensures r.None? <==> high52w == low52w
    ensures r.Some? ==> r.value * (high52w - low52w) == (current - low52w) * 100.0
  {
    var range := high52w - low52w;
    if range == 0.0 then None else Some((current - low52w) / range * 100.0)
  }

  /** A current IV inside a non-degenerate range has a rank in [0, 100], 0 at the low end and 100 at the high end. */
  lemma IVRankInRange(current: real, low52w: real, high52w: real)
    requires low52w <= current <= high52w && low52w < high52w
    ensures CalculateIVRank(current, low52w, high52w).Some?
    ensures 0.0 <= CalculateIVRank(current, low52w, high52w).value <= 100.0
    ensures current == low52w ==> CalculateIVRank(current, low52w, high52w).value == 0.0
    ensures current == high52w ==> CalculateIVRank(current, low52w, high52w).value == 100.0
  {
    var v := CalculateIVRank(current, low52w, high52w).value;
    var range := high52w - low52w;
    assert v * range == (current - low52w) * 100.0;
    SignOfFactor(v, range);
    assert (100.0 - v) * range == (high52w - current) * 100.0;
    SignOfFactor(100.0 - v, range);
  }

  /** Any two ranks over the same degenerate range are undefined, whatever the current IV. */
  lemma IVRankDegenerate(current: real, level: real)
    ensures CalculateIVRank(current, level, level) == None
  {
  }

  /**
   * Annualised yield in percent of `premium` on `strike` over `dte` days. A
   * zero strike or zero DTE gives 0 instead of dividing by zero.
   */
  function CalculatePremiumYield(premium: real, strike: real, dte: int): (r: real)
    ensures strike == 0.0 || dte == 0 ==> r == 0.0
    ensures strike != 0.0 && dte != 0 ==> r * strike * (dte as real) == premium * 36500.0
    ensures premium >= 0.0 && strike > 0.0 && dte > 0 ==> r >= 0.0
  {
    if strike == 0.0 || dte == 0 then 0.0
    else YieldOf(premium, strike, dte)
  }

  /** Helper for `CalculatePremiumYield`: the annualising product (premium/strike)*(365/dte)*100. */
  function YieldOf(premium: real, strike: real, dte: int): (r: real)
    requires strike != 0.0 && dte != 0
    ensures r * strike * (dte as real) == premium * 36500.0
    ensures premium >= 0.0 && strike > 0.0 && dte > 0 ==> r >= 0.0
  {
    var p := premium / strike;
    var a := 365.0 / (dte as real);
    assert p * strike == premium;
    assert a * (dte as real) == 365.0;
    assert (p * a * 100.0) * strike * (dte as real) == (p * strike) * (a * (dte as real)) * 100.0;
    p * a * 100.0
  }
}
