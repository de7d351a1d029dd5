/**
 * The 14-period Relative Strength Index with Wilder's smoothing. The
 * functions give the value the loops of `CalculateRSI` compute; the lemmas
 * state what the Go code promises about it.
 */
module CspRsi {
  import opened Wrappers
  import opened Numeric

  /** Number of price changes averaged by the RSI. */
  const Period: nat := 14

  /** The price change into day `i`. */
  function Change(closes: seq<real>, i: nat): real
    requires 1 <= i < |closes|
  {
    closes[i] - closes[i - 1]
  }

  /** The gain part of a change: the change itself when it is positive. */
  function Gain(change: real): real { if change > 0.0 then change else 0.0 }

  /** The loss part of a change: its magnitude when it is not positive. */
  function Loss(change: real): real { if change > 0.0 then 0.0 else -change }

  /** Sum of the gains of the first `n` changes. */
  function GainSum(closes: seq<real>, n: nat): (r: real)
    requires n < |closes|
    ensures r >= 0.0
  {
    if n == 0 then 0.0 else GainSum(closes, n - 1) + Gain(Change(closes, n))
  }

  /** Sum of the losses of the first `n` changes. */
  function LossSum(closes: seq<real>, n: nat): (r: real)
    requires n < |closes|
    ensures r >= 0.0
  {
    if n == 0 then 0.0 else LossSum(closes, n - 1) + Loss(Change(closes, n))
  }

  /** The running average gain and average loss. */
  datatype Averages = Averages(gain: real, loss: real)

  /**
   * The averages after the change into day `k`: the plain mean of the first
   * 14 changes at `k == 14`, then one Wilder step (avg*13 + new)/14 per day.
   */
  function Smoothed(closes: seq<real>, k: nat): (r: Averages)
    requires Period <= k < |closes|
    ensures r.gain >= 0.0 && r.loss >= 0.0
    decreases k
  {
    if k == Period then
      Averages(GainSum(closes, Period) / 14.0, LossSum(closes, Period) / 14.0)
    else
      var prev := Smoothed(closes, k - 1);
      var change := Change(closes, k);
      if change > 0.0 then
        Averages((prev.gain * 13.0 + change) / 14.0,
                 (prev.loss * 13.0) / 14.0)
      else
        Averages((prev.gain * 13.0) / 14.0,
                 (prev.loss * 13.0 - change) / 14.0)
  }

  /** RSI from the final averages: 100 when there was no loss, else 100 - 100/(1 + RS). */
  function RsiOf(a: Averages): real
    requires a.gain >= 0.0 && a.loss >= 0.0
  {
    if a.loss == 0.0 then 100.0 else 100.0 - 100.0 / (1.0 + a.gain / a.loss)
  }

  /** The RSI of a closing-price series (oldest first); undefined below 15 closes. */
  function Rsi(closes: seq<real>): (r: Option<real>)
    ensures r.None? <==> |closes| < Period + 1
  {
    if |closes| < Period + 1 then None else Some(RsiOf(Smoothed(closes, |closes| - 1)))
  }

  /** Computes the RSI with the Go code's two loops and four accumulators. */
  method CalculateRSI(closes: seq<real>) returns (r: Option<real>)
    ensures r == Rsi(closes)
  {
    if |closes| < Period + 1 {
      return None;
    }
    var gainSum, lossSum := 0.0, 0.0;
    var i := 1;
    while i <= Period
      invariant 1 <= i <= Period + 1
      invariant gainSum == GainSum(closes, i - 1)
      invariant lossSum == LossSum(closes, i - 1)
    {
      var change := closes[i] - closes[i - 1];
      if change > 0.0 {
        gainSum := gainSum + change;
      } else {
        lossSum := lossSum - change;
      }
      i := i + 1;
    }
    var avgGain := gainSum / 14.0;
    var avgLoss := lossSum / 14.0;
    i := Period + 1;
    while i < |closes|
      invariant Period + 1 <= i <= |closes|
      invariant Averages(avgGain, avgLoss) == Smoothed(closes, i - 1)
      invariant avgGain >= 0.0 && avgLoss >= 0.0
    {
      var change := closes[i] - closes[i - 1];
      if change > 0.0 {
        avgGain := (avgGain * 13.0 + change) / 14.0;
        avgLoss := (avgLoss * 13.0) / 14.0;
      } else {
        avgGain := (avgGain * 13.0) / 14.0;
        avgLoss := (avgLoss * 13.0 - change) / 14.0;
      }
      i := i + 1;
    }
    if avgLoss == 0.0 {
      return Some(100.0);
    }
    var rs := avgGain / avgLoss;
    r := Some(100.0 - 100.0 / (1.0 + rs));
  }

  /** With non-negative averages and some loss, RSI is 100 * gain / (gain + loss). */
  lemma RsiOfRatio(a: Averages)
    requires a.gain >= 0.0 && a.loss > 0.0
    ensures RsiOf(a) == 100.0 * a.gain / (a.gain + a.loss)
    ensures 0.0 <= RsiOf(a) < 100.0
  {
    var rs := a.gain / a.loss;
    QuotTimes(a.gain, a.loss);
    SignOfFactor(rs, a.loss);
    assert (1.0 + rs) * a.loss == a.loss + a.gain;
    var p := 100.0 / (1.0 + rs);
    QuotTimes(100.0, 1.0 + rs);
    assert p * (a.gain + a.loss) == 100.0 * a.loss by {
      assert p * (a.gain + a.loss) == p * ((1.0 + rs) * a.loss);
      assert p * ((1.0 + rs) * a.loss) == (p * (1.0 + rs)) * a.loss;
    }
    QuotTimes(100.0 * a.gain, a.gain + a.loss);
    assert (100.0 - p) * (a.gain + a.loss) == 100.0 * a.gain;
    var q := a.gain / (a.gain + a.loss);
    QuotTimes(a.gain, a.gain + a.loss);
    SignOfFactor(q, a.gain + a.loss);
    assert (1.0 - q) * (a.gain + a.loss) == a.loss;
    SignOfFactor(1.0 - q, a.gain + a.loss);
    assert q != 1.0;
  }

  /** A defined RSI lies in [0, 100]; it is exactly 100 when the final average loss is 0. */
  lemma RsiInRange(closes: seq<real>)
    requires |closes| >= Period + 1
    ensures Rsi(closes).Some?
    ensures 0.0 <= Rsi(closes).value <= 100.0
    ensures Smoothed(closes, |closes| - 1).loss == 0.0 ==> Rsi(closes).value == 100.0
  {
    var a := Smoothed(closes, |closes| - 1);
    if a.loss != 0.0 {
      RsiOfRatio(a);
    }
  }

  /** A series that never falls or stays flat has no loss, so once defined its RSI is 100. */
  lemma {:induction false} RisingLossFree(closes: seq<real>, k: nat)
    requires Period <= k < |closes|
    requires forall i :: 1 <= i < |closes| ==> closes[i - 1] < closes[i]
    ensures Smoothed(closes, k).loss == 0.0
    decreases k
  {
    if k == Period {
      LossSumZero(closes, Period);
    } else {
      RisingLossFree(closes, k - 1);
    }
  }

  /** Helper for `RisingLossFree`: strictly rising closes have no loss in the first `n` changes. */
  lemma {:induction false} LossSumZero(closes: seq<real>, n: nat)
    requires n < |closes|
    requires forall i :: 1 <= i < |closes| ==> closes[i - 1] < closes[i]
    ensures LossSum(closes, n) == 0.0
  {
    if n > 0 {
      LossSumZero(closes, n - 1);
    }
  }

  /** A strictly rising series of at least 15 closes has RSI 100. */
  lemma RisingSeriesRsi(closes: seq<real>)
    requires |closes| >= Period + 1
    requires forall i :: 1 <= i < |closes| ==> closes[i - 1] < closes[i]
    ensures Rsi(closes) == Some(100.0)
  {
    RisingLossFree(closes, |closes| - 1);
  }

  /** A strictly falling series of at least 15 closes has RSI 0. */
  lemma FallingSeriesRsi(closes: seq<real>)
    requires |closes| >= Period + 1
    requires forall i :: 1 <= i < |closes| ==> closes[i - 1] > closes[i]
    ensures Rsi(closes) == Some(0.0)
  {
    var k := |closes| - 1;
    FallingGainFree(closes, k);
    FallingHasLoss(closes, k);
    var a := Smoothed(closes, k);
    RsiOfRatio(a);
  }

  /** Helper for `FallingSeriesRsi`: strictly falling closes accumulate no gain. */
  lemma {:induction false} FallingGainFree(closes: seq<real>, k: nat)
    requires Period <= k < |closes|
    requires forall i :: 1 <= i < |closes| ==> closes[i - 1] > closes[i]
    ensures Smoothed(closes, k).gain == 0.0
    decreases k
  {
    if k == Period {
      GainSumZero(closes, Period);
    } else {
      FallingGainFree(closes, k - 1);
    }
  }

  /** Helper for `FallingGainFree`: strictly falling closes have no gain in the first `n` changes. */
  lemma {:induction false} GainSumZero(closes: seq<real>, n: nat)
    requires n < |closes|
    requires forall i :: 1 <= i < |closes| ==> closes[i - 1] > closes[i]
    ensures GainSum(closes, n) == 0.0
  {
    if n > 0 {
      GainSumZero(closes, n - 1);
    }
  }

  /** Helper for `FallingSeriesRsi`: strictly falling closes keep the average loss positive. */
  lemma {:induction false} FallingHasLoss(closes: seq<real>, k: nat)
    requires Period <= k < |closes|
    requires forall i :: 1 <= i < |closes| ==> closes[i - 1] > closes[i]
    ensures Smoothed(closes, k).loss > 0.0
    decreases k
  {
    if k == Period {
      assert LossSum(closes, Period) >= LossSum(closes, 1) by {
        LossSumGrows(closes, 1, Period);
      }
    } else {
      FallingHasLoss(closes, k - 1);
      MulNonneg(Smoothed(closes, k - 1).loss, 13.0);
      assert Smoothed(closes, k - 1).loss * 13.0 > 0.0;
    }
  }

  /** Helper for `FallingHasLoss`: the loss sum never shrinks as changes are added. */
  lemma {:induction false} LossSumGrows(closes: seq<real>, m: nat, n: nat)
    requires m <= n < |closes|
    ensures LossSum(closes, m) <= LossSum(closes, n)
    decreases n - m
  {
    if m < n {
      LossSumGrows(closes, m, n - 1);
    }
  }

  /** Wilder's textbook 15-close example gives an RSI within [60, 80]. */
  lemma WilderExample()
    ensures var closes := [44.0, 44.34, 44.09, 43.61, 44.33, 44.83, 45.10, 45.42, 45.84,
                           46.08, 45.89, 46.03, 45.61, 46.28, 46.28];
            Rsi(closes).Some? && 60.0 <= Rsi(closes).value <= 80.0
  {
    var closes := [44.0, 44.34, 44.09, 43.61, 44.33, 44.83, 45.10, 45.42, 45.84,
                   46.08, 45.89, 46.03, 45.61, 46.28, 46.28];
    assert GainSum(closes, 1) == 0.34 && LossSum(closes, 1) == 0.0;
    assert GainSum(closes, 2) == 0.34 && LossSum(closes, 2) == 0.25;
    assert GainSum(closes, 3) == 0.34 && LossSum(closes, 3) == 0.73;
    assert GainSum(closes, 4) == 1.06 && LossSum(closes, 4) == 0.73;
    assert GainSum(closes, 5) == 1.56 && LossSum(closes, 5) == 0.73;
    assert GainSum(closes, 6) == 1.83 && LossSum(closes, 6) == 0.73;
    assert GainSum(closes, 7) == 2.15 && LossSum(closes, 7) == 0.73;
    assert GainSum(closes, 8) == 2.57 && LossSum(closes, 8) == 0.73;
    assert GainSum(closes, 9) == 2.81 && LossSum(closes, 9) == 0.73;
    assert GainSum(closes, 10) == 2.81 && LossSum(closes, 10) == 0.92;
    assert GainSum(closes, 11) == 2.95 && LossSum(closes, 11) == 0.92;
    assert GainSum(closes, 12) == 2.95 && LossSum(closes, 12) == 1.34;
    assert GainSum(closes, 13) == 3.62 && LossSum(closes, 13) == 1.34;
    assert GainSum(closes, 14) == 3.62 && LossSum(closes, 14) == 1.34;
    var a := Smoothed(closes, 14);
    RsiOfRatio(a);
  }
}
