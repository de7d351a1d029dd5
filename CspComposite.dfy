/**
 * The composite CSP score: five sub-scores, a weighted mean that drops
 * undefined sub-scores from numerator and denominator, and the three-way label.
 */
module CspComposite {
  import opened Wrappers
  import opened CspScoring
  import opened CspRsi

  // Signal weights; they add up to 1.
  const WeightVIX: real := 0.20
  const WeightIVRank: real := 0.25
  const WeightRSI: real := 0.20
  const WeightPutCallRatio: real := 0.15
  const WeightPremiumYield: real := 0.20

  /** Raw data for one ticker at one point in time. */
  datatype SignalInput = SignalInput(
    vix: real,
    currentIV: real,
    ivHigh52w: real,
    ivLow52w: real,
    closingPrices: seq<real>,
    totalPutVolume: real,
    totalCallVolume: real,
    putPremium: real,
    strikePrice: real,
    dte: int)

  /** The three labels. */
  datatype Signal = Strong | Moderate | Weak

  /** Sub-scores, raw values, composite and label; `None` is the Go code's NaN. */
  datatype SignalOutput = SignalOutput(
    vixScore: real,
    ivRankScore: Option<real>,
    rsiScore: Option<real>,
    putCallRatioScore: real,
    premiumYieldScore: real,
    compositeScore: real,
    rawVix: real,
    rawIVRank: Option<real>,
    rawRsi: Option<real>,
    rawPutCallRatio: real,
    rawPremiumYield: real,
    signal: Signal)

  /** One weighted entry of the composite. */
  datatype WeightedSignal = WeightedSignal(weight: real, score: Option<real>)

  /** The weight an entry adds to the total: its own when its score is defined, else 0. */
  function UsedWeight(w: WeightedSignal): real
  {
    if w.score.Some? then w.weight else 0.0
  }

  /** What an entry adds to the weighted sum: weight * score when defined, else 0. */
  function Contribution(w: WeightedSignal): real
  {
    if w.score.Some? then w.weight * w.score.value else 0.0
  }

  /** Sum of the weights of the defined scores. */
  function TotalWeight(ws: seq<WeightedSignal>): real
  {
    if ws == [] then 0.0 else TotalWeight(ws[..|ws| - 1]) + UsedWeight(ws[|ws| - 1])
  }

  /** Sum of weight * score over the defined scores. */
  function WeightedSum(ws: seq<WeightedSignal>): real
  {
    if ws == [] then 0.0 else WeightedSum(ws[..|ws| - 1]) + Contribution(ws[|ws| - 1])
  }

  /** The re-weighted mean, or 0 when no weight is used. */
  function Composite(ws: seq<WeightedSignal>): real
  {
    if TotalWeight(ws) > 0.0 then WeightedSum(ws) / TotalWeight(ws) else 0.0
  }

  /** Entries with non-negative weights and scores in [0, 100]. */
  predicate WellFormed(ws: seq<WeightedSignal>)
  {
    forall i :: 0 <= i < |ws| ==>
      ws[i].weight >= 0.0 && (ws[i].score.Some? ==> 0.0 <= ws[i].score.value <= 100.0)
  }

  /** Helper for `CompositeInRange`: 0 <= the weighted sum <= 100 * the used weight. */
  lemma {:induction false} WeightedSumBounds(ws: seq<WeightedSignal>)
    requires WellFormed(ws)
    ensures 0.0 <= TotalWeight(ws)
    ensures 0.0 <= WeightedSum(ws) <= 100.0 * TotalWeight(ws)
  {
    if ws != [] {
      var init := ws[..|ws| - 1];
      assert WellFormed(init) by {
        forall i | 0 <= i < |init| ensures init[i] == ws[i] { }
      }
      WeightedSumBounds(init);
      ContributionBounds(ws[|ws| - 1]);
    }
  }

  /** Helper for `WeightedSumBounds`: a well-formed entry adds between 0 and 100 times its used weight. */
  lemma ContributionBounds(w: WeightedSignal)
    requires w.weight >= 0.0 && (w.score.Some? ==> 0.0 <= w.score.value <= 100.0)
    ensures 0.0 <= UsedWeight(w)
    ensures 0.0 <= Contribution(w) <= 100.0 * UsedWeight(w)
  {
    if w.score.Some? {
      var a, v := w.weight, w.score.value;
      Numeric.MulNonneg(a, v);
      Numeric.MulNonneg(a, 100.0 - v);
      assert a * (100.0 - v) == 100.0 * a - a * v;
    }
  }

  /** A weighted mean of scores in [0, 100] lies in [0, 100]. */
  lemma CompositeInRange(ws: seq<WeightedSignal>)
    requires WellFormed(ws)
    ensures 0.0 <= Composite(ws) <= 100.0
  {
    WeightedSumBounds(ws);
    var t := TotalWeight(ws);
    if t > 0.0 {
      var c := WeightedSum(ws) / t;
      Numeric.QuotTimes(WeightedSum(ws), t);
      Numeric.SignOfFactor(c, t);
      assert (100.0 - c) * t == 100.0 * t - WeightedSum(ws);
      Numeric.SignOfFactor(100.0 - c, t);
    }
  }

  /** The label: STRONG above 70, MODERATE from 50 to 70, WEAK below 50. */
  function Classify(composite: real): (s: Signal)
    ensures s == Strong <==> composite > 70.0
    ensures s == Moderate <==> 50.0 <= composite <= 70.0
    ensures s == Weak <==> composite < 50.0
  {
    if composite > 70.0 then Strong
    else if composite >= 50.0 then Moderate
    else Weak
  }

  /** The text the Go code stores for a label. */
  function SignalName(s: Signal): string
  {
    match s
    case Strong => "STRONG"
    case Moderate => "MODERATE"
    case Weak => "WEAK"
  }

  /** Put volume over call volume, 0 when there is no call volume. */
  function PutCallRatio(putVolume: real, callVolume: real): (r: real)
    ensures callVolume > 0.0 ==> r * callVolume == putVolume
    ensures callVolume <= 0.0 ==> r == 0.0
  {
    if callVolume > 0.0 then putVolume / callVolume else 0.0
  }

  /** A score that is undefined exactly when its raw value is. */
  function ScoreDefined(raw: Option<real>, score: real -> real): (r: Option<real>)
    ensures r.None? <==> raw.None?
    ensures raw.Some? ==> r == Some(score(raw.value))
  {
    match raw
    case None => None
    case Some(v) => Some(score(v))
  }

  /** The five weighted sub-scores in the Go code's order: VIX, IV rank, RSI, put/call ratio, premium yield. */
  function SignalsOf(out: SignalOutput): seq<WeightedSignal>
  {
    [ WeightedSignal(WeightVIX, Some(out.vixScore)),
      WeightedSignal(WeightIVRank, out.ivRankScore),
      WeightedSignal(WeightRSI, out.rsiScore),
      WeightedSignal(WeightPutCallRatio, Some(out.putCallRatioScore)),
      WeightedSignal(WeightPremiumYield, Some(out.premiumYieldScore)) ]
  }

  /** The engine's output for one input, metric by metric, score by score. */
  function Signals(input: SignalInput): SignalOutput
  {
    var ivRank := CalculateIVRank(input.currentIV, input.ivLow52w, input.ivHigh52w);
    var rsi := Rsi(input.closingPrices);
    var pcr := PutCallRatio(input.totalPutVolume, input.totalCallVolume);
    var premYield := CalculatePremiumYield(input.putPremium, input.strikePrice, input.dte);
    var out := SignalOutput(ScoreVIX(input.vix), ScoreDefined(ivRank, ScoreIVRank), ScoreDefined(rsi, ScoreRSI),
                            ScorePutCallRatio(pcr), ScorePremiumYield(premYield), 0.0,
                            input.vix, ivRank, rsi, pcr, premYield, Weak);
    var composite := Composite(SignalsOf(out));
    out.(compositeScore := composite, signal := Classify(composite))
  }

  /**
   * Computes raw metrics, sub-scores, the re-weighted composite and the label.
   * The IV-rank and RSI scores are undefined exactly when their raw values
   * are; the composite is the weighted mean of the defined scores.
   */
  method ComputeSignals(input: SignalInput) returns (out: SignalOutput)
    ensures out.rawVix == input.vix
    ensures out.rawIVRank == CalculateIVRank(input.currentIV, input.ivLow52w, input.ivHigh52w)
    ensures out.rawRsi == Rsi(input.closingPrices)
    ensures out.rawPutCallRatio == PutCallRatio(input.totalPutVolume, input.totalCallVolume)
    ensures out.rawPremiumYield == CalculatePremiumYield(input.putPremium, input.strikePrice, input.dte)
    ensures out.vixScore == ScoreVIX(input.vix)
    ensures out.ivRankScore == ScoreDefined(out.rawIVRank, ScoreIVRank)
    ensures out.rsiScore == ScoreDefined(out.rawRsi, ScoreRSI)
    ensures out.putCallRatioScore == ScorePutCallRatio(out.rawPutCallRatio)
    ensures out.premiumYieldScore == ScorePremiumYield(out.rawPremiumYield)
    ensures out.compositeScore == Composite(SignalsOf(out))
    ensures 0.0 <= out.compositeScore <= 100.0
    ensures out.signal == Classify(out.compositeScore)
    ensures out == Signals(input)
  {
    var ivRank := CalculateIVRank(input.currentIV, input.ivLow52w, input.ivHigh52w);
    var rsi := CalculateRSI(input.closingPrices);
    var pcr := 0.0;
    if input.totalCallVolume > 0.0 {
      pcr := input.totalPutVolume / input.totalCallVolume;
    }
    var premYield := CalculatePremiumYield(input.putPremium, input.strikePrice, input.dte);

    var vixScore := ScoreVIX(input.vix);
    var ivRankScore: Option<real> := None;
    if ivRank.Some? {
      ivRankScore := Some(ScoreIVRank(ivRank.value));
    }
    var rsiScore: Option<real> := None;
    if rsi.Some? {
      rsiScore := Some(ScoreRSI(rsi.value));
    }
    var pcrScore := ScorePutCallRatio(pcr);
    var premScore := ScorePremiumYield(premYield);

    var signals := [
      WeightedSignal(WeightVIX, Some(vixScore)),
      WeightedSignal(WeightIVRank, ivRankScore),
      WeightedSignal(WeightRSI, rsiScore),
      WeightedSignal(WeightPutCallRatio, Some(pcrScore)),
      WeightedSignal(WeightPremiumYield, Some(premScore)) ];

    var composite := CombineSignals(signals);
    out := SignalOutput(vixScore, ivRankScore, rsiScore, pcrScore, premScore, composite,
                        input.vix, ivRank, rsi, pcr, premYield, Classify(composite));
    assert SignalsOf(out) == signals;
    assert WellFormed(signals);
    CompositeInRange(signals);
  }

  /** The weighted-mean loop of the composite: skips undefined scores, divides only by a positive weight. */
  method CombineSignals(signals: seq<WeightedSignal>) returns (composite: real)
    ensures composite == Composite(signals)
  {
    var totalWeight, weightedSum := 0.0, 0.0;
    var i := 0;
    while i < |signals|
      invariant 0 <= i <= |signals|
      invariant totalWeight == TotalWeight(signals[..i])
      invariant weightedSum == WeightedSum(signals[..i])
    {
      var s := signals[i];
      assert signals[..i + 1][..i] == signals[..i];
      i := i + 1;
      if s.score.None? {
        continue;
      }
      totalWeight := totalWeight + s.weight;
      weightedSum := weightedSum + s.weight * s.score.value;
    }
    assert signals[..|signals|] == signals;
    composite := 0.0;
    if totalWeight > 0.0 {
      composite := weightedSum / totalWeight;
    }
  }

  /** With every sub-score defined the composite is the plain weighted sum, as the weights add up to 1. */
  lemma AllDefinedComposite(vix: real, iv: real, rsi: real, pcr: real, py: real)
    ensures var ws := [ WeightedSignal(WeightVIX, Some(vix)), WeightedSignal(WeightIVRank, Some(iv)),
                        WeightedSignal(WeightRSI, Some(rsi)), WeightedSignal(WeightPutCallRatio, Some(pcr)),
                        WeightedSignal(WeightPremiumYield, Some(py)) ];
            Composite(ws) == 0.20 * vix + 0.25 * iv + 0.20 * rsi + 0.15 * pcr + 0.20 * py
  {
    var ws := [ WeightedSignal(WeightVIX, Some(vix)), WeightedSignal(WeightIVRank, Some(iv)),
                WeightedSignal(WeightRSI, Some(rsi)), WeightedSignal(WeightPutCallRatio, Some(pcr)),
                WeightedSignal(WeightPremiumYield, Some(py)) ];
    SumsOfFive(ws);
  }

  /** With the IV rank undefined its weight drops out: the other four are re-weighted over 0.75. */
  lemma IVRankUndefinedComposite(vix: real, rsi: real, pcr: real, py: real)
    ensures var ws := [ WeightedSignal(WeightVIX, Some(vix)), WeightedSignal(WeightIVRank, None),
                        WeightedSignal(WeightRSI, Some(rsi)), WeightedSignal(WeightPutCallRatio, Some(pcr)),
                        WeightedSignal(WeightPremiumYield, Some(py)) ];
            Composite(ws) == (0.20 * vix + 0.20 * rsi + 0.15 * pcr + 0.20 * py) / 0.75
  {
    var ws := [ WeightedSignal(WeightVIX, Some(vix)), WeightedSignal(WeightIVRank, None),
                WeightedSignal(WeightRSI, Some(rsi)), WeightedSignal(WeightPutCallRatio, Some(pcr)),
                WeightedSignal(WeightPremiumYield, Some(py)) ];
    SumsOfFive(ws);
  }

  /** Helper: the sums of a five-entry list, written out. */
  lemma SumsOfFive(ws: seq<WeightedSignal>)
    requires |ws| == 5
    ensures TotalWeight(ws) == TotalWeight([ws[0]]) + TotalWeight([ws[1]]) + TotalWeight([ws[2]])
                               + TotalWeight([ws[3]]) + TotalWeight([ws[4]])
    ensures WeightedSum(ws) == WeightedSum([ws[0]]) + WeightedSum([ws[1]]) + WeightedSum([ws[2]])
                               + WeightedSum([ws[3]]) + WeightedSum([ws[4]])
  {
    assert ws[..4][..3] == ws[..3];
    assert ws[..3][..2] == ws[..2];
    assert ws[..2][..1] == ws[..1];
  }

  /** No defined score, no weight: the composite falls back to 0 and the label is WEAK. */
  lemma AllUndefinedFallback(ws: seq<WeightedSignal>)
    requires forall i :: 0 <= i < |ws| ==> ws[i].score.None?
    ensures Composite(ws) == 0.0 && Classify(Composite(ws)) == Weak
  {
    NoWeightUsed(ws);
  }

  /**
   * A quiet market scores 0 and is labelled WEAK: degenerate IV range, no
   * usable RSI (too few closes, or an RSI of 70 or more), VIX at most 15,
   * put/call ratio at most 0.5 and no premium. The IV rank drops out, every
   * remaining score is 0, and the re-weighted mean is 0.
   */
  lemma QuietMarketIsWeak(input: SignalInput)
    requires input.ivHigh52w == input.ivLow52w
    requires Rsi(input.closingPrices).None? || Rsi(input.closingPrices).value >= 70.0
    requires input.vix <= 15.0
    requires PutCallRatio(input.totalPutVolume, input.totalCallVolume) <= 0.5
    requires input.putPremium == 0.0
    ensures Signals(input).ivRankScore.None?
    ensures Signals(input).compositeScore == 0.0
    ensures Signals(input).signal == Weak
  {
    var out := Signals(input);
    ZeroPremiumYield(input.strikePrice, input.dte);
    var ws := SignalsOf(out);
    SumsOfFive(ws);
    assert WeightedSum(ws) == 0.0;
    assert TotalWeight(ws) >= 0.55;
  }

  /** Helper for `QuietMarketIsWeak`: no premium, no yield. */
  lemma ZeroPremiumYield(strike: real, dte: int)
    ensures CalculatePremiumYield(0.0, strike, dte) == 0.0
  {
    if strike != 0.0 && dte != 0 {
      var r := CalculatePremiumYield(0.0, strike, dte);
      var d := strike * (dte as real);
      assert d != 0.0;
      assert r * d == 0.0;
    }
  }

  /** Helper for `AllUndefinedFallback`: undefined entries add no weight. */
  lemma {:induction false} NoWeightUsed(ws: seq<WeightedSignal>)
    requires forall i :: 0 <= i < |ws| ==> ws[i].score.None?
    ensures TotalWeight(ws) == 0.0
  {
    if ws != [] {
      NoWeightUsed(ws[..|ws| - 1]);
    }
  }
}
