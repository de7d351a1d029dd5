/**
 * Assembly of the engine's input for one ticker in the CSP view: the IV
 * range, the put and call volume totals, the clamped days to expiry and the
 * mid premium of the target contract.
 */
module CspView {
  import opened Wrappers
  import opened Numeric
  import opened CspScoring
  import opened CspContracts
  import opened CspComposite

  /** The positive implied volatilities of the puts, in chain order. */
  function PositiveIVs(puts: seq<OptionContract>): (r: seq<real>)
    ensures forall x :: x in r <==> exists i :: 0 <= i < |puts| && puts[i].impliedVolatility == x && x > 0.0
  {
    if puts == [] then []
    else
      var init := PositiveIVs(puts[..|puts| - 1]);
      var last := puts[|puts| - 1];
      assert forall i :: 0 <= i < |puts| - 1 ==> puts[..|puts| - 1][i] == puts[i];
      if last.impliedVolatility > 0.0 then init + [last.impliedVolatility] else init
  }

  /** The running minimum of `start` and `xs`, updated element by element. */
  function RunningLow(start: real, xs: seq<real>): (r: real)
    ensures r <= start && forall i :: 0 <= i < |xs| ==> r <= xs[i]
    ensures r == start || exists i :: 0 <= i < |xs| && r == xs[i]
  {
    if xs == [] then start
    else
      var m := RunningLow(start, xs[..|xs| - 1]);
      assert forall i :: 0 <= i < |xs| - 1 ==> xs[..|xs| - 1][i] == xs[i];
      if xs[|xs| - 1] < m then xs[|xs| - 1] else m
  }

  /** The running maximum of `start` and `xs`, updated element by element. */
  function RunningHigh(start: real, xs: seq<real>): (r: real)
    ensures r >= start && forall i :: 0 <= i < |xs| ==> r >= xs[i]
    ensures r == start || exists i :: 0 <= i < |xs| && r == xs[i]
  {
    if xs == [] then start
    else
      var m := RunningHigh(start, xs[..|xs| - 1]);
      assert forall i :: 0 <= i < |xs| - 1 ==> xs[..|xs| - 1][i] == xs[i];
      if xs[|xs| - 1] > m then xs[|xs| - 1] else m
  }

  /** Total traded volume of a list of contracts, as a real. */
  function VolumeSum(cs: seq<OptionContract>): real
  {
    if cs == [] then 0.0 else VolumeSum(cs[..|cs| - 1]) + cs[|cs| - 1].volume as real
  }

  /** The volume total of two lists laid end to end is the sum of their totals. */
  lemma {:induction false} VolumeSumAppend(a: seq<OptionContract>, b: seq<OptionContract>)
    ensures VolumeSum(a + b) == VolumeSum(a) + VolumeSum(b)
  {
    if b != [] {
      assert (a + b)[..|a + b| - 1] == a + b[..|b| - 1];
      VolumeSumAppend(a, b[..|b| - 1]);
    } else {
      assert a + b == a;
    }
  }

  /** A chain whose volumes are all non-negative has a non-negative total. */
  lemma {:induction false} VolumeSumNonNegative(cs: seq<OptionContract>)
    requires forall i :: 0 <= i < |cs| ==> cs[i].volume >= 0
    ensures VolumeSum(cs) >= 0.0
  {
    if cs != [] {
      VolumeSumNonNegative(cs[..|cs| - 1]);
    }
  }

  /** Whole days to expiry, truncated toward zero, then clamped at 0. */
  function ViewDte(expiration: int, now: int): int
  {
    var dte := TruncDiv(expiration - now, Day);
    if dte < 0 then 0 else dte
  }

  /** The view's truncate-then-clamp day count agrees with the engine's `DaysUntil`. */
  lemma ViewDteIsDaysUntil(expiration: int, now: int)
    ensures ViewDte(expiration, now) == DaysUntil(expiration, now)
  {
    var t := TruncDiv(expiration - now, Day);
    if expiration - now < 0 {
      assert t <= 0;
    }
  }

  /** Collects the positive put IVs in chain order. */
  method CollectIVs(puts: seq<OptionContract>) returns (allIVs: seq<real>)
    ensures allIVs == PositiveIVs(puts)
  {
    allIVs := [];
    var i := 0;
    while i < |puts|
      invariant 0 <= i <= |puts|
      invariant allIVs == PositiveIVs(puts[..i])
    {
      assert puts[..i + 1][..i] == puts[..i];
      if puts[i].impliedVolatility > 0.0 {
        allIVs := allIVs + [puts[i].impliedVolatility];
      }
      i := i + 1;
    }
    assert puts[..|puts|] == puts;
  }

  /** Widens the range [currentIV, currentIV] over `allIVs`. */
  method IVRange(currentIV: real, allIVs: seq<real>) returns (ivLow52w: real, ivHigh52w: real)
    ensures ivLow52w == RunningLow(currentIV, allIVs)
    ensures ivHigh52w == RunningHigh(currentIV, allIVs)
  {
    ivLow52w := currentIV;
    ivHigh52w := currentIV;
    if |allIVs| > 0 {
      var j := 0;
      while j < |allIVs|
        invariant 0 <= j <= |allIVs|
        invariant ivLow52w == RunningLow(currentIV, allIVs[..j])
        invariant ivHigh52w == RunningHigh(currentIV, allIVs[..j])
      {
        assert allIVs[..j + 1][..j] == allIVs[..j];
        var iv := allIVs[j];
        if iv < ivLow52w {
          ivLow52w := iv;
        }
        if iv > ivHigh52w {
          ivHigh52w := iv;
        }
        j := j + 1;
      }
      assert allIVs[..|allIVs|] == allIVs;
    }
  }

  /** Adds up the volumes of a list of contracts (the put loop and the call loop). */
  method TotalVolume(cs: seq<OptionContract>) returns (total: real)
    ensures total == VolumeSum(cs)
  {
    total := 0.0;
    var k := 0;
    while k < |cs|
      invariant 0 <= k <= |cs|
      invariant total == VolumeSum(cs[..k])
    {
      assert cs[..k + 1][..k] == cs[..k];
      total := total + cs[k].volume as real;
      k := k + 1;
    }
    assert cs[..|cs|] == cs;
  }

  /**
   * Builds the engine input from the chain, the price history, the VIX
   * level and the selected target contract. The IV range starts at the
   * target's IV and widens over the positive put IVs.
   */
  method AssembleSignalInput(vix: real, chain: OptionsData, priceHistory: seq<real>,
                             target: OptionContract, now: int) returns (input: SignalInput)
    ensures input.vix == vix && input.closingPrices == priceHistory
    ensures input.currentIV == target.impliedVolatility
    ensures input.ivLow52w == RunningLow(target.impliedVolatility, PositiveIVs(chain.puts))
    ensures input.ivHigh52w == RunningHigh(target.impliedVolatility, PositiveIVs(chain.puts))
    ensures input.ivLow52w <= input.currentIV <= input.ivHigh52w
    ensures input.totalPutVolume == VolumeSum(chain.puts)
    ensures input.totalCallVolume == VolumeSum(chain.calls)
    ensures input.putPremium == Mid(target) && input.strikePrice == target.strike
    ensures input.dte == DaysUntil(target.expiration, now)
    ensures var rank := CalculateIVRank(input.currentIV, input.ivLow52w, input.ivHigh52w);
            rank.None? || 0.0 <= rank.value <= 100.0
  {
    var allIVs := CollectIVs(chain.puts);
    var currentIV := target.impliedVolatility;
    var ivLow52w, ivHigh52w := IVRange(currentIV, allIVs);
    var totalPutVolume := TotalVolume(chain.puts);
    var totalCallVolume := TotalVolume(chain.calls);

    var dte := TruncDiv(target.expiration - now, Day);
    if dte < 0 {
      dte := 0;
    }
    ViewDteIsDaysUntil(target.expiration, now);

    input := SignalInput(vix, currentIV, ivHigh52w, ivLow52w, priceHistory,
                         totalPutVolume, totalCallVolume, (target.bid + target.ask) / 2.0,
                         target.strike, dte);
    if ivLow52w < ivHigh52w {
      IVRankInRange(currentIV, ivLow52w, ivHigh52w);
    }
  }

  /** The IV range covers every positive put IV, and its ends are the target's IV or one of them. */
  lemma IVRangeBounds(current: real, puts: seq<OptionContract>)
    ensures var low := RunningLow(current, PositiveIVs(puts));
            var high := RunningHigh(current, PositiveIVs(puts));
            low <= current <= high &&
            (forall i :: 0 <= i < |puts| && puts[i].impliedVolatility > 0.0 ==>
               low <= puts[i].impliedVolatility <= high) &&
            (low == current || exists i :: 0 <= i < |puts| && puts[i].impliedVolatility == low && low > 0.0) &&
            (high == current || exists i :: 0 <= i < |puts| && puts[i].impliedVolatility == high && high > 0.0)
  {
    var ivs := PositiveIVs(puts);
    var low := RunningLow(current, ivs);
    var high := RunningHigh(current, ivs);
    forall i | 0 <= i < |puts| && puts[i].impliedVolatility > 0.0
      ensures low <= puts[i].impliedVolatility <= high
    {
      assert puts[i].impliedVolatility in ivs;
    }
    if low != current {
      var j :| 0 <= j < |ivs| && low == ivs[j];
      assert ivs[j] in ivs;
    }
    if high != current {
      var j :| 0 <= j < |ivs| && high == ivs[j];
      assert ivs[j] in ivs;
    }
  }
}
