/**
 * Option contracts, the put-delta guard, the liquidity/spread/delta filter
 * and the target-contract selector. "Now" is a parameter (unix seconds).
 */
module CspContracts {
  import opened Wrappers
  import opened Numeric
  import opened Subsequences

  /** One listed contract; `delta` is filled in by the filter. */
  datatype OptionContract = OptionContract(
    strike: real,
    lastPrice: real,
    bid: real,
    ask: real,
    volume: int,
    openInterest: int,
    impliedVolatility: real,
    expiration: int,
    delta: real)

  /** The parsed chain of one ticker. */
  datatype OptionsData = OptionsData(
    underlyingPrice: real,
    puts: seq<OptionContract>,
    calls: seq<OptionContract>,
    expirationDates: seq<int>)

  // Contract quality thresholds.
  const MinVolume: int := 10
  const MinOpenInterest: int := 10
  const MaxBidAskSpread: real := 0.15
  const MinBidPrice: real := 0.10
  const MaxDelta: real := -0.20
  const MinDelta: real := -0.50

  /** Seconds in a day. */
  const Day: int := 86400

  /**
   * The Black-Scholes closed form N(d1) - 1 of a put's delta, taking spot,
   * strike, IV and DTE. Its log/sqrt/erfc evaluation is not modelled; any
   * function whose values lie in [-1, 0] may stand for it.
   */
  type PutDeltaFormula = f: (real, real, real, int) -> real
    | forall s, k, iv, dte :: -1.0 <= f(s, k, iv, dte) <= 0.0
    witness (s: real, k: real, iv: real, dte: int) => 0.0

  /** Whole days from `now` until `expiration`, truncated, and 0 for a past expiration. */
  function DaysUntil(expiration: int, now: int): (d: int)
    ensures d >= 0
    ensures expiration <= now ==> d == 0
    ensures expiration >= now ==> d * Day <= expiration - now < d * Day + Day
  {
    if expiration - now < 0 then 0 else (expiration - now) / Day
  }

  /** Put delta for spot `s`, strike `k`, volatility `iv` and `dte` days; 0 on any non-positive input. */
  function CalculateDelta(s: real, k: real, iv: real, dte: int, formula: PutDeltaFormula): (d: real)
    ensures -1.0 <= d <= 0.0
    ensures iv <= 0.0 || dte <= 0 || s <= 0.0 || k <= 0.0 ==> d == 0.0
    ensures iv > 0.0 && dte > 0 && s > 0.0 && k > 0.0 ==> d == formula(s, k, iv, dte)
  {
    if iv <= 0.0 || dte <= 0 || s <= 0.0 || k <= 0.0 then 0.0 else formula(s, k, iv, dte)
  }

  /** Mid price (bid + ask) / 2. */
  function Mid(c: OptionContract): real { (c.bid + c.ask) / 2.0 }

  /** The volume, open-interest, bid, mid and spread checks, in the Go code's order. */
  predicate Liquid(c: OptionContract)
  {
    && c.volume >= MinVolume
    && c.openInterest >= MinOpenInterest
    && c.bid >= MinBidPrice
    && Mid(c) > 0.0
    && (c.ask - c.bid) / Mid(c) <= MaxBidAskSpread
  }

  /** The delta the filter computes for `c`. */
  function ContractDelta(c: OptionContract, spot: real, now: int, formula: PutDeltaFormula): real
  {
    CalculateDelta(spot, c.strike, c.impliedVolatility, DaysUntil(c.expiration, now), formula)
  }

  /** The conventional CSP delta band [-0.50, -0.20]. */
  predicate InDeltaBand(d: real) { MinDelta <= d <= MaxDelta }

  /** A contract the filter keeps. */
  predicate Survives(c: OptionContract, spot: real, now: int, formula: PutDeltaFormula)
  {
    Liquid(c) && InDeltaBand(ContractDelta(c, spot, now, formula))
  }

  /** Specification of `FilterContracts`: the survivors in order, each with its delta stored. */
  function Filtered(cs: seq<OptionContract>, spot: real, now: int, formula: PutDeltaFormula): seq<OptionContract>
  {
    if cs == [] then []
    else
      var c := cs[|cs| - 1];
      Filtered(cs[..|cs| - 1], spot, now, formula)
        + (if Survives(c, spot, now, formula) then [c.(delta := ContractDelta(c, spot, now, formula))] else [])
  }

  /** Applies the quality filters and stores each survivor's delta. */
  method FilterContracts(contracts: seq<OptionContract>, spot: real, now: int, formula: PutDeltaFormula)
    returns (result: seq<OptionContract>)
    ensures result == Filtered(contracts, spot, now, formula)
  {
    result := [];
    var i := 0;
    while i < |contracts|
      invariant 0 <= i <= |contracts|
      invariant result == Filtered(contracts[..i], spot, now, formula)
    {
      var c := contracts[i];
      assert contracts[..i + 1][..i] == contracts[..i];
      i := i + 1;
      if c.volume < MinVolume {
        continue;
      }
      if c.openInterest < MinOpenInterest {
        continue;
      }
      if c.bid < MinBidPrice {
        continue;
      }
      var mid := (c.bid + c.ask) / 2.0;
      if mid <= 0.0 {
        continue;
      }
      var spread := (c.ask - c.bid) / mid;
      if spread > MaxBidAskSpread {
        continue;
      }
      var dte := DaysUntil(c.expiration, now);
      var delta := CalculateDelta(spot, c.strike, c.impliedVolatility, dte, formula);
      if delta < MinDelta || delta > MaxDelta {
        continue;
      }
      result := result + [c.(delta := delta)];
    }
    assert contracts[..|contracts|] == contracts;
  }

  /** `a` is `b` with possibly another `delta`. */
  predicate SameButDelta(a: OptionContract, b: OptionContract) { a.(delta := b.delta) == b }

  /** `r` is an order-preserving subsequence of `s`, entries matched up to their `delta`. */
  predicate SubsequenceButDelta(r: seq<OptionContract>, s: seq<OptionContract>)
    decreases |s|
  {
    || r == []
    || (&& s != []
        && (|| (SameButDelta(r[|r| - 1], s[|s| - 1]) && SubsequenceButDelta(r[..|r| - 1], s[..|s| - 1]))
            || SubsequenceButDelta(r, s[..|s| - 1])))
  }

  /** The filter output is an order-preserving subsequence of its input and never longer. */
  lemma {:induction false} FilteredIsSubsequence(cs: seq<OptionContract>, spot: real, now: int, formula: PutDeltaFormula)
    ensures SubsequenceButDelta(Filtered(cs, spot, now, formula), cs)
    ensures |Filtered(cs, spot, now, formula)| <= |cs|
  {
    if cs != [] {
      var init := cs[..|cs| - 1];
      FilteredIsSubsequence(init, spot, now, formula);
      var c := cs[|cs| - 1];
      var r := Filtered(cs, spot, now, formula);
      assert cs[..|cs| - 1] == init;
      if Survives(c, spot, now, formula) {
        assert r[..|r| - 1] == Filtered(init, spot, now, formula);
        assert SameButDelta(r[|r| - 1], c);
      } else {
        assert r == Filtered(init, spot, now, formula);
      }
    }
  }

  /**
   * Exactly the surviving inputs come out, each with its computed delta: every
   * entry of the output passes all thresholds and carries its delta in the
   * band; every surviving input appears in the output.
   */
  lemma {:induction false} FilteredMembers(cs: seq<OptionContract>, spot: real, now: int, formula: PutDeltaFormula)
    ensures forall x :: x in Filtered(cs, spot, now, formula) ==>
      && x.volume >= MinVolume && x.openInterest >= MinOpenInterest && x.bid >= MinBidPrice
      && Mid(x) > 0.0 && (x.ask - x.bid) / Mid(x) <= MaxBidAskSpread
      && x.delta == ContractDelta(x, spot, now, formula) && MinDelta <= x.delta <= MaxDelta
    ensures forall x :: x in Filtered(cs, spot, now, formula) <==>
      exists c :: c in cs && Survives(c, spot, now, formula) && x == c.(delta := ContractDelta(c, spot, now, formula))
  {
    if cs != [] {
      FilteredMembers(cs[..|cs| - 1], spot, now, formula);
      assert cs == cs[..|cs| - 1] + [cs[|cs| - 1]];
    }
  }

  /** A contract with a non-positive IV, spot, strike or DTE has delta 0, outside the band, so it never survives. */
  lemma DegenerateNeverSurvives(c: OptionContract, spot: real, now: int, formula: PutDeltaFormula)
    requires c.impliedVolatility <= 0.0 || spot <= 0.0 || c.strike <= 0.0 || DaysUntil(c.expiration, now) <= 0
    ensures !Survives(c, spot, now, formula)
  {
  }

  /** Days from `now` to an expiry timestamp, as a fraction of days (not truncated). */
  function ExpiryDte(exp: int, now: int): real { (exp - now) as real / (Day as real) }

  /** An expiry whose DTE lies in the [21, 45] window. */
  predicate InWindow(exp: int, now: int) { 21.0 <= ExpiryDte(exp, now) <= 45.0 }

  /** Distance of an expiry's DTE from the 30-day target. */
  function ExpiryDist(exp: int, now: int): real { Abs(ExpiryDte(exp, now) - 30.0) }

  /**
   * Index of the expiry the first loop of `SelectTargetContract` settles on:
   * the first in-window date closest to 30 DTE, `None` when no date is in the window.
   */
  function BestExpiryIndex(dates: seq<int>, now: int): (r: Option<nat>)
    ensures r.None? <==> forall i :: 0 <= i < |dates| ==> !InWindow(dates[i], now)
    ensures r.Some? ==> r.value < |dates| && InWindow(dates[r.value], now)
    ensures r.Some? ==> forall i :: 0 <= i < |dates| && InWindow(dates[i], now) ==>
      ExpiryDist(dates[r.value], now) <= ExpiryDist(dates[i], now)
    ensures r.Some? ==> forall i :: 0 <= i < r.value && InWindow(dates[i], now) ==>
      ExpiryDist(dates[i], now) > ExpiryDist(dates[r.value], now)
  {
    if dates == [] then None
    else
      var last := |dates| - 1;
      var prev := BestExpiryIndex(dates[..last], now);
      if !InWindow(dates[last], now) then prev
      else if prev.None? || ExpiryDist(dates[last], now) < ExpiryDist(dates[prev.value], now) then Some(last)
      else prev
  }

  /** The `bestExpiry` the Go code ends its first loop with: the chosen date, or 0 when there is none. */
  function ChosenExpiry(dates: seq<int>, now: int): int
  {
    match BestExpiryIndex(dates, now)
    case None => 0
    case Some(k) => dates[k]
  }

  /** Puts of a given expiration, in chain order. */
  function ExpiryPuts(puts: seq<OptionContract>, exp: int): (r: seq<OptionContract>)
    ensures forall x :: x in r <==> x in puts && x.expiration == exp
  {
    if puts == [] then []
    else
      assert puts == puts[..|puts| - 1] + [puts[|puts| - 1]];
      ExpiryPuts(puts[..|puts| - 1], exp)
        + (if puts[|puts| - 1].expiration == exp then [puts[|puts| - 1]] else [])
  }

  /** The puts of the chosen expiration keep their chain order. */
  lemma {:induction false} ExpiryPutsInOrder(puts: seq<OptionContract>, exp: int)
    ensures IsSubsequence(ExpiryPuts(puts, exp), puts)
  {
    if puts != [] {
      var init := puts[..|puts| - 1];
      ExpiryPutsInOrder(init, exp);
      var r := ExpiryPuts(puts, exp);
      if puts[|puts| - 1].expiration == exp {
        assert r[..|r| - 1] == ExpiryPuts(init, exp);
      } else {
        assert r == ExpiryPuts(init, exp);
      }
    }
  }

  /** Distance of a strike from the spot price. */
  function StrikeDist(c: OptionContract, spot: real): real { Abs(c.strike - spot) }

  /** Index of the first contract whose strike is nearest the spot price. */
  function NearestIndex(cs: seq<OptionContract>, spot: real): (k: nat)
    requires cs != []
    ensures k < |cs|
    ensures forall j :: 0 <= j < |cs| ==> StrikeDist(cs[k], spot) <= StrikeDist(cs[j], spot)
    ensures forall j :: 0 <= j < k ==> StrikeDist(cs[j], spot) > StrikeDist(cs[k], spot)
  {
    if |cs| == 1 then 0
    else
      var last := |cs| - 1;
      var prev := NearestIndex(cs[..last], spot);
      if StrikeDist(cs[last], spot) < StrikeDist(cs[prev], spot) then last else prev
  }

  /** Specification of `SelectTargetContract`. */
  function SelectTarget(chain: OptionsData, now: int, formula: PutDeltaFormula): Option<OptionContract>
  {
    var exp := ChosenExpiry(chain.expirationDates, now);
    if exp == 0 then None
    else
      var survivors := Filtered(ExpiryPuts(chain.puts, exp), chain.underlyingPrice, now, formula);
      if survivors == [] then None
      else Some(survivors[NearestIndex(survivors, chain.underlyingPrice)])
  }

  /** The first loop of `SelectTargetContract`: the in-window expiry nearest 30 DTE, or 0. */
  method BestExpiry(dates: seq<int>, now: int) returns (bestExpiry: int)
    ensures bestExpiry == ChosenExpiry(dates, now)
  {
    bestExpiry := 0;
    var bestDist: Option<real> := None;
    ghost var bestIndex: Option<nat> := None;
    var i := 0;
    while i < |dates|
      invariant 0 <= i <= |dates|
      invariant bestIndex == BestExpiryIndex(dates[..i], now)
      invariant bestIndex.None? ==> bestExpiry == 0 && bestDist.None?
      invariant bestIndex.Some? ==>
                  (bestIndex.value < i && bestExpiry == dates[bestIndex.value]
                   && bestDist == Some(ExpiryDist(dates[bestIndex.value], now)))
    {
      var exp := dates[i];
      assert dates[..i + 1][..i] == dates[..i];
      i := i + 1;
      var dte := (exp - now) as real / (Day as real);
      if dte < 21.0 || dte > 45.0 {
        continue;
      }
      var dist := Abs(dte - 30.0);
      if bestDist.None? || dist < bestDist.value {
        bestDist := Some(dist);
        bestExpiry := exp;
        bestIndex := Some(i - 1);
      }
    }
    assert dates[..|dates|] == dates;
  }

  /** The second loop of `SelectTargetContract`: the puts of one expiry, in chain order. */
  method PutsForExpiry(puts: seq<OptionContract>, exp: int) returns (expiryPuts: seq<OptionContract>)
    ensures expiryPuts == ExpiryPuts(puts, exp)
  {
    expiryPuts := [];
    var j := 0;
    while j < |puts|
      invariant 0 <= j <= |puts|
      invariant expiryPuts == ExpiryPuts(puts[..j], exp)
    {
      assert puts[..j + 1][..j] == puts[..j];
      if puts[j].expiration == exp {
        expiryPuts := expiryPuts + [puts[j]];
      }
      j := j + 1;
    }
    assert puts[..|puts|] == puts;
  }

  /** The last loop of `SelectTargetContract`: the first survivor nearest the money. */
  method NearestAtm(filtered: seq<OptionContract>, spot: real) returns (m: nat)
    requires filtered != []
    ensures m == NearestIndex(filtered, spot)
  {
    var bestStrikeDist: Option<real> := None;
    var k := 0;
    m := 0;
    while k < |filtered|
      invariant 0 <= k <= |filtered|
      invariant k == 0 ==> bestStrikeDist.None?
      invariant k > 0 ==>
                  (m == NearestIndex(filtered[..k], spot)
                   && bestStrikeDist == Some(StrikeDist(filtered[m], spot)))
    {
      assert filtered[..k + 1][..k] == filtered[..k];
      var dist := Abs(filtered[k].strike - spot);
      if bestStrikeDist.None? || dist < bestStrikeDist.value {
        bestStrikeDist := Some(dist);
        m := k;
      }
      k := k + 1;
    }
    assert filtered[..|filtered|] == filtered;
  }

  /** Picks the expiry nearest 30 DTE in [21, 45], filters its puts and returns the one nearest the money. */
  method SelectTargetContract(chain: OptionsData, now: int, formula: PutDeltaFormula)
    returns (best: Option<OptionContract>)
    ensures best == SelectTarget(chain, now, formula)
  {
    var bestExpiry := BestExpiry(chain.expirationDates, now);
    if bestExpiry == 0 {
      return None;
    }
    var expiryPuts := PutsForExpiry(chain.puts, bestExpiry);
    var filtered := FilterContracts(expiryPuts, chain.underlyingPrice, now, formula);
    if |filtered| == 0 {
      return None;
    }
    var m := NearestAtm(filtered, chain.underlyingPrice);
    best := Some(filtered[m]);
  }

  /**
   * What the selector promises: no target exactly when no expiry is in the
   * window (or the chosen one is the 0 timestamp) or no put of the chosen
   * expiry survives the filter; otherwise the target has the chosen expiry,
   * survived the filter, is nearest the money among the survivors, and is the
   * first survivor attaining that distance.
   */
  lemma SelectTargetSpec(chain: OptionsData, now: int, formula: PutDeltaFormula)
    ensures var exp := ChosenExpiry(chain.expirationDates, now);
            var survivors := Filtered(ExpiryPuts(chain.puts, exp), chain.underlyingPrice, now, formula);
            var r := SelectTarget(chain, now, formula);
            && ((forall i :: 0 <= i < |chain.expirationDates| ==> !InWindow(chain.expirationDates[i], now)) ==> r.None?)
            && (r.None? <==> exp == 0 || survivors == [])
            && (r.Some? ==>
                 && r.value.expiration == exp
                 && exp in chain.expirationDates && InWindow(exp, now)
                 && r.value in survivors
                 && Survives(r.value, chain.underlyingPrice, now, formula)
                 && (forall x :: x in survivors ==>
                       StrikeDist(r.value, chain.underlyingPrice) <= StrikeDist(x, chain.underlyingPrice))
                 && exists k :: 0 <= k < |survivors| && survivors[k] == r.value
                      && forall j :: 0 <= j < k ==>
                           StrikeDist(survivors[j], chain.underlyingPrice) > StrikeDist(r.value, chain.underlyingPrice))
  {
    var exp := ChosenExpiry(chain.expirationDates, now);
    var survivors := Filtered(ExpiryPuts(chain.puts, exp), chain.underlyingPrice, now, formula);
    FilteredMembers(ExpiryPuts(chain.puts, exp), chain.underlyingPrice, now, formula);
    if exp != 0 && survivors != [] {
      var k := NearestIndex(survivors, chain.underlyingPrice);
      var c := survivors[k];
      assert c in survivors;
      var src :| src in ExpiryPuts(chain.puts, exp) && Survives(src, chain.underlyingPrice, now, formula)
        && c == src.(delta := ContractDelta(src, chain.underlyingPrice, now, formula));
      assert ContractDelta(c, chain.underlyingPrice, now, formula) == ContractDelta(src, chain.underlyingPrice, now, formula);
      forall x | x in survivors
        ensures StrikeDist(c, chain.underlyingPrice) <= StrikeDist(x, chain.underlyingPrice)
      {
        var j :| 0 <= j < |survivors| && survivors[j] == x;
      }
    }
  }
}
