/**
 * Shaping of the two Yahoo Finance responses after JSON decoding: the
 * options chain (error selection, first result, first expiry block) and the
 * daily chart (error selection, dropping null closes in order).
 */
module YahooParse {
  import opened Wrappers
  import opened CspContracts

  /** One decoded contract of an options block. */
  datatype RawOption = RawOption(
    contractSymbol: string,
    strike: real,
    currency: string,
    lastPrice: real,
    change: real,
    percentChange: real,
    volume: int,
    openInterest: int,
    bid: real,
    ask: real,
    expiration: int,
    impliedVolatility: real,
    inTheMoney: bool)

  /** The contracts of one expiration date. */
  datatype OptionsBlock = OptionsBlock(expirationDate: int, calls: seq<RawOption>, puts: seq<RawOption>)

  /** One result of the options endpoint. */
  datatype ChainResult = ChainResult(
    underlyingSymbol: string,
    expirationDates: seq<int>,
    regularMarketPrice: real,
    options: seq<OptionsBlock>)

  /** The error object both endpoints may return. */
  datatype ApiError = ApiError(code: string, description: string)

  /** The decoded options response; `error` is `None` when the field is null. */
  datatype OptionsResponse = OptionsResponse(result: seq<ChainResult>, error: Option<ApiError>)

  /** One quote indicator of the chart endpoint; a `None` close is a JSON null. */
  datatype ChartQuote = ChartQuote(close: seq<Option<real>>)

  /** One result of the chart endpoint. */
  datatype ChartResult = ChartResult(quote: seq<ChartQuote>)

  /** The decoded chart response. */
  datatype ChartResponse = ChartResponse(result: seq<ChartResult>, error: Option<ApiError>)

  /** The engine's contract for a raw one: the eight shared fields copied, delta left at 0. */
  function ToContract(raw: RawOption): OptionContract
  {
    OptionContract(raw.strike, raw.lastPrice, raw.bid, raw.ask, raw.volume, raw.openInterest,
                   raw.impliedVolatility, raw.expiration, 0.0)
  }

  /** Every raw contract converted, in order. */
  function Converted(raws: seq<RawOption>): (r: seq<OptionContract>)
    ensures |r| == |raws|
    ensures forall i :: 0 <= i < |raws| ==> r[i] == ToContract(raws[i])
  {
    if raws == [] then []
    else Converted(raws[..|raws| - 1]) + [ToContract(raws[|raws| - 1])]
  }

  /** What the options parser returns for a decoded response. */
  function ParsedOptions(resp: OptionsResponse): Result<OptionsData>
  {
    if resp.error.Some? then Err("yahoo API error: " + resp.error.value.description)
    else if |resp.result| == 0 then Err("no options data in response")
    else
      var r := resp.result[0];
      if |r.options| > 0 then
        Ok(OptionsData(r.regularMarketPrice, Converted(r.options[0].puts), Converted(r.options[0].calls),
                       r.expirationDates))
      else
        Ok(OptionsData(r.regularMarketPrice, [], [], r.expirationDates))
  }

  /** Converts a raw list with the Go code's append loop. */
  method ConvertAll(raws: seq<RawOption>) returns (cs: seq<OptionContract>)
    ensures cs == Converted(raws)
  {
    cs := [];
    var i := 0;
    while i < |raws|
      invariant 0 <= i <= |raws|
      invariant cs == Converted(raws[..i])
    {
      assert raws[..i + 1][..i] == raws[..i];
      cs := cs + [ToContract(raws[i])];
      i := i + 1;
    }
    assert raws[..|raws|] == raws;
  }

  /** Parses a decoded options response. */
  method ParseOptionsResponse(resp: OptionsResponse) returns (r: Result<OptionsData>)
    ensures r == ParsedOptions(resp)
  {
    if resp.error.Some? {
      return Err("yahoo API error: " + resp.error.value.description);
    }
    if |resp.result| == 0 {
      return Err("no options data in response");
    }
    var res := resp.result[0];
    var data := OptionsData(res.regularMarketPrice, [], [], res.expirationDates);
    if |res.options| > 0 {
      var opts := res.options[0];
      var puts := ConvertAll(opts.puts);
      var calls := ConvertAll(opts.calls);
      data := data.(puts := puts, calls := calls);
    }
    return Ok(data);
  }

  /**
   * The options parser's outcomes: the API error wins over an empty result;
   * otherwise price and dates come from the first result and the contracts,
   * count and order kept, from its first block only, with delta 0.
   */
  lemma ParsedOptionsSpec(resp: OptionsResponse)
    ensures resp.error.Some? ==>
      ParsedOptions(resp) == Err("yahoo API error: " + resp.error.value.description)
    ensures resp.error.None? && |resp.result| == 0 ==>
      ParsedOptions(resp) == Err("no options data in response")
    ensures ParsedOptions(resp).Ok? <==> resp.error.None? && |resp.result| > 0
    ensures ParsedOptions(resp).Ok? ==>
      var d := ParsedOptions(resp).value;
      var r := resp.result[0];
      d.underlyingPrice == r.regularMarketPrice && d.expirationDates == r.expirationDates &&
      (|r.options| == 0 ==> d.puts == [] && d.calls == []) &&
      (|r.options| > 0 ==>
         |d.puts| == |r.options[0].puts| && |d.calls| == |r.options[0].calls| &&
         (forall i :: 0 <= i < |d.puts| ==> d.puts[i] == ToContract(r.options[0].puts[i]) && d.puts[i].delta == 0.0) &&
         (forall i :: 0 <= i < |d.calls| ==> d.calls[i] == ToContract(r.options[0].calls[i]) && d.calls[i].delta == 0.0))
  {
  }

  /** The present values of a list with nulls, in order. */
  function NonNull(xs: seq<Option<real>>): seq<real>
  {
    if xs == [] then []
    else
      var init := NonNull(xs[..|xs| - 1]);
      if xs[|xs| - 1].Some? then init + [xs[|xs| - 1].value] else init
  }

  /** The number of nulls in a list. */
  function NullCount(xs: seq<Option<real>>): nat
  {
    if xs == [] then 0
    else NullCount(xs[..|xs| - 1]) + (if xs[|xs| - 1].None? then 1 else 0)
  }

  /** Dropping nulls removes exactly the nulls. */
  lemma {:induction false} NonNullLength(xs: seq<Option<real>>)
    ensures NullCount(xs) <= |xs|
    ensures |NonNull(xs)| == |xs| - NullCount(xs)
  {
    if xs != [] {
      NonNullLength(xs[..|xs| - 1]);
    }
  }

  /** Dropping nulls distributes over concatenation, so the kept values stay in input order. */
  lemma {:induction false} NonNullAppend(xs: seq<Option<real>>, ys: seq<Option<real>>)
    ensures NonNull(xs + ys) == NonNull(xs) + NonNull(ys)
  {
    if ys == [] {
      assert xs + ys == xs;
    } else {
      assert (xs + ys)[..|xs + ys| - 1] == xs + ys[..|ys| - 1];
      NonNullAppend(xs, ys[..|ys| - 1]);
    }
  }

  /** A value is kept exactly when it occurs as a non-null entry. */
  lemma {:induction false} NonNullMembers(xs: seq<Option<real>>)
    ensures forall v :: v in NonNull(xs) <==> Some(v) in xs
  {
    if xs != [] {
      var init := xs[..|xs| - 1];
      NonNullMembers(init);
      assert xs == init + [xs[|xs| - 1]];
    }
  }

  /** A non-null first or last entry is the first or last value kept. */
  lemma NonNullEnds(xs: seq<Option<real>>)
    ensures |xs| > 0 && xs[0].Some? ==> |NonNull(xs)| > 0 && NonNull(xs)[0] == xs[0].value
    ensures |xs| > 0 && xs[|xs| - 1].Some? ==>
      |NonNull(xs)| > 0 && NonNull(xs)[|NonNull(xs)| - 1] == xs[|xs| - 1].value
  {
    if |xs| > 0 && xs[0].Some? {
      assert xs == [xs[0]] + xs[1..];
      NonNullAppend([xs[0]], xs[1..]);
      assert NonNull([xs[0]]) == [xs[0].value] by {
        assert [xs[0]][..0] == [];
      }
    }
  }

  /** Twenty raw closes with one null give nineteen closes. */
  lemma TwentyWithOneNull(xs: seq<Option<real>>)
    requires |xs| == 20 && NullCount(xs) == 1
    ensures |NonNull(xs)| == 19
  {
    NonNullLength(xs);
  }

  /** What the chart parser returns for a decoded response. */
  function ParsedChart(resp: ChartResponse): Result<seq<real>>
  {
    if resp.error.Some? then Err("yahoo chart error: " + resp.error.value.description)
    else if |resp.result| == 0 then Err("no chart data in response")
    else if |resp.result[0].quote| == 0 then Err("no quote indicators in chart response")
    else Ok(NonNull(resp.result[0].quote[0].close))
  }

  /** Parses a decoded chart response, keeping the non-null closes of the first quote. */
  method ParseChartHistoryResponse(resp: ChartResponse) returns (r: Result<seq<real>>)
    ensures r == ParsedChart(resp)
  {
    if resp.error.Some? {
      return Err("yahoo chart error: " + resp.error.value.description);
    }
    if |resp.result| == 0 {
      return Err("no chart data in response");
    }
    var quotes := resp.result[0].quote;
    if |quotes| == 0 {
      return Err("no quote indicators in chart response");
    }
    var rawCloses := quotes[0].close;
    var closes: seq<real> := [];
    var i := 0;
    while i < |rawCloses|
      invariant 0 <= i <= |rawCloses|
      invariant closes == NonNull(rawCloses[..i])
    {
      assert rawCloses[..i + 1][..i] == rawCloses[..i];
      if rawCloses[i].Some? {
        closes := closes + [rawCloses[i].value];
      }
      i := i + 1;
    }
    assert rawCloses[..|rawCloses|] == rawCloses;
    return Ok(closes);
  }

  /** The chart parser's three errors, checked in the Go code's order, and its success case. */
  lemma ParsedChartSpec(resp: ChartResponse)
    ensures resp.error.Some? ==> ParsedChart(resp) == Err("yahoo chart error: " + resp.error.value.description)
    ensures resp.error.None? && |resp.result| == 0 ==> ParsedChart(resp) == Err("no chart data in response")
    ensures resp.error.None? && |resp.result| > 0 && |resp.result[0].quote| == 0 ==>
      ParsedChart(resp) == Err("no quote indicators in chart response")
    ensures ParsedChart(resp).Ok? <==>
      resp.error.None? && |resp.result| > 0 && |resp.result[0].quote| > 0
    ensures ParsedChart(resp).Ok? ==>
      var raw := resp.result[0].quote[0].close;
      |ParsedChart(resp).value| == |raw| - NullCount(raw) &&
      forall v :: v in ParsedChart(resp).value <==> Some(v) in raw
  {
    if resp.error.None? && |resp.result| > 0 && |resp.result[0].quote| > 0 {
      NonNullLength(resp.result[0].quote[0].close);
      NonNullMembers(resp.result[0].quote[0].close);
    }
  }
}
