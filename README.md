# Cash-secured-put scoring engine and portfolio helpers, in Dafny

This project models the logic core of a terminal portfolio tracker that
scores tickers for selling cash-secured puts (CSPs). It covers five parts:

- **Scoring engine** (`CspScoring`, `CspRsi`, `CspContracts`, `CspComposite`).
  It has a three-point piecewise-linear interpolator and five sub-scores: VIX,
  IV rank, RSI, put/call ratio and annualised premium yield. It also has
  Wilder-smoothed 14-period RSI and IV rank. The contract filter checks
  liquidity, bid/ask spread and a delta band. The target selector first picks
  the expiry in the 21–45-day window nearest to 30 days, then the put nearest
  at the money. The composite score is a weighted mean that re-weights around
  undefined sub-scores and maps to a STRONG / MODERATE / WEAK label.
- **Input assembly of the CSP view** (`CspView`). This covers the IV low/high
  range, the put and call volume totals, the clamped days to expiry and the
  mid premium of the target contract.
- **Yahoo Finance response shaping** (`YahooParse`). This runs on the
  already-decoded JSON of the options and chart endpoints.
- **Thousands-separator formatter** of the portfolio table (`Format`).
- **Portfolio helpers** (`Portfolio`). These build the per-ticker cap on a
  holding's price from short calls, sort the expiry timeline, compute the
  timeline's marker column and settle expired options.

Shared modules: `Wrappers` (`Option`, `Result`), `Numeric` (Go's integer and
float helpers) and `Subsequences` (the order-preserving subsequence relation
used by the filters that keep their input order).

Value conventions:

- Go `float64` is `real`.
- A NaN result ("undefined") is `Option<real>`: `None` means NaN.
- The `math.MaxFloat64` sentinels of the running argmins are an explicit "none
  yet" state.
- The wall clock is a parameter `now` / `today`, in unix seconds.
- Go's truncating integer division is `Numeric.TruncDiv`.

Each loop of the Go code is a `method` with its invariants. Each loop method
is proved equal to a specification function, except `SortByExpiry`, which is
proved sorted by expiry and a permutation of its input. The properties the
program relies on are lemmas about those functions.

Behaviour kept as the code has it:

- `SelectTargetContract` treats `bestExpiry == 0` as "no expiry found". An
  in-window expiry at unix time 0 therefore yields no target.
- `formatNumber` splits at every '.' and keeps only the text between the
  first and the second dot.
- In the timeline, an option exactly 84 days out has raw column 120. The clamp
  pulls it back to 119 (`Portfolio.WeeklyColumnEnds`).
- `processExpiredOptions` treats every option type other than "CALL" as a
  put when it decides in-the-money.

## Model

| member | source | states |
|---|---|---|
| CspScoring.Clamp100 | internal/csp/csp.go:81-93 | Result in [0,100]. Identity inside that range. 0 below it, 100 above it. |
| CspScoring.LinearInterp | internal/csp/csp.go:81-93 | Always in [0,100]. Returns clamped y0 for x ≤ x0, y1 at x1, and y2 at x2 and beyond x2. |
| CspScoring.LinearInterpMonotone | internal/csp/csp.go:81-93 | With increasing knots and non-decreasing y values, the interpolator is non-decreasing in x. |
| CspScoring.UnclampedMonotone | internal/csp/csp.go:81-93 | The branch formula before clamping is non-decreasing across all three segments. |
| CspScoring.ScoreVIX | internal/csp/csp.go:96-98 | In [0,100]. Gives 0 for VIX ≤ 15, 50 at 20, 75 at 25, and 100 for VIX ≥ 30. |
| CspScoring.ScoreIVRank | internal/csp/csp.go:101-103 | Identity on [0,100]. Gives 0 below that range and 100 above it. |
| CspScoring.ScoreRSI | internal/csp/csp.go:106-121 | In [0,100]. Gives 0 for RSI ≥ 70, 50 at 40, 75 at 30, and 100 for RSI ≤ 20. |
| CspScoring.ScoreRSIMonotone | internal/csp/csp.go:106-121 | The RSI score is non-increasing in RSI. |
| CspScoring.ScorePutCallRatio | internal/csp/csp.go:124-126 | In [0,100]. Gives 0 for ratio ≤ 0.5, 50 at 1.0, and 100 for ratio ≥ 1.5. |
| CspScoring.ScorePremiumYield | internal/csp/csp.go:129-131 | In [0,100]. Gives 0 for yield ≤ 0, 50 at 15, and 100 for yield ≥ 30. |
| CspScoring.InterpScorersMonotone | internal/csp/csp.go:96-131 | The VIX, IV-rank, put/call and yield scores are non-decreasing in their inputs. |
| CspScoring.CalculateIVRank | internal/csp/csp.go:175-181 | Undefined exactly when high == low. Otherwise rank·(high−low) == (current−low)·100. |
| CspScoring.IVRankInRange | internal/csp/csp.go:175-181 | When low ≤ current ≤ high and low < high, the rank is defined and lies in [0,100]. It is 0 at low and 100 at high. |
| CspScoring.IVRankDegenerate | internal/csp/csp_test.go:256-261 | A zero-width range always gives an undefined rank. |
| CspScoring.CalculatePremiumYield | internal/csp/csp.go:184-189 | 0 when strike or dte is 0. Otherwise yield·strike·dte == premium·36500. Non-negative for non-negative premium, strike and dte. |
| CspRsi.Smoothed | internal/csp/csp.go:141-164 | The average gain and average loss stay ≥ 0 through the initial mean and every Wilder step. |
| CspRsi.Rsi | internal/csp/csp.go:135-171 | Undefined exactly when there are fewer than 15 closes. |
| CspRsi.CalculateRSI | internal/csp/csp.go:135-171 | The two summing and smoothing loops compute `Rsi`. |
| CspRsi.RsiOfRatio | internal/csp/csp.go:166-170 | With a positive average loss, RSI = 100·g/(g+l), which lies in [0,100). |
| CspRsi.RsiInRange | internal/csp/csp.go:135-171 | With at least 15 closes, RSI is defined and in [0,100]. It is 100 when the average loss is 0. |
| CspRsi.RisingSeriesRsi | internal/csp/csp.go:166-168 | A strictly rising series has RSI 100. |
| CspRsi.FallingSeriesRsi | internal/csp/csp.go:135-171 | A strictly falling series has RSI 0. |
| CspRsi.WilderExample | internal/csp/csp_test.go:224-239 | Wilder's 15-close example has RSI in [60,80]. |
| CspRsi.LossSumGrows | internal/csp/csp.go:142-149 | The running loss sum never decreases. |
| CspContracts.DaysUntil | internal/csp/csp.go:381-388 | ≥ 0. It is 0 for a past expiry, and otherwise the floor of the remaining days. |
| CspContracts.CalculateDelta | internal/csp/csp.go:192-201 | In [-1,0]. It is 0 when spot, strike, IV or dte is ≤ 0, and otherwise the closed form. |
| CspContracts.FilterContracts | internal/csp/csp.go:210-239 | The `continue` chain computes `Filtered`: the surviving contracts, each with its delta stored. |
| CspContracts.FilteredIsSubsequence | internal/csp/csp.go:210-239 | The filter output is an order-preserving subsequence of the input, up to the stored delta. Its length is ≤ the input's. |
| CspContracts.FilteredMembers | internal/csp/csp.go:210-239 | Each survivor has volume ≥ 10, open interest ≥ 10, bid ≥ 0.10, mid > 0, spread/mid ≤ 0.15 and stored delta in [-0.50,-0.20]. A contract is in the output iff some surviving input maps to it. |
| CspContracts.DegenerateNeverSurvives | internal/csp/csp.go:193-195 | A contract with non-positive IV, spot, strike or dte gets delta 0 and is always dropped. |
| CspContracts.BestExpiryIndex | internal/csp/csp.go:249-265 | None iff no expiry is in the 21–45-day window. Otherwise it is the first in-window expiry closest to 30 days. |
| CspContracts.BestExpiry | internal/csp/csp.go:249-265 | The expiry loop returns the chosen expiry, or 0 when there is none. |
| CspContracts.ExpiryPuts | internal/csp/csp.go:268-273 | A put is kept iff its expiration equals the chosen one. |
| CspContracts.ExpiryPutsInOrder | internal/csp/csp.go:268-273 | The kept puts are an order-preserving subsequence of the chain. |
| CspContracts.PutsForExpiry | internal/csp/csp.go:268-273 | The collecting loop computes `ExpiryPuts`. |
| CspContracts.NearestIndex | internal/csp/csp.go:282-291 | The first survivor with minimal absolute distance between strike and spot. |
| CspContracts.NearestAtm | internal/csp/csp.go:282-291 | The nearest-ATM loop returns `NearestIndex`. |
| CspContracts.SelectTargetContract | internal/csp/csp.go:245-292 | The whole selector computes `SelectTarget`. |
| CspContracts.SelectTargetSpec | internal/csp/csp.go:245-292 | None when no expiry is in the window or no put survives. Otherwise the result has the chosen in-window expiry, is a survivor, has strike distance ≤ that of every survivor, and is the first survivor with that distance. |
| CspComposite.Classify | internal/csp/csp.go:369-376 | STRONG iff composite > 70. MODERATE iff 50 ≤ composite ≤ 70. WEAK iff composite < 50. |
| CspComposite.PutCallRatio | internal/csp/csp.go:304-307 | ratio·calls == puts when call volume > 0, and 0 otherwise. |
| CspComposite.ScoreDefined | internal/csp/csp.go:319-333 | A sub-score is undefined exactly when its raw value is. Otherwise it is the scorer applied to the raw value. |
| CspComposite.CombineSignals | internal/csp/csp.go:354-366 | The skip-NaN accumulation loop computes `Composite`: Σw·s / Σw over defined scores, or 0 when no weight is used. |
| CspComposite.CompositeInRange | internal/csp/csp.go:354-366 | With non-negative weights and scores in [0,100], the composite lies in [0,100]. |
| CspComposite.ComputeSignals | internal/csp/csp.go:296-379 | The raw values and sub-scores are the calculators' and scorers' outputs. IV-rank and RSI scores are undefined iff their raw values are. The composite is `Composite` of the five weighted scores and lies in [0,100]. The label is `Classify` of the composite. The whole output equals `Signals` of the input. |
| CspComposite.AllDefinedComposite | internal/csp/csp_test.go:132-155 | With all five scores defined, the composite is 0.20·vix + 0.25·iv + 0.20·rsi + 0.15·pcr + 0.20·yield. |
| CspComposite.IVRankUndefinedComposite | internal/csp/csp_test.go:199-220 | With the IV rank undefined, the other four weighted scores are divided by 0.75. |
| CspComposite.AllUndefinedFallback | internal/csp/csp.go:363-365 | For any list of weighted scores, none defined gives composite 0 and label WEAK. The engine's own five-entry list always has three defined scores, so there the guard is not reached. |
| CspComposite.QuietMarketIsWeak | internal/csp/csp.go:296-379 | A degenerate IV range, no RSI or an RSI ≥ 70, VIX ≤ 15, put/call ratio ≤ 0.5 and zero premium give an undefined IV-rank score, composite 0 and label WEAK. |
| CspComposite.ZeroPremiumYield | internal/csp/csp.go:184-189 | A zero premium has a zero annualised yield for every strike and DTE. |
| CspView.PositiveIVs | csp_view.go:273-278 | x is collected iff some put has IV x > 0. |
| CspView.RunningLow | csp_view.go:280-292 | ≤ the start and every element. It equals the start or some element. |
| CspView.RunningHigh | csp_view.go:280-292 | ≥ the start and every element. It equals the start or some element. |
| CspView.CollectIVs | csp_view.go:273-278 | The collecting loop computes `PositiveIVs`. |
| CspView.IVRange | csp_view.go:280-292 | The min/max loop computes `RunningLow` and `RunningHigh` from the target's IV. |
| CspView.TotalVolume | csp_view.go:295-301 | Each volume loop computes `VolumeSum`. |
| CspView.VolumeSumAppend | csp_view.go:295-301 | The volume total of two lists laid end to end is the sum of their totals. |
| CspView.VolumeSumNonNegative | csp_view.go:295-301 | Non-negative volumes give a non-negative total. |
| CspView.ViewDteIsDaysUntil | csp_view.go:304-308 | Truncating the day count and then clamping at 0 equals the engine's `DaysUntil`. |
| CspView.AssembleSignalInput | csp_view.go:273-322 | ivLow ≤ currentIV ≤ ivHigh. The range is the running min/max over the positive put IVs. Volumes are the put and call totals. dte equals `DaysUntil`. The premium is the mid. The resulting IV rank is undefined or in [0,100]. |
| CspView.IVRangeBounds | csp_view.go:273-292 | The range contains the target's IV and every positive put IV. Each end is the target's IV or one of those IVs. Non-positive IVs play no part. |
| YahooParse.Converted | internal/yahoo/options.go:192-218 | Same length as the input. Element i is the raw contract i with its eight fields copied and delta 0. |
| YahooParse.ConvertAll | internal/yahoo/options.go:194-216 | The append loop computes `Converted`. |
| YahooParse.ParseOptionsResponse | internal/yahoo/options.go:178-221 | The parser computes `ParsedOptions`. |
| YahooParse.ParsedOptionsSpec | internal/yahoo/options.go:178-221 | An API error wins over an empty result. Ok iff there is no error and the result is non-empty. Price and dates come from Result[0]. Puts and calls come from Options[0] only, keeping count and order, with delta 0. Empty Options gives empty lists. |
| YahooParse.ParseChartHistoryResponse | internal/yahoo/options.go:253-275 | The parser computes `ParsedChart`. |
| YahooParse.ParsedChartSpec | internal/yahoo/options.go:254-274 | Checks the chart error, then an empty result, then empty quote indicators, in that order. On success it returns the non-null closes: their count is the raw count minus the nulls, and their values are exactly those present. |
| YahooParse.NonNullLength | internal/yahoo/options.go:266-274 | Dropping nulls removes exactly the nulls. |
| YahooParse.NonNullAppend | internal/yahoo/options.go:266-274 | Null-dropping distributes over concatenation, so the kept closes stay in input order. |
| YahooParse.NonNullMembers | internal/yahoo/options.go:266-274 | v is kept iff Some(v) occurs. |
| YahooParse.NonNullEnds | internal/yahoo/options_test.go:93-106 | A non-null first or last raw close is the first or last close returned. |
| YahooParse.TwentyWithOneNull | internal/yahoo/options_test.go:93-106 | 20 raw values with one null give 19 closes. |
| Format.DotIndex | main.go:1638 | None iff there is no '.'. Otherwise it is the index of the first '.'. |
| Format.InsertSeparators | main.go:1647-1653 | The separator loop computes `Group`. |
| Format.EmittedIsGroup | main.go:1647-1653 | Inserting ',' where (len−i)%3 == 0 with i > 0 equals grouping by three from the right. |
| Format.FormatNumber | main.go:1637-1663 | The routine computes `FormatSpec`: sign, grouped integer part, then '.' and the second split field. |
| Format.GroupRemoveCommas | main.go:1647-1653 | Deleting the commas of a grouped comma-free string gives it back. |
| Format.GroupCommaPositions | main.go:1647-1653 | An integer part of ≤ 3 characters is unchanged. The length grows by (len−1)/3. Commas sit exactly at positions 4, 8, … from the right end: never first, never two adjacent. |
| Format.GroupHead | main.go:1647-1653 | Grouping keeps the first character in front. |
| Format.SplitOneDot | main.go:1638-1639 | With at most one '.', the two fields are the text on either side of it. |
| Format.FormatRemoveCommas | main.go:1637-1663 | For text without ',' and with at most one '.', deleting every ',' from the output gives back the input. |
| Format.FormatKeepsSignAndFraction | main.go:1641-1661 | The output starts with '-' iff the input does. The output ends with '.' plus the second split field whenever there is a dot. |
| Portfolio.BuildCallCaps | main.go:376-387 | The map-building loop computes `CallCaps`. |
| Portfolio.CallCapsMinimum | main.go:376-387 | A ticker has a key iff it has an ACTIVE SELL CALL. Its cap is ≤ every such strike and equals one of them. |
| Portfolio.CappedPrice | main.go:402-404 | With a cap, the price is ≤ both the cap and the quote, and equals one of them. Without a cap, or at or below it, the price is unchanged. |
| Portfolio.ActiveOptions | main.go:1046-1051 | An option is kept iff it is ACTIVE. |
| Portfolio.ActiveOptionsInOrder | main.go:1046-1051 | The ACTIVE options are an order-preserving subsequence of the input. |
| Portfolio.CollectActive | main.go:1046-1051 | The append loop computes `ActiveOptions`. |
| Portfolio.SortByExpiry | main.go:1066-1072 | The in-place exchange sort leaves the array sorted by non-decreasing expiry and a permutation of its input. |
| Portfolio.DaysLeft | main.go:1131-1134 | ≥ 0, and 0 for a past expiry. |
| Portfolio.DaysLeftIsDaysUntil | main.go:1131-1134 | The timeline day count equals the floor of the remaining days. |
| Portfolio.ExpiryColumn | main.go:1156-1183 | Always in [1,119]. It equals the raw column whenever that is already in range. |
| Portfolio.ExpiryPosition | main.go:1156-1183 | The reassign-and-clamp sequence computes `ExpiryColumn` and lies in [1,119]. |
| Portfolio.WeeklyColumnMonotone | main.go:1158-1165 | In the weekly view, a later expiry never sits left of an earlier one. |
| Portfolio.WeeklyColumnEnds | main.go:1158-1183 | Weekly view: column 1 at 0 days, ⌊d·120/84⌋ for 1 ≤ d < 84, and 119 from 84 days on. |
| Portfolio.MonthlyColumnPeriod | main.go:1166-1183 | Monthly view: an earlier month gives column 1, six months or more gives 119, and otherwise the marker falls within its month's 20 columns. |
| Portfolio.Settle | main.go:1582-1598 | A CALL is assigned iff price > strike. Any other type is assigned iff price < strike. |
| Portfolio.SettleSides | main.go:1582-1598 | A CALL is assigned iff price > strike. A PUT is assigned iff price < strike. At the money, the option always expires. |
| Portfolio.Dedup | main.go:1559-1566 | Same elements as the input, no duplicates. |
| Portfolio.DedupInOrder | main.go:1559-1566 | The distinct tickers are an order-preserving subsequence of the input. |
| Portfolio.UniqueTickers | main.go:1559-1566 | The seen-map loop computes `Dedup` of the tickers. |
| Portfolio.ProcessExpiredOptions | main.go:1551-1600 | No decisions for an empty list or a failed quote fetch. Otherwise it returns `Settlements`: one decision per option whose ticker has a quote, in order. |
| Portfolio.SettlementsSpec | main.go:1574-1599 | A decision is present iff it is the settlement of an expired option with a quote. There are exactly as many decisions as options with a quote, and so at most as many as options. |

## Left out

- Portfolio.SortByExpiry: the order among options with equal expiry dates is not modelled. The exchange sort fixes it, but the contract allows any sorted permutation.
- HTTP, cookies, crumbs and JSON decoding (`ensureCrumb`, `fetchOptions`, `FetchPriceHistory`, `fetchQuote`) are network I/O. The parsers take already-decoded values.
- The concurrent quote fan-out (`GetQuotes`) is concurrency. `ProcessExpiredOptions` takes the fetch as a function parameter returning `None` on error.
- The SQL database layer is I/O. For `processExpiredOptions`, reading the expired options with `GetExpiredActiveOptions` is an input list. The assign and expire calls are returned as a list of decisions. The tracked-option record is not part of this model; `TrackedOption` carries the fields the screen uses.
- The TUI is not modelled: tview/tcell tables, forms, colours, the timeline's drawn rows and period labels, and the `time.Sleep` rate limiting.
- CspContracts.CalculateDelta: the Black–Scholes closed form and `normCDF` (log, sqrt, erfc) are a parameter `formula` whose values lie in [-1,0]. The parameter is threaded through the filter and the selector. The risk-free rate lives only inside it.
- IEEE floating point is not modelled. This covers rounding, NaN bit patterns and the `math.MaxFloat64` sentinels; reals and `Option` stand in for them.
- The wall clock is not modelled. `time.Now` and `time.Until` become `now` / `today` in whole unix seconds, so sub-second precision is dropped. The calendar figures of the monthly timeline come in as values: months away, day in month and days in month.
- `shopspring/decimal` arithmetic is modelled as reals, for the strikes, the cap comparison and the ITM comparison.
- Format.FormatNumber: iterating by rune and truncating with `byte(c)` are not modelled; every character is one unit, which matches the source for ASCII input.
- The per-ticker fallbacks of the CSP view's fetch loop are not modelled: an empty output when the history is short or no target is found, and the VIX default. `AssembleSignalInput` starts from a selected target.
- `ComputeSignals` stores the label as a `Signal` value. `SignalName` gives the source's strings.
