/**
 * Helpers of the portfolio screen that work on tracked options: the cap on
 * a holding's price from short calls, the expiry timeline (order, days left,
 * column) and the settlement of expired options.
 */
module Portfolio {
  import opened Wrappers
  import opened Numeric
  import opened Subsequences
  import CspContracts

  /** A tracked option position, with the fields the screen uses; dates are unix seconds. */
  datatype TrackedOption = TrackedOption(
    id: int,
    ticker: string,
    optionType: string,
    action: string,
    status: string,
    strike: real,
    expiryDate: int)

  /** An open short call: the positions that cap a holding's price. */
  predicate ActiveSellCall(o: TrackedOption)
  {
    o.status == "ACTIVE" && o.optionType == "CALL" && o.action == "SELL"
  }

  // ---------------------------------------------------------------------
  // Per-ticker call caps

  /** The cap map after visiting `os` in order: a ticker's first short call, replaced by any lower strike. */
  function CallCaps(os: seq<TrackedOption>): map<string, real>
  {
    if os == [] then map[]
    else
      var m := CallCaps(os[..|os| - 1]);
      var o := os[|os| - 1];
      if ActiveSellCall(o) && (o.ticker !in m || o.strike < m[o.ticker]) then m[o.ticker := o.strike] else m
  }

  /** Builds the map from ticker to the lowest strike of its open short calls. */
  method BuildCallCaps(options: seq<TrackedOption>) returns (callCaps: map<string, real>)
    ensures callCaps == CallCaps(options)
  {
    callCaps := map[];
    var i := 0;
    while i < |options|
      invariant 0 <= i <= |options|
      invariant callCaps == CallCaps(options[..i])
    {
      assert options[..i + 1][..i] == options[..i];
      var o := options[i];
      if ActiveSellCall(o) {
        if o.ticker in callCaps {
          if o.strike < callCaps[o.ticker] {
            callCaps := callCaps[o.ticker := o.strike];
          }
        } else {
          callCaps := callCaps[o.ticker := o.strike];
        }
      }
      i := i + 1;
    }
    assert options[..|options|] == options;
  }

  /**
   * A ticker has a cap exactly when it has an open short call; the cap is
   * the strike of one of them and no greater than any of their strikes.
   */
  lemma {:induction false} CallCapsMinimum(os: seq<TrackedOption>)
    ensures forall t :: t in CallCaps(os) <==>
      exists i :: 0 <= i < |os| && ActiveSellCall(os[i]) && os[i].ticker == t
    ensures forall i :: 0 <= i < |os| && ActiveSellCall(os[i]) ==>
      os[i].ticker in CallCaps(os) && CallCaps(os)[os[i].ticker] <= os[i].strike
    ensures forall t :: t in CallCaps(os) ==>
      exists i :: 0 <= i < |os| && ActiveSellCall(os[i]) && os[i].ticker == t && os[i].strike == CallCaps(os)[t]
  {
    if os != [] {
      var init := os[..|os| - 1];
      CallCapsMinimum(init);
      assert forall i :: 0 <= i < |init| ==> init[i] == os[i];
    }
  }

  /** The price a holding is valued at: the quote, lowered to the ticker's call cap if above it. */
  function CappedPrice(price: real, callCaps: map<string, real>, ticker: string): (p: real)
    ensures ticker in callCaps ==> p <= callCaps[ticker] && p <= price
    ensures ticker in callCaps ==> p == price || p == callCaps[ticker]
    ensures ticker !in callCaps || price <= callCaps[ticker] ==> p == price
  {
    if ticker in callCaps && price > callCaps[ticker] then callCaps[ticker] else price
  }

  // ---------------------------------------------------------------------
  // Expiry timeline

  /** The options still open, in their original order. */
  function ActiveOptions(os: seq<TrackedOption>): (r: seq<TrackedOption>)
    ensures forall o :: o in r <==> o in os && o.status == "ACTIVE"
    ensures |r| <= |os|
  {
    if os == [] then []
    else
      var init := ActiveOptions(os[..|os| - 1]);
      var o := os[|os| - 1];
      assert os == os[..|os| - 1] + [o];
      if o.status == "ACTIVE" then init + [o] else init
  }

  /** The active options keep their original relative order. */
  lemma {:induction false} ActiveOptionsInOrder(os: seq<TrackedOption>)
    ensures IsSubsequence(ActiveOptions(os), os)
  {
    if os != [] {
      var init := os[..|os| - 1];
      ActiveOptionsInOrder(init);
      var r := ActiveOptions(os);
      if os[|os| - 1].status == "ACTIVE" {
        assert r[..|r| - 1] == ActiveOptions(init);
      }
    }
  }

  /** Collects the ACTIVE options with the timeline's append loop. */
  method CollectActive(options: seq<TrackedOption>) returns (activeOptions: seq<TrackedOption>)
    ensures activeOptions == ActiveOptions(options)
  {
    activeOptions := [];
    var i := 0;
    while i < |options|
      invariant 0 <= i <= |options|
      invariant activeOptions == ActiveOptions(options[..i])
    {
      assert options[..i + 1][..i] == options[..i];
      if options[i].status == "ACTIVE" {
        activeOptions := activeOptions + [options[i]];
      }
      i := i + 1;
    }
    assert options[..|options|] == options;
  }

  /** Non-decreasing expiry dates. */
  predicate SortedByExpiry(s: seq<TrackedOption>)
  {
    forall i, j :: 0 <= i < j < |s| ==> s[i].expiryDate <= s[j].expiryDate
  }

  /** The timeline's exchange sort: each position in turn swaps with every later, earlier-expiring one. */
  method SortByExpiry(a: array<TrackedOption>)
    modifies a
    ensures SortedByExpiry(a[..])
    ensures multiset(a[..]) == multiset(old(a[..]))
  {
    var i := 0;
    while i < a.Length - 1
      invariant 0 <= i <= a.Length
      invariant forall p, q :: 0 <= p < i && p < q < a.Length ==> a[p].expiryDate <= a[q].expiryDate
      invariant multiset(a[..]) == multiset(old(a[..]))
    {
      var j := i + 1;
      while j < a.Length
        invariant i + 1 <= j <= a.Length
        invariant forall p, q :: 0 <= p < i && p < q < a.Length ==> a[p].expiryDate <= a[q].expiryDate
        invariant forall q :: i < q < j ==> a[i].expiryDate <= a[q].expiryDate
        invariant multiset(a[..]) == multiset(old(a[..]))
      {
        if a[i].expiryDate > a[j].expiryDate {
          a[i], a[j] := a[j], a[i];
        }
        j := j + 1;
      }
      i := i + 1;
    }
  }

  /** Whole days from `today` to the expiry, truncated toward zero and clamped at 0. */
  function DaysLeft(expiryDate: int, today: int): (d: int)
    ensures d >= 0
    ensures expiryDate <= today ==> d == 0
  {
    var daysLeft := TruncDiv(expiryDate - today, CspContracts.Day);
    if daysLeft < 0 then 0 else daysLeft
  }

  /** The timeline's day count is the calendar-free floor of the remaining days. */
  lemma DaysLeftIsDaysUntil(expiryDate: int, today: int)
    ensures DaysLeft(expiryDate, today) == CspContracts.DaysUntil(expiryDate, today)
  {
    if expiryDate - today < 0 {
      assert TruncDiv(expiryDate - today, CspContracts.Day) <= 0;
    }
  }

  const TotalWidth: int := 120
  const WeeklyPeriods: int := 12
  const MonthlyPeriods: int := 6

  /** Columns per period: 10 in the weekly view, 20 in the monthly one. */
  function PeriodWidth(weekly: bool): int
  {
    if weekly then TotalWidth / WeeklyPeriods else TotalWidth / MonthlyPeriods
  }

  /** Where the marker would go before clamping. */
  function RawColumn(weekly: bool, daysLeft: nat, monthsAway: int, dayInMonth: int, daysInMonth: int): int
    requires 1 <= dayInMonth <= daysInMonth
  {
    if weekly then
      var maxDays := WeeklyPeriods * 7;
      if daysLeft > maxDays then TotalWidth - 1 else (daysLeft * TotalWidth) / maxDays
    else
      if monthsAway >= MonthlyPeriods then TotalWidth - 1
      else monthsAway * PeriodWidth(weekly) + (dayInMonth * PeriodWidth(weekly)) / daysInMonth
  }

  /** The marker column: the raw column clamped to the drawable range. */
  function ExpiryColumn(weekly: bool, daysLeft: nat, monthsAway: int, dayInMonth: int, daysInMonth: int): (c: int)
    requires 1 <= dayInMonth <= daysInMonth
    ensures 1 <= c <= TotalWidth - 1
    ensures var raw := RawColumn(weekly, daysLeft, monthsAway, dayInMonth, daysInMonth);
            1 <= raw <= TotalWidth - 1 ==> c == raw
  {
    var raw := RawColumn(weekly, daysLeft, monthsAway, dayInMonth, daysInMonth);
    if raw < 1 then 1 else if raw >= TotalWidth then TotalWidth - 1 else raw
  }

  /**
   * Computes the marker column of one option by successive reassignment;
   * the month and day figures are the calendar's and come in as values.
   */
  method ExpiryPosition(weekly: bool, daysLeft: nat, monthsAway: int, dayInMonth: int, daysInMonth: int)
    returns (expiryPos: int)
    requires 1 <= dayInMonth <= daysInMonth
    ensures expiryPos == ExpiryColumn(weekly, daysLeft, monthsAway, dayInMonth, daysInMonth)
    ensures 1 <= expiryPos <= TotalWidth - 1
  {
    var numPeriods := if weekly then WeeklyPeriods else MonthlyPeriods;
    var totalWidth := TotalWidth;
    var periodWidth := totalWidth / numPeriods;
    if weekly {
      var maxDays := numPeriods * 7;
      if daysLeft > maxDays {
        expiryPos := totalWidth - 1;
      } else {
        expiryPos := (daysLeft * totalWidth) / maxDays;
      }
    } else {
      if monthsAway >= numPeriods {
        expiryPos := totalWidth - 1;
      } else {
        expiryPos := (monthsAway * periodWidth) + ((dayInMonth * periodWidth) / daysInMonth);
      }
    }
    if expiryPos < 1 {
      expiryPos := 1;
    }
    if expiryPos >= totalWidth {
      expiryPos := totalWidth - 1;
    }
  }

  /** In the weekly view a later expiry never sits left of an earlier one. */
  lemma WeeklyColumnMonotone(d1: nat, d2: nat)
    requires d1 <= d2
    ensures ExpiryColumn(true, d1, 0, 1, 1) <= ExpiryColumn(true, d2, 0, 1, 1)
  {
    if d2 <= 84 {
      DivMonotone(d1 * 120, d2 * 120, 84);
    }
  }

  /** Helper: integer division by a positive number is monotone on naturals. */
  lemma DivMonotone(a: nat, b: nat, d: int)
    requires a <= b && d > 0
    ensures a / d <= b / d
  {
    var qa, qb := a / d, b / d;
    assert qa * d <= a && b < qb * d + d;
    if qa > qb {
      assert qa * d >= (qb + 1) * d by {
        MulMonotone(qb + 1, qa, d);
      }
    }
  }

  /** Helper: multiplying by a positive number keeps the order. */
  lemma MulMonotone(x: int, y: int, d: int)
    requires x <= y && d > 0
    ensures x * d <= y * d
  {
    assert y * d - x * d == (y - x) * d;
  }

  /**
   * Weekly marker columns: column 1 today, then 120/84 columns per day,
   * and the last column from 84 days on (the raw column 120 at exactly 84
   * days is pulled back by the clamp).
   */
  lemma WeeklyColumnEnds(daysLeft: nat)
    ensures daysLeft == 0 ==> ExpiryColumn(true, daysLeft, 0, 1, 1) == 1
    ensures 1 <= daysLeft < 84 ==> ExpiryColumn(true, daysLeft, 0, 1, 1) == (daysLeft * 120) / 84
    ensures daysLeft >= 84 ==> ExpiryColumn(true, daysLeft, 0, 1, 1) == TotalWidth - 1
  {
    if 1 <= daysLeft < 84 {
      var raw := (daysLeft * 120) / 84;
      assert raw * 84 <= daysLeft * 120 < raw * 84 + 84;
      assert daysLeft * 120 <= 83 * 120;
      assert 120 <= daysLeft * 120;
    }
  }

  /**
   * Monthly marker columns: a past month pins the marker to column 1, six
   * months or more to the last column, and otherwise the marker falls inside
   * its month's period of 20 columns.
   */
  lemma MonthlyColumnPeriod(monthsAway: int, dayInMonth: int, daysInMonth: int)
    requires 1 <= dayInMonth <= daysInMonth
    ensures monthsAway < 0 ==> ExpiryColumn(false, 0, monthsAway, dayInMonth, daysInMonth) == 1
    ensures monthsAway >= 6 ==> ExpiryColumn(false, 0, monthsAway, dayInMonth, daysInMonth) == TotalWidth - 1
    ensures 0 <= monthsAway < 6 ==>
      monthsAway * 20 <= ExpiryColumn(false, 0, monthsAway, dayInMonth, daysInMonth) <= monthsAway * 20 + 20
  {
    var within := (dayInMonth * 20) / daysInMonth;
    assert within * daysInMonth <= dayInMonth * 20;
    assert 0 <= within;
    if within > 20 {
      MulMonotone(21, within, daysInMonth);
    }
  }

  // ---------------------------------------------------------------------
  // Settlement of expired options

  /** The outcome recorded for an expired option. */
  datatype Settlement = Assign | Expire

  /** One settlement to record. */
  datatype Decision = Decision(id: int, outcome: Settlement)

  /** A call is in the money above its strike, any other option below it; in the money means assignment. */
  function Settle(o: TrackedOption, price: real): (r: Settlement)
    ensures o.optionType == "CALL" ==> (r == Assign <==> price > o.strike)
    ensures o.optionType != "CALL" ==> (r == Assign <==> price < o.strike)
  {
    var isITM := if o.optionType == "CALL" then price > o.strike else price < o.strike;
    if isITM then Assign else Expire
  }

  /** Assignment happens exactly on the in-the-money side, so an option at the money always expires. */
  lemma SettleSides(o: TrackedOption, price: real)
    ensures o.optionType == "CALL" ==> (Settle(o, price) == Assign <==> price > o.strike)
    ensures o.optionType == "PUT" ==> (Settle(o, price) == Assign <==> price < o.strike)
    ensures price == o.strike ==> Settle(o, price) == Expire
  {
  }

  /** The strings of `ts` in order of first appearance, each once. */
  function Dedup(ts: seq<string>): (r: seq<string>)
    ensures forall t :: t in r <==> t in ts
    ensures forall i, j :: 0 <= i < j < |r| ==> r[i] != r[j]
  {
    if ts == [] then []
    else
      var init := Dedup(ts[..|ts| - 1]);
      var t := ts[|ts| - 1];
      assert ts == ts[..|ts| - 1] + [t];
      if t in init then init else init + [t]
  }

  /** The distinct tickers keep the order of their first appearances. */
  lemma {:induction false} DedupInOrder(ts: seq<string>)
    ensures IsSubsequence(Dedup(ts), ts)
  {
    if ts != [] {
      var init := ts[..|ts| - 1];
      DedupInOrder(init);
      var r := Dedup(ts);
      if ts[|ts| - 1] !in Dedup(init) {
        assert r[..|r| - 1] == Dedup(init);
      }
    }
  }

  /** The ticker of every option, in order. */
  function Tickers(os: seq<TrackedOption>): (r: seq<string>)
    ensures |r| == |os| && forall i :: 0 <= i < |os| ==> r[i] == os[i].ticker
  {
    if os == [] then [] else Tickers(os[..|os| - 1]) + [os[|os| - 1].ticker]
  }

  /** Collects the distinct tickers with a seen-map, keeping first appearances in order. */
  method UniqueTickers(expired: seq<TrackedOption>) returns (tickers: seq<string>)
    ensures tickers == Dedup(Tickers(expired))
  {
    tickers := [];
    var tickerMap: map<string, bool> := map[];
    var i := 0;
    while i < |expired|
      invariant 0 <= i <= |expired|
      invariant tickers == Dedup(Tickers(expired[..i]))
      invariant forall t :: (t in tickerMap && tickerMap[t]) <==> t in tickers
    {
      assert expired[..i + 1][..i] == expired[..i];
      assert Tickers(expired[..i + 1]) == Tickers(expired[..i]) + [expired[i].ticker];
      var o := expired[i];
      if !(o.ticker in tickerMap && tickerMap[o.ticker]) {
        tickers := tickers + [o.ticker];
        tickerMap := tickerMap[o.ticker := true];
      }
      i := i + 1;
    }
    assert expired[..|expired|] == expired;
  }

  /** The decisions for the expired options that have a quote, in order. */
  function Settlements(expired: seq<TrackedOption>, quotes: map<string, real>): seq<Decision>
  {
    if expired == [] then []
    else
      var init := Settlements(expired[..|expired| - 1], quotes);
      var o := expired[|expired| - 1];
      if o.ticker in quotes then init + [Decision(o.id, Settle(o, quotes[o.ticker]))] else init
  }

  /**
   * Settles expired, still-active options against the quotes of their
   * tickers; a failed quote fetch (`None`) settles nothing, and an option
   * whose ticker has no quote is skipped.
   */
  method ProcessExpiredOptions(expired: seq<TrackedOption>, fetchQuotes: seq<string> -> Option<map<string, real>>)
    returns (decisions: seq<Decision>)
    ensures var q := fetchQuotes(Dedup(Tickers(expired)));
            decisions == if expired == [] || q.None? then [] else Settlements(expired, q.value)
  {
    decisions := [];
    if |expired| == 0 {
      return;
    }
    var tickers := UniqueTickers(expired);
    var quotes := fetchQuotes(tickers);
    if quotes.None? {
      return;
    }
    var i := 0;
    while i < |expired|
      invariant 0 <= i <= |expired|
      invariant decisions == Settlements(expired[..i], quotes.value)
    {
      assert expired[..i + 1][..i] == expired[..i];
      var o := expired[i];
      i := i + 1;
      if o.ticker !in quotes.value {
        continue;
      }
      decisions := decisions + [Decision(o.id, Settle(o, quotes.value[o.ticker]))];
    }
    assert expired[..|expired|] == expired;
  }

  /** The number of options whose ticker has a quote. */
  function QuotedCount(expired: seq<TrackedOption>, quotes: map<string, real>): nat
  {
    if expired == [] then 0
    else QuotedCount(expired[..|expired| - 1], quotes) + (if expired[|expired| - 1].ticker in quotes then 1 else 0)
  }

  /**
   * Every decision belongs to an expired option with a quote and carries its
   * settlement; every such option gets one, and there are exactly as many
   * decisions as quoted options.
   */
  lemma {:induction false} SettlementsSpec(expired: seq<TrackedOption>, quotes: map<string, real>)
    ensures |Settlements(expired, quotes)| == QuotedCount(expired, quotes) <= |expired|
    ensures forall d :: d in Settlements(expired, quotes) <==>
      exists i :: 0 <= i < |expired| && expired[i].ticker in quotes &&
        d == Decision(expired[i].id, Settle(expired[i], quotes[expired[i].ticker]))
  {
    if expired != [] {
      var init := expired[..|expired| - 1];
      SettlementsSpec(init, quotes);
      assert forall i :: 0 <= i < |init| ==> init[i] == expired[i];
    }
  }
}
