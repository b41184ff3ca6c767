/** The analytics service of `src/services/analytics.service.ts`: choosing the reporting
    period from the selected date range, and turning the backend's aggregates into the
    dashboard's data (daily trend slots, monthly comparison, tax summary and the
    overspending alert). Instants are milliseconds since the epoch, in UTC. */
module Analytics {
  import opened Wrappers
  import opened Api
  import opened Text

  /** Milliseconds in a day. */
  const Day: int := 1000 * 60 * 60 * 24

  /** `Math.floor((dateTo - dateFrom) / day)`: whole days between the two instants, rounded
      down (so negative for a reversed range). */
  function DaysDiff(dateFrom: int, dateTo: int): (d: int)
    ensures d * Day <= dateTo - dateFrom < (d + 1) * Day
  {
    (dateTo - dateFrom) / Day
  }

  /** The reporting periods the backend understands. */
  datatype Period = ThisMonth | Ytd | Custom

  /** The period chosen for a span of `daysDiff` whole days. */
  function PeriodFor(daysDiff: int): (p: Period)
    ensures p == ThisMonth <==> daysDiff <= 31
    ensures p == Ytd <==> 31 < daysDiff <= 365
    ensures p == Custom <==> 365 < daysDiff
  {
    if daysDiff <= 31 then ThisMonth
    else if daysDiff <= 365 then Ytd
    else Custom
  }

  /** Position of a period in the order ThisMonth, Ytd, Custom. */
  function PeriodRank(p: Period): nat {
    match p
    case ThisMonth => 0
    case Ytd => 1
    case Custom => 2
  }

  /** A longer span never selects a shorter period. */
  lemma PeriodIsMonotone(d1: int, d2: int)
    requires d1 <= d2
    ensures PeriodRank(PeriodFor(d1)) <= PeriodRank(PeriodFor(d2))
  {
  }

  /** The analytics request's query: the period, and the explicit bounds only for a custom
      period. */
  datatype AnalyticsQuery = AnalyticsQuery(period: Period, startDate: Option<int>, endDate: Option<int>)

  function AnalyticsParams(dateFrom: int, dateTo: int): (q: AnalyticsQuery)
    ensures q.period == PeriodFor(DaysDiff(dateFrom, dateTo))
    ensures q.startDate.Some? <==> q.period == Custom
    ensures q.endDate.Some? <==> q.period == Custom
    ensures q.startDate.Some? ==> q.startDate.value == dateFrom && q.endDate.value == dateTo
  {
    var period := PeriodFor(DaysDiff(dateFrom, dateTo));
    if period == Custom then AnalyticsQuery(period, Some(dateFrom), Some(dateTo))
    else AnalyticsQuery(period, None, None)
  }

  /** Bounds are sent exactly when the range is more than 365 whole days long. */
  lemma BoundsSentForLongRanges(dateFrom: int, dateTo: int)
    ensures AnalyticsParams(dateFrom, dateTo).startDate.Some? <==> dateTo - dateFrom >= 366 * Day
  {
  }

  // ---- the backend's aggregates ----

  datatype Summary = Summary(totalSpending: real, averageTransaction: real, transactionCount: int, taxDeductible: real)

  /** One category of the breakdown; the dashboard uses the backend's fields as they are. */
  datatype CategoryData = CategoryData(category: string, amount: real, count: int, percentage: real)

  /** One month of the backend's trend; `month` is its "yyyy-MM" text. */
  datatype MonthlyTrend = MonthlyTrend(month: string, amount: real, count: int)

  datatype MerchantData = MerchantData(merchant: string, amount: real, count: int, lastVisit: string)

  datatype BackendAnalytics = BackendAnalytics(
    summary: Summary,
    byCategory: seq<CategoryData>,
    monthlyTrends: seq<MonthlyTrend>,
    topMerchants: seq<MerchantData>)

  // ---- the dashboard's data ----

  /** A daily slot of the trend chart: the day's first instant, and zero spending. */
  datatype SpendingTrend = SpendingTrend(date: int, amount: real, count: int)

  /** A month of the comparison chart. `year` is `parseInt` of the text before the first
      '-', `None` where that gives NaN. */
  datatype MonthlyComparison = MonthlyComparison(month: string, year: Option<int>, amount: real, count: int)

  datatype TaxDeductibleData = TaxDeductibleData(totalAmount: real, count: int, categories: map<string, real>)

  datatype AlertType = Overspending | Unusual | Milestone

  /** An alert; `percentageChange` is the figure its message reports. */
  datatype SpendingAlert = SpendingAlert(
    id: string,
    alertType: AlertType,
    percentageChange: real,
    amount: Option<real>,
    timestamp: int)

  datatype AnalyticsData = AnalyticsData(
    spendingTrends: seq<SpendingTrend>,
    categoryBreakdown: seq<CategoryData>,
    topMerchants: seq<MerchantData>,
    monthlyComparison: seq<MonthlyComparison>,
    taxDeductible: TaxDeductibleData,
    alerts: seq<SpendingAlert>,
    totalSpending: real,
    averageTransaction: real,
    transactionCount: int)

  /** The number of days the trend loop visits: every instant `dateFrom + k * Day` that is
      not after `dateTo`. */
  function TrendDays(dateFrom: int, dateTo: int): nat {
    if dateFrom <= dateTo then DaysDiff(dateFrom, dateTo) + 1 else 0
  }

  /** The trend loop: one zero slot per day from `dateFrom` while the day is not after
      `dateTo`. */
  method SpendingTrends(dateFrom: int, dateTo: int) returns (trends: seq<SpendingTrend>)
    ensures |trends| == TrendDays(dateFrom, dateTo)
    ensures forall k :: 0 <= k < |trends| ==> trends[k] == SpendingTrend(dateFrom + k * Day, 0.0, 0)
    ensures forall k :: 0 <= k < |trends| ==> dateFrom <= trends[k].date <= dateTo
  {
    trends := [];
    var d := dateFrom;
    while d <= dateTo
      invariant d == dateFrom + |trends| * Day
      invariant trends != [] ==> d <= dateTo + Day
      invariant forall k :: 0 <= k < |trends| ==> trends[k] == SpendingTrend(dateFrom + k * Day, 0.0, 0)
      invariant forall k :: 0 <= k < |trends| ==> dateFrom <= trends[k].date <= dateTo
      decreases dateTo - d
    {
      trends := trends + [SpendingTrend(d, 0.0, 0)];
      d := d + Day;
    }
    TrendDaysCount(dateFrom, dateTo, |trends|);
  }

  /** The loop stops after the first `n` with `dateFrom + n * Day` past `dateTo`. */
  lemma TrendDaysCount(dateFrom: int, dateTo: int, n: nat)
    requires dateTo < dateFrom + n * Day
    requires n > 0 ==> dateFrom + n * Day <= dateTo + Day
    ensures n == TrendDays(dateFrom, dateTo)
  {
    if dateFrom <= dateTo {
      var q := DaysDiff(dateFrom, dateTo);
      assert q * Day <= dateTo - dateFrom < (q + 1) * Day;
    }
  }

  /** A range inside one day still gets its one slot; a reversed range gets none. */
  lemma TrendDaysBounds(dateFrom: int, dateTo: int)
    ensures dateFrom <= dateTo < dateFrom + Day ==> TrendDays(dateFrom, dateTo) == 1
    ensures dateTo < dateFrom ==> TrendDays(dateFrom, dateTo) == 0
  {
  }

  /** `month.split('-')[0]`: the text before the first '-', or all of it. */
  function YearText(month: string): (y: string)
    ensures StartsWith(month, y) && '-' !in y
    ensures |y| < |month| ==> month[|y|] == '-'
  {
    if month == [] || month[0] == '-' then []
    else [month[0]] + YearText(month[1..])
  }

  /** The year text of "yyyy-…" is "yyyy". */
  lemma {:induction false} YearTextOfDigits(digits: string, rest: string)
    requires AllDigits(digits)
    ensures YearText(digits + "-" + rest) == digits
    decreases |digits|
  {
    if digits == [] {
      assert (digits + "-" + rest)[0] == '-';
    } else {
      assert (digits + "-" + rest)[1..] == digits[1..] + "-" + rest;
      YearTextOfDigits(digits[1..], rest);
      assert [digits[0]] + digits[1..] == digits;
    }
  }

  function ToMonthlyComparison(t: MonthlyTrend): (m: MonthlyComparison)
    ensures m.month == t.month && m.amount == t.amount && m.count == t.count
  {
    MonthlyComparison(t.month, ParseInt(YearText(t.month)), t.amount, t.count)
  }

  /** The month of a backend entry labelled "<year>-…" carries that year. */
  lemma MonthYearIsParsed(t: MonthlyTrend, year: nat, rest: string)
    requires t.month == NatToString(year) + "-" + rest
    ensures ToMonthlyComparison(t).year == Some(year)
  {
    NatToStringDenotes(year);
    YearTextOfDigits(NatToString(year), rest);
    ParseIntOfIntToString(year);
  }

  /** `monthlyTrends.map(...)`: one comparison entry per backend month, in order. */
  function MonthlyComparisons(trends: seq<MonthlyTrend>): (ms: seq<MonthlyComparison>)
    ensures |ms| == |trends|
    ensures forall i :: 0 <= i < |trends| ==> ms[i].month == trends[i].month && ms[i].amount == trends[i].amount
    ensures forall i :: 0 <= i < |trends| ==> ms[i] == ToMonthlyComparison(trends[i])
  {
    seq(|trends|, i requires 0 <= i < |trends| => ToMonthlyComparison(trends[i]))
  }

  /** The month-over-month change in percent, 0 when the previous month is not positive. */
  function PercentageChange(current: real, previous: real): real {
    if previous > 0.0 then (current - previous) / previous * 100.0 else 0.0
  }

  /** The overspending check: compares the last two months only. */
  function SpendingAlerts(monthly: seq<MonthlyComparison>, now: int): (alerts: seq<SpendingAlert>)
    ensures |alerts| <= 1
    ensures |alerts| == 1 ==>
      && |monthly| >= 2
      && alerts[0].id == "spending-increase"
      && alerts[0].alertType == Overspending
      && alerts[0].amount == Some(monthly[|monthly| - 1].amount)
      && alerts[0].timestamp == now
      && alerts[0].percentageChange > 20.0
  {
    if |monthly| >= 2 then
      var current := monthly[|monthly| - 1];
      var previous := monthly[|monthly| - 2];
      var change := PercentageChange(current.amount, previous.amount);
      if change > 20.0 then [SpendingAlert("spending-increase", Overspending, change, Some(current.amount), now)]
      else []
    else []
  }

  /** The alert fires exactly when the last month exceeds the one before it, which is
      positive, by more than a fifth. */
  lemma AlertIffMoreThanAFifthHigher(monthly: seq<MonthlyComparison>, now: int)
    ensures |SpendingAlerts(monthly, now)| == 1 <==>
      |monthly| >= 2 && monthly[|monthly| - 2].amount > 0.0
      && monthly[|monthly| - 1].amount > monthly[|monthly| - 2].amount * 6.0 / 5.0
  {
    if |monthly| >= 2 {
      var cur := monthly[|monthly| - 1].amount;
      var prev := monthly[|monthly| - 2].amount;
      if prev > 0.0 {
        ChangeAboveTwentyPercent(cur, prev);
      }
    }
  }

  lemma ChangeAboveTwentyPercent(cur: real, prev: real)
    requires prev > 0.0
    ensures (cur - prev) / prev * 100.0 > 20.0 <==> cur > prev * 6.0 / 5.0
  {
    var x := (cur - prev) / prev;
    assert x * prev == cur - prev;
    if x * 100.0 > 20.0 {
      assert x > 1.0 / 5.0;
      assert x * prev > prev / 5.0;
    }
    if cur > prev * 6.0 / 5.0 {
      assert x * prev > prev * (1.0 / 5.0);
      assert x > 1.0 / 5.0;
    }
  }

  /** `getAnalyticsData` once the backend has answered: an error unless the answer
      succeeded; otherwise the breakdown and merchants as sent, one zero trend slot per
      day of the range, the monthly comparison, the tax summary and the alert (`now` is
      the alert's timestamp). */
  method GetAnalyticsData(dateFrom: int, dateTo: int, response: ApiResponse<BackendAnalytics>, now: int)
    returns (r: Result<AnalyticsData>)
    ensures !Succeeded(response) <==> r == Err("Failed to fetch analytics")
    ensures r.Ok? ==>
      var a := response.data.value;
      && r.value.categoryBreakdown == a.byCategory
      && r.value.topMerchants == a.topMerchants
      && |r.value.spendingTrends| == TrendDays(dateFrom, dateTo)
      && (forall k :: 0 <= k < |r.value.spendingTrends| ==>
            r.value.spendingTrends[k] == SpendingTrend(dateFrom + k * Day, 0.0, 0))
      && r.value.monthlyComparison == MonthlyComparisons(a.monthlyTrends)
      && r.value.taxDeductible == TaxDeductibleData(a.summary.taxDeductible, 0, map[])
      && r.value.alerts == SpendingAlerts(r.value.monthlyComparison, now)
      && r.value.totalSpending == a.summary.totalSpending
      && r.value.averageTransaction == a.summary.averageTransaction
      && r.value.transactionCount == a.summary.transactionCount
  {
    if !Succeeded(response) {
      return Err("Failed to fetch analytics");
    }
    var a := response.data.value;
    var trends := SpendingTrends(dateFrom, dateTo);
    var monthly := MonthlyComparisons(a.monthlyTrends);
    var taxDeductible := TaxDeductibleData(a.summary.taxDeductible, 0, map[]);
    var alerts := SpendingAlerts(monthly, now);
    r := Ok(AnalyticsData(trends, a.byCategory, a.topMerchants, monthly, taxDeductible, alerts,
                          a.summary.totalSpending, a.summary.averageTransaction, a.summary.transactionCount));
  }
}
