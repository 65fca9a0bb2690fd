/** The monthly view (`src/components/MonthlyAnalytics.tsx`): total cost, month-over-month
    growth, the chart rows with the current month highlighted, the cache/direct pie of
    the current month, and the two cost-per-million-tokens figures. The growth and the
    token split are the weekly view's (module WeeklyAnalytics). */
module MonthlyAnalytics {
  import opened Seqs
  import opened JsNumber
  import opened Types
  import WA = WeeklyAnalytics

  /** The figures above the chart, or the no-data branch. `shownGrowth` is the growth as
      the page computes it, which may be Infinity or NaN; `monthGrowth` is the guarded
      figure the rest of this model uses. */
  datatype MonthlySummary =
    | NoMonthlyData
    | Summary(totalCost: real, currentMonth: Bucket, previousMonth: Option<Bucket>, shownGrowth: Num, monthGrowth: real)

  /** The component's computation over `state.monthlyData`, with both growth figures. */
  function MonthlySummaryOf(months: seq<Bucket>): MonthlySummary
  {
    if |months| == 0 then NoMonthlyData
    else
      var cur := Last(months);
      var prev := if |months| >= 2 then Some(months[|months| - 2]) else None;
      Summary(SumReal(months, WA.BCost), cur, prev, WA.Growth(cur, prev), WA.GuardedGrowth(cur, prev))
  }

  /** Nothing is computed for no months; otherwise the cost runs over all months, the
      current month is the last and both growth figures compare it with the second to
      last; the guarded one equals the shown one wherever that is a number, 0 otherwise. */
  lemma MonthlySummarySpec(months: seq<Bucket>)
    ensures MonthlySummaryOf(months).NoMonthlyData? <==> months == []
    ensures months != [] ==>
              var s := MonthlySummaryOf(months);
              && s.totalCost == SumReal(months, WA.BCost)
              && s.currentMonth == months[|months| - 1]
              && (|months| == 1 ==> s.previousMonth.None? && s.shownGrowth == Finite(0.0) && s.monthGrowth == 0.0)
              && (|months| >= 2 ==> s.previousMonth == Some(months[|months| - 2])
                                    && s.shownGrowth == WA.Growth(months[|months| - 1], Some(months[|months| - 2]))
                                    && s.monthGrowth == WA.GuardedGrowth(months[|months| - 1], Some(months[|months| - 2])))
              && (s.shownGrowth.Finite? ==> s.shownGrowth == Finite(s.monthGrowth))
              && (!s.shownGrowth.Finite? ==> s.monthGrowth == 0.0)
  {
    if months != [] {
      var cur := Last(months);
      var prev := if |months| >= 2 then Some(months[|months| - 2]) else None;
      WA.GuardedGrowthSpec(cur, prev);
    }
  }

  const Highlight := "#6366F1"
  const Plain := "#8B5CF6"

  /** One `chartData` element. */
  datatype MonthChartRow = MonthChartRow(month: Bucket, monthLabel: string, cacheTokens: nat, directTokens: nat, color: string)

  function RowColor(n: nat, index: nat): string
  {
    if index == n - 1 then Highlight else Plain
  }

  function ChartRowAt(monthLabel: string -> string, n: nat, b: Bucket, index: nat): MonthChartRow
  {
    MonthChartRow(b, monthLabel(b.key), WA.CacheTokens(b), WA.DirectTokens(b), RowColor(n, index))
  }

  /** `monthlyData.map((month, index) => ({ ...month, monthLabel, cacheTokens, directTokens, color }))`. */
  function ChartData(months: seq<Bucket>, monthLabel: string -> string): seq<MonthChartRow>
  {
    var n := |months|;
    MapIndexed(months, (b, index) => ChartRowAt(monthLabel, n, b, index))
  }

  /** One row per month, in order, splitting its tokens as the weekly view does; exactly
      the last row carries the highlight colour. */
  lemma ChartDataSpec(months: seq<Bucket>, monthLabel: string -> string)
    ensures var rows := ChartData(months, monthLabel);
            && |rows| == |months|
            && forall i :: 0 <= i < |rows| ==>
                 && rows[i].month == months[i]
                 && rows[i].cacheTokens == WA.CacheTokens(months[i])
                 && rows[i].directTokens == WA.DirectTokens(months[i])
                 && (rows[i].color == Highlight <==> i == |months| - 1)
  {
  }

  /** One slice of the pie. */
  datatype PieSlice = PieSlice(name: string, value: nat, fill: string)

  function PieData(cur: Bucket): seq<PieSlice>
  {
    [PieSlice("Cache Tokens", WA.CacheTokens(cur), Plain),
     PieSlice("Direct Processing", WA.DirectTokens(cur), Highlight)]
  }

  function SliceValue(p: PieSlice): nat { p.value }

  /** The two slices together are the current month's four token kinds. */
  lemma PieDataSum(cur: Bucket)
    ensures SumNat(PieData(cur), SliceValue) == WA.FourKinds(cur)
  {
    var p := PieData(cur);
    assert Init(p) == [p[0]];
    assert SumNat([p[0]], SliceValue) == SumNat([], SliceValue) + SliceValue(p[0]);
    assert SumNat(p, SliceValue) == SumNat([p[0]], SliceValue) + SliceValue(p[1]);
  }

  /** `month.totalCost / Math.max(1, month.totalTokens / 1000000)`, the table's figure. */
  function TableCostPerMillion(b: Bucket): real
  {
    b.totalCost / MaxReal(1.0, b.totalTokens as real / 1000000.0)
  }

  /** The divisor is never below 1: up to a million tokens the figure is the month's
      cost, beyond it the cost per million tokens. */
  lemma TableCostPerMillionSpec(b: Bucket)
    ensures b.totalTokens <= 1000000 ==> TableCostPerMillion(b) == b.totalCost
    ensures b.totalTokens >= 1000000 ==>
              TableCostPerMillion(b) == b.totalCost / (b.totalTokens as real / 1000000.0)
  {
    DivCompare(b.totalTokens as real, 1000000.0, 1.0);
  }

  /** `Math.max(1, Math.round(totalTokens / 1000000))`. */
  function MillionsRounded(tokens: nat): (r: int)
  {
    var m := Round(tokens as real / 1000000.0);
    if 1 >= m then 1 else m
  }

  /** `currentMonth.totalCost / Math.max(1, Math.round(currentMonth.totalTokens / 1000000))`,
      the summary's figure. */
  function SummaryCostPerMillion(cur: Bucket): real
  {
    cur.totalCost / MillionsRounded(cur.totalTokens) as real
  }

  /** The summary divides by the nearest whole number of millions of tokens (halves
      rounded up), but by at least 1, so below 1.5 million tokens the figure is the
      month's cost itself. */
  lemma SummaryCostPerMillionSpec(cur: Bucket)
    ensures MillionsRounded(cur.totalTokens) >= 1
    ensures cur.totalTokens < 1500000 ==> SummaryCostPerMillion(cur) == cur.totalCost
    ensures cur.totalTokens >= 500000 ==>
              var m := MillionsRounded(cur.totalTokens) as real;
              (m - 0.5) * 1000000.0 <= cur.totalTokens as real < (m + 0.5) * 1000000.0
  {
    var t := cur.totalTokens as real;
    var x := t / 1000000.0;
    var m := Round(x);
    assert x * 1000000.0 == t;
    if cur.totalTokens < 1500000 {
      DivCompare(t, 1000000.0, 1.5);
    }
    if cur.totalTokens >= 500000 {
      DivCompare(t, 1000000.0, 0.5);
      NearestMillion(m, x);
    }
  }

  lemma NearestMillion(m: int, x: real)
    requires m as real - 0.5 <= x < m as real + 0.5
    ensures (m as real - 0.5) * 1000000.0 <= x * 1000000.0 < (m as real + 0.5) * 1000000.0
  {
  }
}
