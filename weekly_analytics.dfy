/** The weekly view (`src/components/WeeklyAnalytics.tsx`): totals over all weeks, the
    current and previous week, week-over-week cost growth, and the split of each week's
    tokens into cache and direct processing. */
module WeeklyAnalytics {
  import opened Seqs
  import opened JsNumber
  import opened Types

  function BTotal(b: Bucket): nat { b.totalTokens }
  function BCost(b: Bucket): real { b.totalCost }

  /** `cacheCreationTokens + cacheReadTokens`. */
  function CacheTokens(b: Bucket): nat { b.cacheCreationTokens + b.cacheReadTokens }

  /** `inputTokens + outputTokens`. */
  function DirectTokens(b: Bucket): nat { b.inputTokens + b.outputTokens }

  /** The four token kinds together. */
  function FourKinds(b: Bucket): nat
  {
    b.inputTokens + b.outputTokens + b.cacheCreationTokens + b.cacheReadTokens
  }

  /** `prev ? ((cur.totalCost - prev.totalCost) / prev.totalCost) * 100 : 0`, as written:
      a previous period that cost nothing divides by zero. */
  function Growth(cur: Bucket, prev: Option<Bucket>): Num
  {
    if prev.None? then Finite(0.0)
    else Scale(Div(cur.totalCost - prev.value.totalCost, prev.value.totalCost), 100.0)
  }

  /** Without a previous period the growth is 0; with one it is a number exactly when
      that period cost something, and otherwise Infinity, -Infinity or NaN after the
      sign of the current cost. */
  lemma GrowthSpec(cur: Bucket, prev: Option<Bucket>)
    ensures prev.None? ==> Growth(cur, prev) == Finite(0.0)
    ensures prev.Some? ==> (Growth(cur, prev).Finite? <==> prev.value.totalCost != 0.0)
    ensures prev.Some? && prev.value.totalCost == 0.0 ==>
              Growth(cur, prev) == if cur.totalCost > 0.0 then PosInf else if cur.totalCost < 0.0 then NegInf else NaN
  {
  }

  /** A previous week of cost 0 followed by one of cost 2 shows infinite growth. */
  lemma GrowthFromFreeWeek()
    ensures Growth(Bucket("2025-01-06", 0, 0, 0, 0, 10, 2.0, [], []),
                   Some(Bucket("2024-12-30", 0, 0, 0, 0, 0, 0.0, [], []))) == PosInf
  {
  }

  /** Growth in percent where there is something to compare with, 0 otherwise. */
  function GuardedGrowth(cur: Bucket, prev: Option<Bucket>): real
  {
    if prev.Some? && prev.value.totalCost != 0.0
    then ((cur.totalCost - prev.value.totalCost) / prev.value.totalCost) * 100.0
    else 0.0
  }

  /** The guarded growth agrees with the division wherever that is a number, and for a
      previous period that cost something its sign says whether the cost went up. */
  lemma GuardedGrowthSpec(cur: Bucket, prev: Option<Bucket>)
    ensures Growth(cur, prev).Finite? ==> Growth(cur, prev) == Finite(GuardedGrowth(cur, prev))
    ensures !Growth(cur, prev).Finite? ==> GuardedGrowth(cur, prev) == 0.0
    ensures prev.Some? && prev.value.totalCost > 0.0 ==>
              (GuardedGrowth(cur, prev) >= 0.0 <==> cur.totalCost >= prev.value.totalCost)
  {
    if prev.Some? && prev.value.totalCost > 0.0 {
      PercentSign(cur.totalCost - prev.value.totalCost, prev.value.totalCost);
    }
  }

  lemma PercentSign(a: real, p: real)
    requires p > 0.0
    ensures (a / p) * 100.0 >= 0.0 <==> a >= 0.0
  {
    DivCompare(a, p, 0.0);
  }

  /** The figures above the chart, or the no-data branch. `shownGrowth` is the growth as
      the page computes it, which may be Infinity or NaN; `weekGrowth` is the guarded
      figure the rest of this model uses. */
  datatype WeeklySummary =
    | NoWeeklyData
    | Summary(weeks: nat, totalTokens: nat, totalCost: real, currentWeek: Bucket,
              previousWeek: Option<Bucket>, shownGrowth: Num, weekGrowth: real)

  /** The component's computation over `state.weeklyData`, with both growth figures. */
  function WeeklySummaryOf(weeks: seq<Bucket>): WeeklySummary
  {
    if |weeks| == 0 then NoWeeklyData
    else
      var cur := Last(weeks);
      var prev := if |weeks| >= 2 then Some(weeks[|weeks| - 2]) else None;
      Summary(|weeks|, SumNat(weeks, BTotal), SumReal(weeks, BCost), cur, prev, Growth(cur, prev), GuardedGrowth(cur, prev))
  }

  /** Nothing is computed for no weeks; otherwise the totals run over all weeks, the
      current week is the last and the previous one the second to last, if any. The
      shown growth compares the last two weeks by the unguarded division; the guarded
      one equals it wherever that is a number and is 0 otherwise. */
  lemma WeeklySummarySpec(weeks: seq<Bucket>)
    ensures WeeklySummaryOf(weeks).NoWeeklyData? <==> weeks == []
    ensures weeks != [] ==>
              var s := WeeklySummaryOf(weeks);
              && s.weeks == |weeks|
              && s.totalTokens == SumNat(weeks, BTotal) && s.totalCost == SumReal(weeks, BCost)
              && s.currentWeek == weeks[|weeks| - 1]
              && (|weeks| == 1 <==> s.previousWeek.None?)
              && (|weeks| >= 2 ==> s.previousWeek == Some(weeks[|weeks| - 2]))
              && (|weeks| == 1 ==> s.shownGrowth == Finite(0.0) && s.weekGrowth == 0.0)
              && (|weeks| >= 2 ==> s.shownGrowth == Growth(weeks[|weeks| - 1], Some(weeks[|weeks| - 2]))
                                   && s.weekGrowth == GuardedGrowth(weeks[|weeks| - 1], Some(weeks[|weeks| - 2])))
              && (s.shownGrowth.Finite? ==> s.shownGrowth == Finite(s.weekGrowth))
              && (!s.shownGrowth.Finite? ==> s.weekGrowth == 0.0)
  {
    if weeks != [] {
      var cur := Last(weeks);
      var prev := if |weeks| >= 2 then Some(weeks[|weeks| - 2]) else None;
      GuardedGrowthSpec(cur, prev);
    }
  }

  /** One `chartData` element: the week with its label and its two token figures. */
  datatype WeekChartRow = WeekChartRow(week: Bucket, weekLabel: string, cacheTokens: nat, directTokens: nat)

  function ChartRowOf(weekLabel: string -> string, b: Bucket): WeekChartRow
  {
    WeekChartRow(b, weekLabel(b.key), CacheTokens(b), DirectTokens(b))
  }

  /** `weeklyData.map(week => ({ ...week, weekLabel, cacheTokens, directTokens }))`. */
  function ChartData(weeks: seq<Bucket>, weekLabel: string -> string): seq<WeekChartRow>
  {
    MapSeq(weeks, b => ChartRowOf(weekLabel, b))
  }

  function RowStack(r: WeekChartRow): nat { r.cacheTokens + r.directTokens }

  /** Each bar stacks exactly the four token kinds of its week, so the stacks of the
      chart add up to the four kinds over all weeks. */
  lemma {:induction false} ChartDataSpec(weeks: seq<Bucket>, weekLabel: string -> string)
    ensures var rows := ChartData(weeks, weekLabel);
            && |rows| == |weeks|
            && (forall i :: 0 <= i < |rows| ==>
                  rows[i].week == weeks[i] && rows[i].cacheTokens + rows[i].directTokens == FourKinds(weeks[i]))
            && SumNat(rows, RowStack) == SumNat(weeks, FourKinds)
    decreases |weeks|
  {
    if weeks != [] {
      ChartDataSpec(Init(weeks), weekLabel);
      assert Init(ChartData(weeks, weekLabel)) == ChartData(Init(weeks), weekLabel);
    }
  }

  /** `((week.inputTokens + week.outputTokens) / week.totalTokens) * 100`, as displayed
      for the current week. */
  function DirectShare(b: Bucket): Num
  {
    Scale(Div(DirectTokens(b) as real, b.totalTokens as real), 100.0)
  }

  /** `((week.cacheCreationTokens + week.cacheReadTokens) / week.totalTokens) * 100`. */
  function CacheShare(b: Bucket): Num
  {
    Scale(Div(CacheTokens(b) as real, b.totalTokens as real), 100.0)
  }

  /** Both shares are numbers exactly for a week with tokens; when its total is the four
      kinds together they add up to 100 percent. */
  lemma SharesSpec(b: Bucket)
    ensures DirectShare(b).Finite? <==> b.totalTokens > 0
    ensures CacheShare(b).Finite? <==> b.totalTokens > 0
    ensures b.totalTokens > 0 && b.totalTokens == FourKinds(b) ==>
              DirectShare(b).v + CacheShare(b).v == 100.0
  {
    if b.totalTokens > 0 && b.totalTokens == FourKinds(b) {
      var t := b.totalTokens as real;
      SplitShares(DirectTokens(b) as real, CacheTokens(b) as real, t);
    }
  }

  lemma SplitShares(d: real, c: real, t: real)
    requires t > 0.0 && d + c == t
    ensures (d / t) * 100.0 + (c / t) * 100.0 == 100.0
  {
    assert d / t + c / t == (d + c) / t;
  }
}
