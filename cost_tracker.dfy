/** The cost view (`src/components/CostTracker.tsx`): sessions grouped by model into a
    cost breakdown, the daily costs of the selected range, their average and the
    high-usage alert, the most expensive model and day, the per-model table sorted by
    cost, and the tokens-per-dollar efficiency bars. */
module CostTracker {
  import opened Seqs
  import opened Grouping
  import opened Sorting
  import opened JsNumber
  import opened Types

  // ---------------------------------------------------------------------------------
  // Breakdown by model

  /** One `Object.entries(modelGroups).map(...)` element. */
  function BreakdownOf(model: string, group: seq<UsageSession>): CostBreakdown
  {
    CostBreakdown(model, |group|, SumNat(group, SInput), SumNat(group, SOutput), SumReal(group, SCost))
  }

  function BreakdownEntries(keys: seq<string>, m: map<string, seq<UsageSession>>): seq<CostBreakdown>
    requires forall k :: k in keys ==> k in m
  {
    if keys == [] then []
    else BreakdownEntries(Init(keys), m) + [BreakdownOf(Last(keys), m[Last(keys)])]
  }

  function ModelGroups(sessions: seq<UsageSession>): Groups<string, seq<UsageSession>>
  {
    GroupFold(sessions, SModel, NoItems, Push)
  }

  /** What `calculateCostBreakdown` returns. */
  function CostBreakdownOf(sessions: seq<UsageSession>): seq<CostBreakdown>
  {
    var g := ModelGroups(sessions);
    PartitionSpec(sessions, SModel);
    BreakdownEntries(g.keys, g.m)
  }

  /** `calculateCostBreakdown`: sessions pushed into one array per model, then one entry
      per array. */
  method CalculateCostBreakdown(sessions: seq<UsageSession>) returns (bs: seq<CostBreakdown>)
    ensures bs == CostBreakdownOf(sessions)
  {
    var ok, keys, m := GroupInto(sessions, SModel, NoItems, Push, (s: UsageSession) => false);
    GroupFoldKeys(sessions, SModel, NoItems, Push);
    bs := [];
    var i := 0;
    while i < |keys|
      invariant 0 <= i <= |keys|
      invariant bs == BreakdownEntries(keys[..i], m)
    {
      assert keys[..i + 1] == keys[..i] + [keys[i]];
      InitOfSnoc(keys[..i], keys[i]);
      bs := bs + [BreakdownOf(keys[i], m[keys[i]])];
      i := i + 1;
    }
    assert keys[..i] == keys;
  }

  function BModel(b: CostBreakdown): string { b.model }
  function BSessions(b: CostBreakdown): nat { b.sessions }
  function BInput(b: CostBreakdown): nat { b.inputTokens }
  function BOutput(b: CostBreakdown): nat { b.outputTokens }
  function BCost(b: CostBreakdown): real { b.totalCost }
  function OneSession(s: UsageSession): nat { 1 }

  lemma {:induction false} BreakdownEntriesAt(keys: seq<string>, m: map<string, seq<UsageSession>>)
    requires forall k :: k in keys ==> k in m
    ensures var bs := BreakdownEntries(keys, m);
            && |bs| == |keys|
            && forall i :: 0 <= i < |bs| ==> bs[i] == BreakdownOf(keys[i], m[keys[i]])
    decreases |keys|
  {
    if keys != [] {
      BreakdownEntriesAt(Init(keys), m);
    }
  }

  /** One entry per model that occurs, in order of first appearance, counting at least
      one session and summing the tokens and cost of exactly that model's sessions. */
  lemma CostBreakdownSpec(sessions: seq<UsageSession>)
    ensures var bs := CostBreakdownOf(sessions);
            && MapSeq(bs, BModel) == Dedup(MapSeq(sessions, SModel))
            && forall i :: 0 <= i < |bs| ==>
                 var group := Select(sessions, SModel, bs[i].model);
                 && bs[i].sessions == |group| >= 1
                 && bs[i].inputTokens == SumNat(group, SInput)
                 && bs[i].outputTokens == SumNat(group, SOutput)
                 && bs[i].totalCost == SumReal(group, SCost)
  {
    var g := ModelGroups(sessions);
    PartitionSpec(sessions, SModel);
    BreakdownEntriesAt(g.keys, g.m);
  }

  lemma {:induction false} BreakdownEntriesSums(keys: seq<string>, m: map<string, seq<UsageSession>>,
                                                sessions: seq<UsageSession>)
    requires forall k :: k in keys ==> k in m && m[k] == Select(sessions, SModel, k)
    ensures var bs := BreakdownEntries(keys, m);
            && SumNat(bs, BSessions) == SumPerKeyNat(keys, sessions, SModel, OneSession)
            && SumNat(bs, BInput) == SumPerKeyNat(keys, sessions, SModel, SInput)
            && SumNat(bs, BOutput) == SumPerKeyNat(keys, sessions, SModel, SOutput)
            && SumReal(bs, BCost) == SumPerKeyReal(keys, sessions, SModel, SCost)
    decreases |keys|
  {
    if keys != [] {
      var k := Last(keys);
      BreakdownEntriesSums(Init(keys), m, sessions);
      InitOfSnoc(BreakdownEntries(Init(keys), m), BreakdownOf(k, m[k]));
      SumOnes(m[k], OneSession);
    }
  }

  /** The breakdown accounts for every session: the counts add up to the number of
      sessions, and tokens and cost (the view's `totalCost`) to the sessions' totals. */
  lemma CostBreakdownConserves(sessions: seq<UsageSession>)
    ensures var bs := CostBreakdownOf(sessions);
            && SumNat(bs, BSessions) == |sessions|
            && SumNat(bs, BInput) == SumNat(sessions, SInput)
            && SumNat(bs, BOutput) == SumNat(sessions, SOutput)
            && SumReal(bs, BCost) == SumReal(sessions, SCost)
  {
    var g := ModelGroups(sessions);
    PartitionSpec(sessions, SModel);
    GroupFoldKeys(sessions, SModel, NoItems, Push);
    BreakdownEntriesSums(g.keys, g.m, sessions);
    SumPerKeyNatConserves(g.keys, sessions, SModel, OneSession);
    SumPerKeyNatConserves(g.keys, sessions, SModel, SInput);
    SumPerKeyNatConserves(g.keys, sessions, SModel, SOutput);
    SumPerKeyRealConserves(g.keys, sessions, SModel, SCost);
    SumOnes(sessions, OneSession);
  }

  // ---------------------------------------------------------------------------------
  // Daily costs

  /** One `dailyCosts` element; `date` is the locale label of the series' date. */
  datatype DailyCost = DailyCost(date: string, cost: real, sessions: nat)

  function DCost(d: DailyCost): real { d.cost }
  function TCost(t: TimeSeriesData): real { t.cost }

  /** `calculateDailyCosts`, given the time series of the selected range and the date
      label `toLocaleDateString` gives. */
  function DailyCosts(series: seq<TimeSeriesData>, dateLabel: string -> string): seq<DailyCost>
  {
    MapSeq(series, (t: TimeSeriesData) => DailyCost(dateLabel(t.date), t.cost, t.sessions))
  }

  lemma {:induction false} DailyCostsSum(series: seq<TimeSeriesData>, dateLabel: string -> string)
    ensures |DailyCosts(series, dateLabel)| == |series|
    ensures SumReal(DailyCosts(series, dateLabel), DCost) == SumReal(series, TCost)
    decreases |series|
  {
    if series != [] {
      DailyCostsSum(Init(series), dateLabel);
      assert Init(DailyCosts(series, dateLabel)) == DailyCosts(Init(series), dateLabel);
    }
  }

  /** `averageDailyCost`: the cost sum over at least one day. */
  function AverageDailyCost(days: seq<DailyCost>): real
  {
    SumReal(days, DCost) / MaxNat(|days|, 1) as real
  }

  /** `averageDailyCost > 1`. */
  predicate HighUsageAlert(days: seq<DailyCost>)
  {
    AverageDailyCost(days) > 1.0
  }

  /** No days average to zero; otherwise the average is the plain mean. */
  lemma AverageDailyCostSpec(days: seq<DailyCost>)
    ensures days == [] ==> AverageDailyCost(days) == 0.0
    ensures days != [] ==> AverageDailyCost(days) == SumReal(days, DCost) / |days| as real
  {
  }

  lemma {:induction false} SumRealAtMost(days: seq<DailyCost>, c: real)
    requires forall i :: 0 <= i < |days| ==> days[i].cost <= c
    ensures SumReal(days, DCost) <= |days| as real * c
    decreases |days|
  {
    if days != [] {
      SumRealAtMost(Init(days), c);
    }
  }

  /** The alert shows exactly when the days cost more than one dollar each on average,
      and then at least one day costs more than a dollar. */
  lemma HighUsageAlertSpec(days: seq<DailyCost>)
    ensures HighUsageAlert(days) <==> SumReal(days, DCost) > |days| as real
    ensures HighUsageAlert(days) ==> exists i :: 0 <= i < |days| && days[i].cost > 1.0
  {
    var n := MaxNat(|days|, 1) as real;
    DivCompare(SumReal(days, DCost), n, 1.0);
    if forall i :: 0 <= i < |days| ==> days[i].cost <= 1.0 {
      SumRealAtMost(days, 1.0);
    }
  }

  // ---------------------------------------------------------------------------------
  // Arg-max selections

  /** The seed `{ model: "N/A", totalCost: 0 }`. */
  const NoModel := CostBreakdown("N/A", 0, 0, 0, 0.0)

  /** `costBreakdown.reduce((max, item) => item.totalCost > max.totalCost ? item : max, costBreakdown[0] || NoModel)`. */
  function MostExpensiveModel(bs: seq<CostBreakdown>): CostBreakdown
  {
    MaxBy(bs, BCost, if bs == [] then NoModel else bs[0])
  }

  /** The seed `{ date: "N/A", cost: 0 }`. */
  const NoDay := DailyCost("N/A", 0.0, 0)

  /** `dailyCosts.reduce((max, item) => item.cost > max.cost ? item : max, dailyCosts[0] || NoDay)`. */
  function HighestCostDay(days: seq<DailyCost>): DailyCost
  {
    MaxBy(days, DCost, if days == [] then NoDay else days[0])
  }

  /** The most expensive model is the placeholder for no models, and otherwise the first
      entry whose cost no other entry exceeds. */
  lemma MostExpensiveModelSpec(bs: seq<CostBreakdown>)
    ensures bs == [] ==> MostExpensiveModel(bs) == NoModel
    ensures bs != [] ==>
              exists i :: 0 <= i < |bs| && MostExpensiveModel(bs) == bs[i]
                && (forall j :: 0 <= j < |bs| ==> bs[j].totalCost <= bs[i].totalCost)
                && (forall j :: 0 <= j < i ==> bs[j].totalCost < bs[i].totalCost)
  {
    if bs != [] {
      MaxBySeededWithHead(bs, BCost);
      var i := FirstMaxIndex(bs, BCost);
      assert forall j :: 0 <= j < |bs| ==> BCost(bs[j]) <= BCost(bs[i]);
      assert forall j :: 0 <= j < i ==> BCost(bs[j]) < BCost(bs[i]);
    }
  }

  /** The costliest day is the placeholder for no days, and otherwise the first day that
      no other day exceeds. */
  lemma HighestCostDaySpec(days: seq<DailyCost>)
    ensures days == [] ==> HighestCostDay(days) == NoDay
    ensures days != [] ==>
              exists i :: 0 <= i < |days| && HighestCostDay(days) == days[i]
                && (forall j :: 0 <= j < |days| ==> days[j].cost <= days[i].cost)
                && (forall j :: 0 <= j < i ==> days[j].cost < days[i].cost)
  {
    if days != [] {
      MaxBySeededWithHead(days, DCost);
      var i := FirstMaxIndex(days, DCost);
      assert forall j :: 0 <= j < |days| ==> DCost(days[j]) <= DCost(days[i]);
      assert forall j :: 0 <= j < i ==> DCost(days[j]) < DCost(days[i]);
    }
  }

  // ---------------------------------------------------------------------------------
  // The model table

  /** `costBreakdown.sort((a, b) => b.totalCost - a.totalCost)`, in place. */
  method SortByCost(a: array<CostBreakdown>)
    modifies a
    ensures a[..] == SortDesc(old(a[..]), BCost)
  {
    SortDescInPlace(a, BCost);
  }

  /** The sorted table lists the same entries by non-increasing cost, entries of equal
      cost in breakdown order. */
  lemma SortByCostSpec(bs: seq<CostBreakdown>)
    ensures SortedDesc(SortDesc(bs, BCost), BCost)
    ensures multiset(SortDesc(bs, BCost)) == multiset(bs)
    ensures forall c :: Select(SortDesc(bs, BCost), BCost, c) == Select(bs, BCost, c)
  {
    SortDescSpec(bs, BCost);
  }

  /** `model.totalCost / model.sessions`. */
  function CostPerSession(b: CostBreakdown): Num
  {
    Div(b.totalCost, b.sessions as real)
  }

  /** `(model.totalCost / (model.inputTokens + model.outputTokens)) * 1000`. */
  function CostPerThousand(b: CostBreakdown): Num
  {
    Scale(Div(b.totalCost, (b.inputTokens + b.outputTokens) as real), 1000.0)
  }

  /** Every entry of a breakdown has a session, so its cost per session is a number. */
  lemma CostPerSessionDefined(sessions: seq<UsageSession>)
    ensures var bs := CostBreakdownOf(sessions);
            forall i :: 0 <= i < |bs| ==>
              bs[i].sessions > 0 && CostPerSession(bs[i]) == Finite(bs[i].totalCost / bs[i].sessions as real)
  {
    CostBreakdownSpec(sessions);
  }

  /** The cost per thousand tokens is a number exactly when the model used tokens; a
      positive cost over no tokens shows as Infinity, none as NaN. */
  lemma CostPerThousandSpec(b: CostBreakdown)
    ensures CostPerThousand(b).Finite? <==> b.inputTokens + b.outputTokens > 0
    ensures CostPerThousand(b).Finite? ==>
              CostPerThousand(b).v == (b.totalCost / (b.inputTokens + b.outputTokens) as real) * 1000.0
    ensures b.inputTokens + b.outputTokens == 0 ==>
              CostPerThousand(b) == if b.totalCost > 0.0 then PosInf else if b.totalCost < 0.0 then NegInf else NaN
  {
  }

  // ---------------------------------------------------------------------------------
  // Efficiency bars

  /** `(model.inputTokens + model.outputTokens) / model.totalCost`, as written. */
  function Efficiency(b: CostBreakdown): Num
  {
    Div((b.inputTokens + b.outputTokens) as real, b.totalCost)
  }

  /** A model whose sessions cost nothing gets an infinite (or, without tokens, NaN)
      tokens-per-dollar figure. */
  lemma EfficiencyAtZeroCost()
    ensures Efficiency(CostBreakdown("claude-3-haiku", 1, 100, 50, 0.0)) == PosInf
    ensures Efficiency(CostBreakdown("claude-3-haiku", 1, 0, 0, 0.0)) == NaN
  {
  }

  /** Tokens per dollar, 0 for a model without cost. */
  function GuardedEfficiency(b: CostBreakdown): (r: real)
  {
    if b.totalCost > 0.0 then (b.inputTokens + b.outputTokens) as real / b.totalCost else 0.0
  }

  /** The guarded figure is never negative, and agrees with the division wherever the
      cost is positive. */
  lemma GuardedEfficiencySpec(b: CostBreakdown)
    ensures GuardedEfficiency(b) >= 0.0
    ensures b.totalCost > 0.0 ==> Efficiency(b) == Finite(GuardedEfficiency(b))
    ensures b.totalCost <= 0.0 ==> GuardedEfficiency(b) == 0.0
  {
    var t := (b.inputTokens + b.outputTokens) as real;
    if b.totalCost > 0.0 {
      DivCompare(t, b.totalCost, 0.0);
    }
  }

  function MaxEfficiency(bs: seq<CostBreakdown>): real
  {
    if bs == [] then 0.0 else MaxReal(MaxEfficiency(Init(bs)), GuardedEfficiency(Last(bs)))
  }

  lemma {:induction false} MaxEfficiencySpec(bs: seq<CostBreakdown>)
    ensures MaxEfficiency(bs) >= 0.0
    ensures forall i :: 0 <= i < |bs| ==> GuardedEfficiency(bs[i]) <= MaxEfficiency(bs)
    ensures bs != [] ==> exists i :: 0 <= i < |bs| && GuardedEfficiency(bs[i]) == MaxEfficiency(bs)
    decreases |bs|
  {
    if bs != [] {
      MaxEfficiencySpec(Init(bs));
      assert forall i :: 0 <= i < |bs| - 1 ==> bs[i] == Init(bs)[i];
      if MaxEfficiency(bs) != GuardedEfficiency(Last(bs)) && |bs| > 1 {
        var i :| 0 <= i < |Init(bs)| && GuardedEfficiency(Init(bs)[i]) == MaxEfficiency(Init(bs));
        assert GuardedEfficiency(bs[i]) == MaxEfficiency(bs);
      }
    }
  }

  /** `(efficiency / maxEfficiency) * 100` on the guarded figures, 0 when no model has any. */
  function EfficiencyPercentage(b: CostBreakdown, bs: seq<CostBreakdown>): real
  {
    var mx := MaxEfficiency(bs);
    if mx > 0.0 then (GuardedEfficiency(b) / mx) * 100.0 else 0.0
  }

  /** Every bar is between 0 and 100 percent, and the most efficient model's bar is full
      whenever some model has a positive figure. */
  lemma EfficiencyPercentageSpec(bs: seq<CostBreakdown>)
    ensures forall i :: 0 <= i < |bs| ==> 0.0 <= EfficiencyPercentage(bs[i], bs) <= 100.0
    ensures MaxEfficiency(bs) > 0.0 ==>
              exists i :: 0 <= i < |bs| && EfficiencyPercentage(bs[i], bs) == 100.0
  {
    var mx := MaxEfficiency(bs);
    MaxEfficiencySpec(bs);
    forall i | 0 <= i < |bs|
      ensures 0.0 <= EfficiencyPercentage(bs[i], bs) <= 100.0
    {
      GuardedEfficiencySpec(bs[i]);
      if mx > 0.0 {
        RatioAtMostOne(GuardedEfficiency(bs[i]), mx);
      }
    }
    if mx > 0.0 {
      var i :| 0 <= i < |bs| && GuardedEfficiency(bs[i]) == mx;
      FullBar(mx);
    }
  }

  /** `Math.max(...costBreakdown.map(m => (m.inputTokens + m.outputTokens) / m.totalCost))`,
      as written; the cards are rendered only for a non-empty breakdown. */
  function PageMaxEfficiency(bs: seq<CostBreakdown>): Num
  {
    if bs == [] then NegInf else MaxNum(PageMaxEfficiency(Init(bs)), Efficiency(Last(bs)))
  }

  /** `(efficiency / maxEfficiency) * 100`, the bar as the page computes it. */
  function ShownPercentage(b: CostBreakdown, bs: seq<CostBreakdown>): Num
  {
    Scale(DivNum(Efficiency(b), PageMaxEfficiency(bs)), 100.0)
  }

  /** When every model has a cost, the page's maximum is the guarded one. */
  lemma {:induction false} PageMaxOfCosted(bs: seq<CostBreakdown>)
    requires forall j :: 0 <= j < |bs| ==> bs[j].totalCost > 0.0
    ensures bs != [] ==> PageMaxEfficiency(bs) == Finite(MaxEfficiency(bs))
    decreases |bs|
  {
    if bs != [] {
      GuardedEfficiencySpec(Last(bs));
      assert forall j :: 0 <= j < |Init(bs)| ==> Init(bs)[j] == bs[j];
      PageMaxOfCosted(Init(bs));
    }
  }

  /** One NaN efficiency makes the page's maximum NaN. */
  lemma {:induction false} PageMaxNaN(bs: seq<CostBreakdown>, j: nat)
    requires j < |bs| && Efficiency(bs[j]) == NaN
    ensures PageMaxEfficiency(bs) == NaN
    decreases |bs|
  {
    if j < |bs| - 1 {
      assert Init(bs)[j] == bs[j];
      PageMaxNaN(Init(bs), j);
    }
  }

  /** Without NaN, one infinite efficiency makes the page's maximum infinite. */
  lemma {:induction false} PageMaxPosInf(bs: seq<CostBreakdown>, j: nat)
    requires j < |bs| && Efficiency(bs[j]) == PosInf
    requires forall k :: 0 <= k < |bs| ==> Efficiency(bs[k]) != NaN
    ensures PageMaxEfficiency(bs) == PosInf
    decreases |bs|
  {
    if j < |bs| - 1 {
      assert Init(bs)[j] == bs[j];
      assert forall k :: 0 <= k < |Init(bs)| ==> Init(bs)[k] == bs[k];
      PageMaxPosInf(Init(bs), j);
    }
    PageMaxNotNaN(bs);
  }

  lemma {:induction false} PageMaxNotNaN(bs: seq<CostBreakdown>)
    requires forall k :: 0 <= k < |bs| ==> Efficiency(bs[k]) != NaN
    ensures PageMaxEfficiency(bs) != NaN
    decreases |bs|
  {
    if bs != [] {
      assert forall k :: 0 <= k < |Init(bs)| ==> Init(bs)[k] == bs[k];
      PageMaxNotNaN(Init(bs));
    }
  }

  /** When every model has a cost and some model has tokens, the page's bars are the
      guarded ones. */
  lemma ShownPercentageOfCosted(bs: seq<CostBreakdown>)
    requires forall j :: 0 <= j < |bs| ==> bs[j].totalCost > 0.0
    ensures MaxEfficiency(bs) > 0.0 ==>
              forall i :: 0 <= i < |bs| ==> ShownPercentage(bs[i], bs) == Finite(EfficiencyPercentage(bs[i], bs))
  {
    if MaxEfficiency(bs) > 0.0 {
      PageMaxOfCosted(bs);
      forall i | 0 <= i < |bs|
        ensures ShownPercentage(bs[i], bs) == Finite(EfficiencyPercentage(bs[i], bs))
      {
        GuardedEfficiencySpec(bs[i]);
      }
    }
  }

  /** When every model has a cost but none has input or output tokens, the page divides
      0 by a maximum of 0 and every bar is NaN, where the guarded bar is 0. */
  lemma ShownPercentageWithoutTokens(bs: seq<CostBreakdown>)
    requires forall j :: 0 <= j < |bs| ==> bs[j].totalCost > 0.0
    ensures bs != [] && MaxEfficiency(bs) == 0.0 ==>
              forall i :: 0 <= i < |bs| ==> ShownPercentage(bs[i], bs) == NaN && EfficiencyPercentage(bs[i], bs) == 0.0
  {
    if bs != [] && MaxEfficiency(bs) == 0.0 {
      PageMaxOfCosted(bs);
      MaxEfficiencySpec(bs);
      forall i | 0 <= i < |bs|
        ensures ShownPercentage(bs[i], bs) == NaN && EfficiencyPercentage(bs[i], bs) == 0.0
      {
        GuardedEfficiencySpec(bs[i]);
        ZeroEfficiency(bs[i]);
      }
    }
  }

  lemma ZeroEfficiency(b: CostBreakdown)
    requires b.totalCost > 0.0 && GuardedEfficiency(b) <= 0.0
    ensures Efficiency(b) == Finite(0.0)
  {
    var t := (b.inputTokens + b.outputTokens) as real;
    if t > 0.0 {
      DivCompare(t, b.totalCost, 0.0);
    }
  }

  /** A free model spoils every bar: with no tokens its NaN makes every bar NaN; with
      tokens its Infinity is the maximum, so every finite figure shows 0 and every infinite
      one NaN. */
  lemma ShownPercentageWithFreeModel(bs: seq<CostBreakdown>, j: nat)
    requires j < |bs| && bs[j].totalCost == 0.0
    ensures bs[j].inputTokens + bs[j].outputTokens == 0 ==>
              forall i :: 0 <= i < |bs| ==> ShownPercentage(bs[i], bs) == NaN
    ensures bs[j].inputTokens + bs[j].outputTokens > 0 && (forall k :: 0 <= k < |bs| ==> Efficiency(bs[k]) != NaN) ==>
              forall i :: 0 <= i < |bs| ==>
                ShownPercentage(bs[i], bs) == if Efficiency(bs[i]).Finite? then Finite(0.0) else NaN
  {
    if bs[j].inputTokens + bs[j].outputTokens == 0 {
      PageMaxNaN(bs, j);
    } else if forall k :: 0 <= k < |bs| ==> Efficiency(bs[k]) != NaN {
      PageMaxPosInf(bs, j);
    }
  }

  /** A cache-only model: it has a cost but no input or output tokens, so the page's
      only bar is NaN while the guarded bar is 0. */
  lemma BarWithoutTokens()
    ensures ShownPercentage(CostBreakdown("claude-3-haiku", 1, 0, 0, 0.5), [CostBreakdown("claude-3-haiku", 1, 0, 0, 0.5)]) == NaN
    ensures EfficiencyPercentage(CostBreakdown("claude-3-haiku", 1, 0, 0, 0.5), [CostBreakdown("claude-3-haiku", 1, 0, 0, 0.5)]) == 0.0
  {
  }

  lemma FullBar(mx: real)
    requires mx > 0.0
    ensures (mx / mx) * 100.0 == 100.0
  {
  }

  lemma RatioAtMostOne(e: real, mx: real)
    requires 0.0 <= e <= mx && mx > 0.0
    ensures 0.0 <= (e / mx) * 100.0 <= 100.0
  {
    DivCompare(e, mx, 1.0);
    DivCompare(e, mx, 0.0);
    if e == mx {
      assert e / mx == 1.0;
    }
  }
}
