/** The usage analysis on the About page (`src/components/About.tsx`): average cost per
    session, the most used model, the primary platform, the cache-efficiency percentage
    and the tokens-per-dollar efficiency rating with its colour. */
module About {
  import opened Seqs
  import opened Strings
  import opened Grouping
  import opened Counting
  import opened JsNumber
  import opened Types

  // ---------------------------------------------------------------------------------
  // Efficiency rating

  datatype Tier = Excellent | Good | Fair | Poor

  /** `Math.round(totalTokens / totalCost)` over all sessions. */
  function TokensPerDollar(sessions: seq<UsageSession>): Num
  {
    RoundNum(Div(SumNat(sessions, STokens) as real, SumReal(sessions, SCost)))
  }

  /** The rating chip's label: `r > 400000 ? 'Excellent' : r > 200000 ? 'Good' : r > 100000 ? 'Fair' : 'Poor'`. */
  function TierOf(r: Num): Tier
  {
    if Gt(r, 400000.0) then Excellent
    else if Gt(r, 200000.0) then Good
    else if Gt(r, 100000.0) then Fair
    else Poor
  }

  /** The rating chip's colour, computed by its own chain of the same comparisons. */
  function TierColor(r: Num): string
  {
    if Gt(r, 400000.0) then "success"
    else if Gt(r, 200000.0) then "info"
    else if Gt(r, 100000.0) then "warning"
    else "error"
  }

  function ColorOf(t: Tier): string
  {
    match t
    case Excellent => "success"
    case Good => "info"
    case Fair => "warning"
    case Poor => "error"
  }

  function Rank(t: Tier): nat
  {
    match t
    case Poor => 0
    case Fair => 1
    case Good => 2
    case Excellent => 3
  }

  /** The boundaries are exclusive (400000 tokens per dollar rates Good); an infinite
      figure (cost 0) rates Excellent and NaN (no tokens, no cost) rates Poor. */
  lemma TierBoundaries(x: real)
    ensures TierOf(Finite(x)) == Excellent <==> x > 400000.0
    ensures TierOf(Finite(x)) == Good <==> 200000.0 < x <= 400000.0
    ensures TierOf(Finite(x)) == Fair <==> 100000.0 < x <= 200000.0
    ensures TierOf(Finite(x)) == Poor <==> x <= 100000.0
    ensures TierOf(PosInf) == Excellent && TierOf(NaN) == Poor && TierOf(NegInf) == Poor
  {
  }

  /** More tokens per dollar never rate lower. */
  lemma TierMonotone(x: real, y: real)
    requires x <= y
    ensures Rank(TierOf(Finite(x))) <= Rank(TierOf(Finite(y)))
    ensures Rank(TierOf(Finite(y))) <= Rank(TierOf(PosInf))
  {
  }

  /** The colour always belongs to the label. */
  lemma TierColorMatches(r: Num)
    ensures TierColor(r) == ColorOf(TierOf(r))
  {
  }

  // ---------------------------------------------------------------------------------
  // Cache efficiency

  /** `(s.vscodeData?.cacheReadTokens || 0) + (s.vscodeData?.cacheCreationTokens || 0)`. */
  function CacheOf(s: UsageSession): nat
  {
    if s.vscodeData.None? then 0 else Or0(s.vscodeData.value.cacheReadTokens) + Or0(s.vscodeData.value.cacheCreationTokens)
  }

  function CacheRatio(sessions: seq<UsageSession>): Num
  {
    Div(SumNat(sessions, CacheOf) as real, SumNat(sessions, STokens) as real)
  }

  /** `Math.min(100, Math.round(cache / total * 100))`, the displayed percentage, as
      written. */
  function CacheEfficiency(sessions: seq<UsageSession>): Num
  {
    MinNum(100.0, RoundNum(Scale(CacheRatio(sessions), 100.0)))
  }

  /** With tokens the percentage is a whole number of at most 100; without tokens it is
      100 if there are cache tokens and NaN otherwise. */
  lemma CacheEfficiencySpec(sessions: seq<UsageSession>)
    ensures var cache := SumNat(sessions, CacheOf);
            var total := SumNat(sessions, STokens);
            && (total > 0 ==> CacheEfficiency(sessions).Finite? && 0.0 <= CacheEfficiency(sessions).v <= 100.0
                              && CacheEfficiency(sessions).v.Floor as real == CacheEfficiency(sessions).v)
            && (total == 0 && cache > 0 ==> CacheEfficiency(sessions) == Finite(100.0))
            && (total == 0 && cache == 0 ==> CacheEfficiency(sessions) == NaN)
  {
    ClampedPercent(SumNat(sessions, CacheOf) as real, SumNat(sessions, STokens) as real);
  }

  lemma ClampedPercent(cache: real, total: real)
    requires cache >= 0.0 && total >= 0.0
    ensures var r := MinNum(100.0, RoundNum(Scale(Div(cache, total), 100.0)));
            && (total > 0.0 ==> r.Finite? && 0.0 <= r.v <= 100.0
                                && r.v == if Round((cache / total) * 100.0) as real < 100.0 then Round((cache / total) * 100.0) as real else 100.0)
            && (total == 0.0 && cache > 0.0 ==> r == Finite(100.0))
            && (total == 0.0 && cache == 0.0 ==> r == NaN)
  {
    if total > 0.0 {
      PercentOfRatio(cache, total);
    }
  }

  lemma PercentOfRatio(cache: real, total: real)
    requires cache >= 0.0 && total > 0.0
    ensures Scale(Div(cache, total), 100.0) == Finite((cache / total) * 100.0)
    ensures Round((cache / total) * 100.0) >= 0
  {
    var x := cache / total;
    assert x >= 0.0 by {
      DivCompare(cache, total, 0.0);
    }
    NonNegativeRounds(x * 100.0);
  }

  lemma NonNegativeRounds(x: real)
    requires x >= 0.0
    ensures Round(x) >= 0
  {
  }

  /** A session without any tokens makes the page show NaN%. */
  lemma CacheEfficiencyWithoutTokens()
    ensures CacheEfficiency([UsageSession("s-1", "2025-01-01T10:00:00Z", Web, "claude-3-haiku", 0, 0, 0, 0.0, 300, "Default Project", None)]) == NaN
  {
  }

  /** The percentage with a total of no tokens shown as 0. */
  function GuardedCacheEfficiency(sessions: seq<UsageSession>): real
  {
    var total := SumNat(sessions, STokens);
    if total == 0 then 0.0
    else
      var p := Round((SumNat(sessions, CacheOf) as real / total as real) * 100.0) as real;
      if p < 100.0 then p else 100.0
  }

  /** The guarded percentage is always between 0 and 100 and agrees with the displayed one
      whenever there are tokens. */
  lemma GuardedCacheEfficiencySpec(sessions: seq<UsageSession>)
    ensures 0.0 <= GuardedCacheEfficiency(sessions) <= 100.0
    ensures SumNat(sessions, STokens) > 0 ==> CacheEfficiency(sessions) == Finite(GuardedCacheEfficiency(sessions))
  {
    ClampedPercent(SumNat(sessions, CacheOf) as real, SumNat(sessions, STokens) as real);
  }

  // ---------------------------------------------------------------------------------
  // Most used model and primary platform

  /** `.replace('claude-', '').replace('-20250514', '')`. */
  function ModelLabel(model: string): string
  {
    ReplaceFirst(ReplaceFirst(model, "claude-", ""), "-20250514", "")
  }

  /** The most frequent model, by the count-sort-take-first chain, labelled; 'N/A' when the
      label comes out empty. */
  function MostUsedModel(sessions: seq<UsageSession>): string
  {
    var shown := ModelLabel(MostFrequent(sessions, SModel, ""));
    if shown == "" then "N/A" else shown
  }

  /** The label is that of a model that occurs in the sessions, that no model occurs more
      often than, and that comes first among the models occurring as often. */
  lemma MostUsedModelSpec(sessions: seq<UsageSession>)
    requires sessions != []
    ensures var m := MostFrequent(sessions, SModel, "");
              && m in MapSeq(sessions, SModel)
              && (forall j :: 0 <= j < |sessions| ==> Occurrences(sessions, SModel, SModel(sessions[j])) <= Occurrences(sessions, SModel, m))
              && (forall j :: 0 <= j < |sessions| && Occurrences(sessions, SModel, SModel(sessions[j])) == Occurrences(sessions, SModel, m) ==>
                    exists i :: 0 <= i <= j && SModel(sessions[i]) == m)
              && MostUsedModel(sessions) == if ModelLabel(m) == "" then "N/A" else ModelLabel(m)
  {
    MostFrequentSpec(sessions, SModel, "");
  }

  /** The label of a "claude-" name is the rest of the name without its date suffix, and
      a name with neither part is shown as it is. */
  lemma ModelLabelSpec(rest: string, model: string)
    ensures ModelLabel("claude-" + rest) == ReplaceFirst(rest, "-20250514", "")
    ensures Absent(model, "claude-") && Absent(model, "-20250514") ==> ModelLabel(model) == model
  {
    var s := "claude-" + rest;
    assert s[0..] == s;
    assert StartsWith(s[0..], "claude-");
    ReplaceFirstAt(s, "claude-", "", 0);
    assert s[..0] + "" + s[|"claude-"|..] == rest;
    if Absent(model, "claude-") && Absent(model, "-20250514") {
      ReplaceFirstAbsent(model, "claude-", "");
      ReplaceFirstAbsent(model, "-20250514", "");
    }
  }

  function IsVSCode(s: UsageSession): bool { s.platform == VSCode }
  function IsWeb(s: UsageSession): bool { s.platform == Web }

  /** 'VS Code' when more sessions come from the editor than from the web, 'Web' otherwise. */
  function PrimaryPlatform(sessions: seq<UsageSession>): Platform
  {
    if |Filter(sessions, IsVSCode)| > |Filter(sessions, IsWeb)| then VSCode else Web
  }

  /** The primary platform is the editor exactly when it has more sessions than the web
      (API sessions count for neither). */
  lemma PrimaryPlatformSpec(sessions: seq<UsageSession>)
    ensures PrimaryPlatform(sessions) == VSCode <==> Occurrences(sessions, SPlatform, VSCode) > Occurrences(sessions, SPlatform, Web)
    ensures PrimaryPlatform(sessions) != Api
  {
    SelectIsFilter(sessions, VSCode, IsVSCode);
    SelectIsFilter(sessions, Web, IsWeb);
  }

  lemma {:induction false} SelectIsFilter(sessions: seq<UsageSession>, p: Platform, f: UsageSession -> bool)
    requires forall s :: f(s) == (s.platform == p)
    ensures |Select(sessions, SPlatform, p)| == |Filter(sessions, f)|
    decreases |sessions|
  {
    if sessions != [] {
      SelectIsFilter(Init(sessions), p, f);
    }
  }

  // ---------------------------------------------------------------------------------
  // The analysis panel

  datatype UsageAnalysis =
    | NoUsageData
    | Analysis(averageCost: real, mostUsedModel: string, primaryPlatform: Platform,
               shownCacheEfficiency: Num, cacheEfficiency: real, tier: Tier, tierColor: string)

  /** The "Your Usage" tab: the no-data alert for no sessions, otherwise its figures, the
      cache percentage both as the page computes it (possibly NaN) and guarded. */
  function UsageAnalysisOf(sessions: seq<UsageSession>): UsageAnalysis
  {
    if sessions == [] then NoUsageData
    else
      var r := TokensPerDollar(sessions);
      Analysis(SumReal(sessions, SCost) / |sessions| as real, MostUsedModel(sessions), PrimaryPlatform(sessions),
               CacheEfficiency(sessions), GuardedCacheEfficiency(sessions), TierOf(r), TierColor(r))
  }

  /** The panel shows figures exactly when there are sessions; the average is the mean
      session cost, and the colour is the rating's. The shown cache percentage is the
      page's; the guarded one lies in [0, 100] and equals it whenever there are tokens. */
  lemma UsageAnalysisSpec(sessions: seq<UsageSession>)
    ensures UsageAnalysisOf(sessions).NoUsageData? <==> sessions == []
    ensures sessions != [] ==>
              var a := UsageAnalysisOf(sessions);
              && a.averageCost == SumReal(sessions, SCost) / |sessions| as real
              && a.tierColor == ColorOf(a.tier)
              && a.shownCacheEfficiency == CacheEfficiency(sessions)
              && 0.0 <= a.cacheEfficiency <= 100.0
              && (SumNat(sessions, STokens) > 0 ==> a.shownCacheEfficiency == Finite(a.cacheEfficiency))
  {
    if sessions != [] {
      TierColorMatches(TokensPerDollar(sessions));
      GuardedCacheEfficiencySpec(sessions);
    }
  }
}
