/** The project view (`src/components/ProjectAnalytics.tsx`): one entry per project of the
    store's project table, the totals, the pie of token shares, the "Most Active Project"
    headline, the detail table that sorts the entries by tokens IN PLACE, and the bar
    chart of the first ten entries, which therefore come in sorted order only while the
    detail table is shown. */
module ProjectAnalytics {
  import opened Seqs
  import opened Grouping
  import opened Sorting
  import opened JsNumber
  import opened Types

  /** One element of `projectMetrics`; `lastActivityDate` is the project's `lastActive`,
      which may be absent. */
  datatype ProjectEntry = ProjectEntry(
    name: string,
    path: string,
    sessions: nat,
    totalTokens: nat,
    totalCost: real,
    percentageOfTotal: real,
    averageSessionDuration: real,
    lastActivityDate: Option<string>)

  /** The entry of project `name` when the store holds `sessionCount` sessions. */
  function EntryOf(name: string, d: ProjectData, sessionCount: nat): ProjectEntry
  {
    ProjectEntry(
      name, name, d.totalSessions, d.totalTokens, d.totalCost,
      if sessionCount > 0 then (d.totalSessions as real / sessionCount as real) * 100.0 else 0.0,
      if d.totalSessions > 0 then (d.totalTokens as real / d.totalSessions as real) / 1000.0 else 0.0,
      d.lastActive)
  }

  /** `Object.entries(projectData).map(...)` over the keys in order (a key without an entry
      contributes nothing). */
  function Entries(keys: seq<string>, m: map<string, ProjectData>, sessionCount: nat): seq<ProjectEntry>
  {
    if keys == [] then []
    else
      var front := Entries(Init(keys), m, sessionCount);
      if Last(keys) in m then front + [EntryOf(Last(keys), m[Last(keys)], sessionCount)] else front
  }

  /** `projectMetrics` for the project table and `state.sessions.length`. */
  function ProjectMetricsOf(g: Groups<string, ProjectData>, sessionCount: nat): seq<ProjectEntry>
  {
    Entries(g.keys, g.m, sessionCount)
  }

  function ETokens(e: ProjectEntry): nat { e.totalTokens }
  function EKey(e: ProjectEntry): real { e.totalTokens as real }
  function ECost(e: ProjectEntry): real { e.totalCost }
  function ESessions(e: ProjectEntry): nat { e.sessions }
  function EShare(e: ProjectEntry): real { e.percentageOfTotal }
  function DTokens(d: ProjectData): nat { d.totalTokens }
  function DCost(d: ProjectData): real { d.totalCost }
  function DSessions(d: ProjectData): nat { d.totalSessions }

  lemma {:induction false} EntriesAt(keys: seq<string>, m: map<string, ProjectData>, sessionCount: nat)
    requires forall k :: k in keys ==> k in m
    ensures var es := Entries(keys, m, sessionCount);
            && |es| == |keys|
            && forall i :: 0 <= i < |es| ==> es[i] == EntryOf(keys[i], m[keys[i]], sessionCount)
    decreases |keys|
  {
    if keys != [] {
      EntriesAt(Init(keys), m, sessionCount);
    }
  }

  /** The view shows its no-data message exactly when the table has no projects. */
  lemma ProjectMetricsEmpty(g: Groups<string, ProjectData>, sessionCount: nat)
    requires forall k :: k in g.keys ==> k in g.m
    ensures ProjectMetricsOf(g, sessionCount) == [] <==> g.keys == []
  {
    EntriesAt(g.keys, g.m, sessionCount);
  }

  /** An entry copies its project's figures, uses the name as its path, takes the
      project's share of all sessions (0 without sessions), and its average times the
      project's session count is its tokens in thousands (0 for a project without
      sessions). */
  lemma EntryOfSpec(name: string, d: ProjectData, sessionCount: nat)
    ensures var e := EntryOf(name, d, sessionCount);
            && e.name == name && e.path == name
            && e.sessions == d.totalSessions && e.totalTokens == d.totalTokens && e.totalCost == d.totalCost
            && e.lastActivityDate == d.lastActive
            && (sessionCount == 0 ==> e.percentageOfTotal == 0.0)
            && (sessionCount > 0 ==> e.percentageOfTotal * sessionCount as real == d.totalSessions as real * 100.0)
            && (d.totalSessions == 0 ==> e.averageSessionDuration == 0.0)
            && (d.totalSessions > 0 ==> e.averageSessionDuration * d.totalSessions as real * 1000.0 == d.totalTokens as real)
  {
    if sessionCount > 0 {
      ShareTimesCount(d.totalSessions as real, sessionCount as real);
    }
    if d.totalSessions > 0 {
      ThousandsTimesCount(d.totalTokens as real, d.totalSessions as real);
    }
  }

  lemma ShareTimesCount(a: real, n: real)
    requires n > 0.0
    ensures ((a / n) * 100.0) * n == a * 100.0
  {
  }

  lemma ThousandsTimesCount(t: real, s: real)
    requires s > 0.0
    ensures ((t / s) / 1000.0) * s * 1000.0 == t
  {
  }

  lemma {:induction false} EntriesTotals(keys: seq<string>, m: map<string, ProjectData>, sessionCount: nat)
    ensures var es := Entries(keys, m, sessionCount);
            var vs := Values(Groups(keys, m));
            && SumNat(es, ETokens) == SumNat(vs, DTokens)
            && SumReal(es, ECost) == SumReal(vs, DCost)
            && SumNat(es, ESessions) == SumNat(vs, DSessions)
    decreases |keys|
  {
    if keys != [] {
      var k := Last(keys);
      EntriesTotals(Init(keys), m, sessionCount);
      if k in m {
        InitOfSnoc(Entries(Init(keys), m, sessionCount), EntryOf(k, m[k], sessionCount));
        InitOfSnoc(Values(Groups(Init(keys), m)), m[k]);
      }
    }
  }

  lemma {:induction false} EntriesShares(keys: seq<string>, m: map<string, ProjectData>, sessionCount: nat)
    requires sessionCount > 0
    ensures var es := Entries(keys, m, sessionCount);
            SumReal(es, EShare) == (SumNat(es, ESessions) as real / sessionCount as real) * 100.0
    decreases |keys|
  {
    if keys != [] {
      var k := Last(keys);
      EntriesShares(Init(keys), m, sessionCount);
      var front := Entries(Init(keys), m, sessionCount);
      if k in m {
        InitOfSnoc(front, EntryOf(k, m[k], sessionCount));
        ShareSum(SumNat(front, ESessions) as real, m[k].totalSessions as real, sessionCount as real);
      }
    }
  }

  lemma ShareSum(a: real, c: real, n: real)
    requires n > 0.0
    ensures (a / n) * 100.0 + (c / n) * 100.0 == ((a + c) / n) * 100.0
  {
  }

  /** `totalTokens` and `totalCost` of the view are the table's totals, and when the table
      accounts for every session of the store the percentages add up to 100. */
  lemma ProjectTotals(g: Groups<string, ProjectData>, sessionCount: nat)
    ensures var es := ProjectMetricsOf(g, sessionCount);
            && SumNat(es, ETokens) == SumNat(Values(g), DTokens)
            && SumReal(es, ECost) == SumReal(Values(g), DCost)
            && (sessionCount > 0 && SumNat(Values(g), DSessions) == sessionCount ==> SumReal(es, EShare) == 100.0)
  {
    EntriesTotals(g.keys, g.m, sessionCount);
    if sessionCount > 0 {
      EntriesShares(g.keys, g.m, sessionCount);
      WholeRatio(sessionCount as real);
    }
  }

  lemma WholeRatio(n: real)
    requires n > 0.0
    ensures (n / n) * 100.0 == 100.0
  {
  }

  // ---------------------------------------------------------------------------------
  // Headline and pie

  /** `projectMetrics[0]?.name || 'N/A'`. */
  function MostActiveName(es: seq<ProjectEntry>): string
  {
    if es == [] || es[0].name == "" then "N/A" else es[0].name
  }

  /** The headline names the first entry of the table (not the one with most tokens),
      unless there is none or its name is empty. */
  lemma MostActiveNameSpec(es: seq<ProjectEntry>)
    ensures MostActiveName(es) == "N/A" <==> es == [] || es[0].name == "" || es[0].name == "N/A"
    ensures es != [] && es[0].name != "" ==> MostActiveName(es) == es[0].name
  {
  }

  const Palette: seq<string> := ["#6366F1", "#8B5CF6", "#EC4899", "#F59E0B", "#10B981", "#EF4444", "#3B82F6", "#8B5A2B"]

  /** `getProjectColor(index)`. */
  function ProjectColor(index: nat): string
  {
    Palette[index % |Palette|]
  }

  /** One slice of `pieChartData`. */
  datatype PieSlice = PieSlice(name: string, value: nat, cost: real, fill: string)

  function SliceAt(e: ProjectEntry, index: nat): PieSlice
  {
    PieSlice(e.name, e.totalTokens, e.totalCost, ProjectColor(index))
  }

  function PieData(es: seq<ProjectEntry>): seq<PieSlice>
  {
    MapIndexed(es, SliceAt)
  }

  function SliceValue(p: PieSlice): nat { p.value }

  /** One slice per entry in table order, coloured by its position in a cycle of eight;
      the slices together are the view's token total. */
  lemma PieDataSpec(es: seq<ProjectEntry>)
    ensures var pie := PieData(es);
            && |pie| == |es|
            && (forall i :: 0 <= i < |pie| ==>
                  pie[i].name == es[i].name && pie[i].value == es[i].totalTokens && pie[i].fill == Palette[i % 8])
            && (forall i :: 0 <= i && i + 8 < |pie| ==> pie[i + 8].fill == pie[i].fill)
            && SumNat(pie, SliceValue) == SumNat(es, ETokens)
  {
    PieValues(es);
    forall i | 0 <= i && i + 8 < |es|
      ensures (i + 8) % 8 == i % 8
    {
    }
  }

  lemma {:induction false} PieValues(es: seq<ProjectEntry>)
    ensures SumNat(PieData(es), SliceValue) == SumNat(es, ETokens)
    decreases |es|
  {
    if es != [] {
      PieValues(Init(es));
      assert Init(PieData(es)) == PieData(Init(es));
    }
  }

  // ---------------------------------------------------------------------------------
  // The detail table and the bar chart

  /** `Math.round(project.totalTokens / Math.max(project.sessions, 1))`. */
  function AverageTokens(e: ProjectEntry): int
  {
    Round(e.totalTokens as real / MaxNat(e.sessions, 1) as real)
  }

  /** A project without sessions shows its whole token count; otherwise the figure is the
      tokens per session to the nearest whole token. */
  lemma AverageTokensSpec(e: ProjectEntry)
    ensures e.sessions == 0 ==> AverageTokens(e) == e.totalTokens
    ensures e.sessions > 0 ==>
              var q := e.totalTokens as real / e.sessions as real;
              AverageTokens(e) >= 0 && AverageTokens(e) as real - 0.5 <= q < AverageTokens(e) as real + 0.5
  {
    if e.sessions > 0 {
      DivCompare(e.totalTokens as real, e.sessions as real, 0.0);
    }
  }

  /** `project.totalCost / Math.max(project.sessions, 1)`. */
  function CostPerSession(e: ProjectEntry): real
  {
    e.totalCost / MaxNat(e.sessions, 1) as real
  }

  /** A project without sessions shows its whole cost; otherwise the figure times the
      session count is the cost. */
  lemma CostPerSessionSpec(e: ProjectEntry)
    ensures e.sessions == 0 ==> CostPerSession(e) == e.totalCost
    ensures e.sessions > 0 ==> CostPerSession(e) * e.sessions as real == e.totalCost
  {
  }

  /** `projectMetrics.sort((a, b) => b.totalTokens - a.totalTokens)`: in place and stable. */
  method SortByTokens(a: array<ProjectEntry>)
    modifies a
    ensures a[..] == SortDesc(old(a[..]), EKey)
  {
    SortDescInPlace(a, EKey);
  }

  /** The sorted table holds the same entries by non-increasing tokens, entries with equal
      tokens in table order. */
  lemma SortByTokensSpec(es: seq<ProjectEntry>)
    ensures SortedDesc(SortDesc(es, EKey), EKey)
    ensures multiset(SortDesc(es, EKey)) == multiset(es)
    ensures forall c :: Select(SortDesc(es, EKey), EKey, c) == Select(es, EKey, c)
  {
    SortDescSpec(es, EKey);
  }

  /** `projectMetrics.slice(0, 10)`. */
  function TopTen(es: seq<ProjectEntry>): seq<ProjectEntry>
  {
    es[..if |es| < 10 then |es| else 10]
  }

  /** The chart's entries as the page renders them: the table's first ten, after the
      detail table has sorted the array when it is shown. */
  function ChartOf(es: seq<ProjectEntry>, showDetails: bool): seq<ProjectEntry>
  {
    TopTen(if showDetails then SortDesc(es, EKey) else es)
  }

  /** The chart holds at most ten entries; with the details shown they are entries of the
      table with at least as many tokens as every entry left out, and with the details
      hidden they are simply the first ten in table order. */
  lemma ChartOfSpec(es: seq<ProjectEntry>, showDetails: bool)
    ensures var c := ChartOf(es, showDetails);
            && |c| == (if |es| < 10 then |es| else 10)
            && (!showDetails ==> c == es[..|c|])
            && (showDetails ==>
                  var t := SortDesc(es, EKey);
                  && multiset(t) == multiset(es)
                  && c == t[..|c|]
                  && forall i, j :: 0 <= i < |c| <= j < |t| ==> c[i].totalTokens >= t[j].totalTokens)
  {
    SortDescSpec(es, EKey);
    var t := SortDesc(es, EKey);
    assert |t| == |es| by {
      assert |multiset(t)| == |multiset(es)|;
    }
  }

  /** One render of the view over the array of entries: the no-data branch for no
      projects; otherwise the headline and the pie read the entries in table order, the
      detail table (when shown) sorts them in place, and the chart then takes the first
      ten. */
  method Render(a: array<ProjectEntry>, showDetails: bool)
      returns (noData: bool, headline: string, pie: seq<PieSlice>, chart: seq<ProjectEntry>)
    modifies a
    ensures noData <==> old(a[..]) == []
    ensures !noData ==> headline == MostActiveName(old(a[..])) && pie == PieData(old(a[..]))
    ensures !noData ==> chart == ChartOf(old(a[..]), showDetails)
    ensures a[..] == if showDetails && !noData then SortDesc(old(a[..]), EKey) else old(a[..])
  {
    if a.Length == 0 {
      return true, "", [], [];
    }
    noData := false;
    headline := MostActiveName(a[..]);
    pie := PieData(a[..]);
    if showDetails {
      SortByTokens(a);
    }
    chart := TopTen(a[..]);
  }
}
