/** The polling hook of the dashboard (`src/hooks/useRealTimeData.ts`): per-project
    metrics over the server's project table, the sessions of a date range or of a
    project, and the daily time series. The dashboard and platform metrics it computes
    are the same as the store's (module DataContext). */
module RealTimeData {
  import opened Seqs
  import opened Strings
  import opened Grouping
  import opened Sorting
  import opened JsNumber
  import opened CivilDate
  import opened Types
  import US = UsageService
  import DC = DataContext

  /** The clock and date conversions the hook reaches through `Date`: the current instant as
      ISO text, the instant a timestamp text denotes (None where `new Date(t)` is invalid),
      and the ISO text of an instant. */
  datatype Clock = Clock(nowIso: string, instantOf: string -> Option<int>, isoOf: int -> string)

  /** `s.vscodeData?.projectName === name`. */
  predicate InProject(name: string, s: UsageSession)
  {
    s.vscodeData.Some? && s.vscodeData.value.projectName == Some(name)
  }

  function ProjectSessions(sessions: seq<UsageSession>, name: string): seq<UsageSession>
  {
    Filter(sessions, (s: UsageSession) => InProject(name, s))
  }

  /** `Math.max(a, b)` where None stands for NaN, which wins over everything. */
  function MaxInstant(a: Option<int>, b: Option<int>): Option<int>
  {
    if a.None? || b.None? then None else Some(if a.value >= b.value then a.value else b.value)
  }

  /** `Math.max(...ts)` for a non-empty list. */
  function LatestInstant(ts: seq<Option<int>>): Option<int>
    requires ts != []
  {
    if |ts| == 1 then ts[0] else MaxInstant(LatestInstant(Init(ts)), Last(ts))
  }

  /** The maximum is a number exactly when every element is, and then it is one of them
      and no element exceeds it. */
  lemma {:induction false} LatestInstantSpec(ts: seq<Option<int>>)
    requires ts != []
    ensures LatestInstant(ts).Some? <==> forall i :: 0 <= i < |ts| ==> ts[i].Some?
    ensures LatestInstant(ts).Some? ==>
              (exists i :: 0 <= i < |ts| && ts[i] == LatestInstant(ts))
              && forall i :: 0 <= i < |ts| ==> ts[i].value <= LatestInstant(ts).value
    decreases |ts|
  {
    if |ts| > 1 {
      LatestInstantSpec(Init(ts));
      var front := Init(ts);
      assert forall i :: 0 <= i < |front| ==> front[i] == ts[i];
      if LatestInstant(front).Some? && Last(ts).Some? {
        var i :| 0 <= i < |front| && front[i] == LatestInstant(front);
        assert ts[i] == LatestInstant(front);
        assert ts[|ts| - 1] == Last(ts);
      }
    }
  }

  function InstantAt(instantOf: string -> Option<int>, s: UsageSession): Option<int>
  {
    instantOf(s.timestamp)
  }

  /** `ps.map(s => new Date(s.timestamp).getTime())`. */
  function Instants(ps: seq<UsageSession>, instantOf: string -> Option<int>): seq<Option<int>>
  {
    MapSeq(ps, s => InstantAt(instantOf, s))
  }

  /** The `lastActivityDate` of a project: the ISO text of its latest session when that is
      a positive instant, otherwise the current time. */
  function LastActivityDate(ps: seq<UsageSession>, clock: Clock): string
  {
    var latest := if |ps| > 0 then LatestInstant(Instants(ps, clock.instantOf)) else Some(0);
    if latest.Some? && latest.value > 0 then clock.isoOf(latest.value) else clock.nowIso
  }

  /** One element of `Object.entries(projectData).map(...)`; `total` is the sum of all
      projects' session counts. */
  function ProjectRow(name: string, d: US.ProjectSummary, sessions: seq<UsageSession>, total: nat, clock: Clock): ProjectMetrics
  {
    var ps := ProjectSessions(sessions, name);
    ProjectMetrics(
      name,
      d.path,
      d.sessionCount,
      d.totalTokens,
      d.totalCost,
      SumNat(ps, SDuration) as real / MaxNat(|ps|, 1) as real,
      if total > 0 then (d.sessionCount as real / total as real) * 100.0 else 0.0,
      LastActivityDate(ps, clock))
  }

  /** The rows of the entries, in key order. */
  function ProjectRows(keys: seq<string>, m: map<string, US.ProjectSummary>, sessions: seq<UsageSession>,
                       total: nat, clock: Clock): seq<ProjectMetrics>
  {
    if keys == [] then []
    else
      var front := ProjectRows(Init(keys), m, sessions, total, clock);
      if Last(keys) in m then front + [ProjectRow(Last(keys), m[Last(keys)], sessions, total, clock)] else front
  }

  function SessionCountOf(d: US.ProjectSummary): nat { d.sessionCount }

  /** `Object.values(projectData).reduce((sum, p) => sum + p.sessionCount, 0)`. */
  function TotalSessionCount(g: Groups<string, US.ProjectSummary>): nat
  {
    SumNat(Values(g), SessionCountOf)
  }

  function MTokens(e: ProjectMetrics): real { e.totalTokens as real }
  function MName(e: ProjectMetrics): string { e.name }
  function MShare(e: ProjectMetrics): real { e.percentageOfTotal }
  function MCount(e: ProjectMetrics): nat { e.sessions }

  /** `getProjectMetrics`: one row per project, by descending token total (stable). */
  function GetProjectMetrics(g: Groups<string, US.ProjectSummary>, sessions: seq<UsageSession>, clock: Clock): seq<ProjectMetrics>
  {
    if |g.keys| == 0 then []
    else SortDesc(ProjectRows(g.keys, g.m, sessions, TotalSessionCount(g), clock), MTokens)
  }

  /** Every key of a well-formed table has its entry. */
  ghost predicate Table(g: Groups<string, US.ProjectSummary>)
  {
    NoDup(g.keys) && forall k :: k in g.keys ==> k in g.m
  }

  lemma {:induction false} ProjectRowsAt(keys: seq<string>, m: map<string, US.ProjectSummary>,
                                         sessions: seq<UsageSession>, total: nat, clock: Clock)
    requires forall k :: k in keys ==> k in m
    ensures var rs := ProjectRows(keys, m, sessions, total, clock);
            && |rs| == |keys|
            && forall i :: 0 <= i < |rs| ==> rs[i] == ProjectRow(keys[i], m[keys[i]], sessions, total, clock)
    decreases |keys|
  {
    if keys != [] {
      ProjectRowsAt(Init(keys), m, sessions, total, clock);
    }
  }

  /** No rows exactly when the table has no projects. */
  lemma GetProjectMetricsEmpty(g: Groups<string, US.ProjectSummary>, sessions: seq<UsageSession>, clock: Clock)
    requires Table(g)
    ensures GetProjectMetrics(g, sessions, clock) == [] <==> g.keys == []
  {
    if g.keys != [] {
      ProjectRowsAt(g.keys, g.m, sessions, TotalSessionCount(g), clock);
    }
  }

  /** The rows are the table's entries rearranged into descending token order, with
      ties in table order. */
  lemma GetProjectMetricsOrder(g: Groups<string, US.ProjectSummary>, sessions: seq<UsageSession>, clock: Clock)
    ensures var r := GetProjectMetrics(g, sessions, clock);
            var rows := ProjectRows(g.keys, g.m, sessions, TotalSessionCount(g), clock);
            && SortedDesc(r, MTokens)
            && multiset(r) == multiset(rows)
            && forall c :: Select(r, MTokens, c) == Select(rows, MTokens, c)
  {
    SortDescSpec(ProjectRows(g.keys, g.m, sessions, TotalSessionCount(g), clock), MTokens);
  }

  lemma {:induction false} ProjectRowsNames(keys: seq<string>, m: map<string, US.ProjectSummary>,
                                            sessions: seq<UsageSession>, total: nat, clock: Clock)
    requires forall k :: k in keys ==> k in m
    ensures MapSeq(ProjectRows(keys, m, sessions, total, clock), MName) == keys
    decreases |keys|
  {
    if keys != [] {
      ProjectRowsNames(Init(keys), m, sessions, total, clock);
      var front := ProjectRows(Init(keys), m, sessions, total, clock);
      var e := ProjectRow(Last(keys), m[Last(keys)], sessions, total, clock);
      InitOfSnoc(front, e);
      assert keys == Init(keys) + [Last(keys)];
    }
  }

  /** There is one row per project name of the table. */
  lemma GetProjectMetricsNames(g: Groups<string, US.ProjectSummary>, sessions: seq<UsageSession>, clock: Clock)
    requires Table(g)
    ensures var r := GetProjectMetrics(g, sessions, clock);
            |r| == |g.keys| && forall k :: k in MapSeq(r, MName) <==> k in g.keys
  {
    var rows := ProjectRows(g.keys, g.m, sessions, TotalSessionCount(g), clock);
    ProjectRowsNames(g.keys, g.m, sessions, TotalSessionCount(g), clock);
    SortDescMembers(rows, MTokens, MName);
  }

  /** A row copies its project's figures, averages its sessions' durations over at least
      one, takes its share of all session counts (0 when there are none), and dates its
      last activity by the latest session when that instant is valid and positive. */
  lemma ProjectRowSpec(name: string, d: US.ProjectSummary, sessions: seq<UsageSession>, total: nat, clock: Clock)
    ensures var e := ProjectRow(name, d, sessions, total, clock);
            var ps := ProjectSessions(sessions, name);
            var ts := Instants(ps, clock.instantOf);
            && e.name == name && e.path == d.path && e.sessions == d.sessionCount
            && e.totalTokens == d.totalTokens && e.totalCost == d.totalCost
            && (forall s :: s in ps <==> s in sessions && InProject(name, s))
            && e.averageSessionDuration == SumNat(ps, SDuration) as real / (if ps == [] then 1.0 else |ps| as real)
            && (total == 0 ==> e.percentageOfTotal == 0.0)
            && (total > 0 ==> e.percentageOfTotal == (d.sessionCount as real / total as real) * 100.0)
            && (ps == [] ==> e.lastActivityDate == clock.nowIso)
            && (ps != [] && (forall i :: 0 <= i < |ts| ==> ts[i].Some?) ==>
                  exists i :: 0 <= i < |ts| && (forall j :: 0 <= j < |ts| ==> ts[j].value <= ts[i].value) &&
                    e.lastActivityDate == if ts[i].value > 0 then clock.isoOf(ts[i].value) else clock.nowIso)
            && (ps != [] && (exists i :: 0 <= i < |ts| && ts[i].None?) ==> e.lastActivityDate == clock.nowIso)
  {
    var ps := ProjectSessions(sessions, name);
    FilterMembers(sessions, (s: UsageSession) => InProject(name, s));
    if ps != [] {
      var ts := Instants(ps, clock.instantOf);
      LatestInstantSpec(ts);
      if LatestInstant(ts).Some? {
        var i :| 0 <= i < |ts| && ts[i] == LatestInstant(ts);
        assert forall j :: 0 <= j < |ts| ==> ts[j].value <= ts[i].value;
      }
    }
  }

  lemma {:induction false} ProjectRowsCounts(keys: seq<string>, m: map<string, US.ProjectSummary>,
                                             sessions: seq<UsageSession>, total: nat, clock: Clock)
    ensures SumNat(ProjectRows(keys, m, sessions, total, clock), MCount) == SumNat(Values(Groups(keys, m)), SessionCountOf)
    ensures total > 0 ==>
              SumReal(ProjectRows(keys, m, sessions, total, clock), MShare)
                == (SumNat(ProjectRows(keys, m, sessions, total, clock), MCount) as real / total as real) * 100.0
    decreases |keys|
  {
    if keys != [] {
      var k := Last(keys);
      ProjectRowsCounts(Init(keys), m, sessions, total, clock);
      var front := ProjectRows(Init(keys), m, sessions, total, clock);
      var vs := Values(Groups(Init(keys), m));
      if k in m {
        var e := ProjectRow(k, m[k], sessions, total, clock);
        InitOfSnoc(front, e);
        InitOfSnoc(vs, m[k]);
        if total > 0 {
          DC.ShareAdd(SumNat(front, MCount) as real, m[k].sessionCount as real, total as real);
        }
      }
    }
  }

  /** When some project has sessions, the shares of all rows add up to 100 percent. */
  lemma ProjectSharesTotal(g: Groups<string, US.ProjectSummary>, sessions: seq<UsageSession>, clock: Clock)
    requires TotalSessionCount(g) > 0
    ensures SumReal(GetProjectMetrics(g, sessions, clock), MShare) == 100.0
  {
    var total := TotalSessionCount(g);
    var rows := ProjectRows(g.keys, g.m, sessions, total, clock);
    ProjectRowsCounts(g.keys, g.m, sessions, total, clock);
    SortDescSums(rows, MTokens, MCount, MShare);
    DC.WholeShare(total as real);
  }

  // ---------------------------------------------------------------------------------
  // Session views

  /** `new Date(t) >= start && new Date(t) <= end`, false for an invalid date. */
  predicate InRange(instantOf: string -> Option<int>, start: int, end: int, s: UsageSession)
  {
    instantOf(s.timestamp).Some? && start <= instantOf(s.timestamp).value <= end
  }

  /** `getSessionsByDateRange(startDate, endDate)` on the instants of the two dates. */
  function GetSessionsByDateRange(sessions: seq<UsageSession>, start: int, end: int, instantOf: string -> Option<int>): seq<UsageSession>
  {
    Filter(sessions, (s: UsageSession) => InRange(instantOf, start, end, s))
  }

  /** Exactly the sessions at an instant within the range, both ends included; nothing for
      a range that ends before it starts. */
  lemma GetSessionsByDateRangeSpec(sessions: seq<UsageSession>, start: int, end: int, instantOf: string -> Option<int>)
    ensures forall s :: s in GetSessionsByDateRange(sessions, start, end, instantOf) <==>
              s in sessions && instantOf(s.timestamp).Some? && start <= instantOf(s.timestamp).value <= end
    ensures end < start ==> GetSessionsByDateRange(sessions, start, end, instantOf) == []
  {
    var r := GetSessionsByDateRange(sessions, start, end, instantOf);
    FilterMembers(sessions, (s: UsageSession) => InRange(instantOf, start, end, s));
    if end < start && r != [] {
      assert r[0] in r;
    }
  }

  /** `getFilteredSessions`: the hook filters on the editor data's project name. */
  function GetFilteredSessions(sessions: seq<UsageSession>, selected: string): seq<UsageSession>
  {
    if selected == "all" then sessions else ProjectSessions(sessions, selected)
  }

  lemma GetFilteredSessionsSpec(sessions: seq<UsageSession>, selected: string)
    ensures selected == "all" ==> GetFilteredSessions(sessions, selected) == sessions
    ensures selected != "all" ==>
              forall s :: s in GetFilteredSessions(sessions, selected) <==>
                s in sessions && s.vscodeData.Some? && s.vscodeData.value.projectName == Some(selected)
  {
    FilterMembers(sessions, (s: UsageSession) => InProject(selected, s));
  }

  /** `getTimeSeriesData(days)`: for one day the single entry of today, sessions or not;
      otherwise one entry per day from `days - 1` days ago up to today, oldest first.
      `today` must lie at least `days - 1` days after 0001-01-01. */
  method GetTimeSeriesData(sessions: seq<UsageSession>, days: int, today: Date) returns (data: seq<TimeSeriesData>)
    requires Valid(today) && days - 1 <= DayNumber(today)
    ensures days == 1 ==> data == [DC.DayEntry(sessions, DC.DayText(today, 0))]
    ensures days != 1 ==> |data| == if days > 0 then days else 0
    ensures days != 1 ==> forall j :: 0 <= j < |data| ==> data[j] == DC.DayEntry(sessions, DC.DayTexts(today)(days - 1 - j))
  {
    if days == 1 {
      data := [DC.DayEntry(sessions, DC.DayText(today, 0))];
    } else {
      data := DC.DailySeries(sessions, days, DC.DayTexts(today));
    }
  }
}
