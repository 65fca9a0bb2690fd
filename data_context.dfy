/** The browser-side store of the dashboard (`src/context/DataContext.tsx`): the state
    record and its reducer, the transformation of the usage tool's session and block
    rows into the client's records, and the metrics derived from the client's sessions.
    The clock is a parameter: `now` for `new Date()`, the ISO text `nowIso`, the instant of
    today's local midnight `todayStart`, the calendar date `today`, and `instantOf`, which
    reads a timestamp as an instant (None for a text JavaScript cannot parse). */
module DataContext {
  import opened Seqs
  import opened Strings
  import opened Grouping
  import opened Counting
  import opened CivilDate
  import opened Types
  import PR = ProjectReport

  // ---------------------------------------------------------------------------------
  // State and reducer

  datatype DataState = DataState(
    sessions: seq<UsageSession>,
    weeklyData: seq<Bucket>,
    monthlyData: seq<Bucket>,
    sessionData: seq<RawSession>,
    billingBlocks: seq<BillingBlock>,
    projectData: Groups<string, ProjectData>,
    dashboardMetrics: Option<DashboardMetrics>,
    platformMetrics: seq<PlatformMetrics>,
    isLoading: bool,
    error: Option<string>,
    lastUpdate: Option<int>,
    selectedProject: string,
    systemUser: string)

  const InitialState: DataState :=
    DataState([], [], [], [], [], Groups([], map[]), None, [], true, None, None, "all", "System User")

  /** The dispatched actions; `Unknown` is any other `type` (the reducer's default case). */
  datatype Action =
    | SetLoading(loading: bool)
    | SetError(message: Option<string>)
    | SetSessions(sessions: seq<UsageSession>)
    | SetWeeklyData(weekly: seq<Bucket>)
    | SetMonthlyData(monthly: seq<Bucket>)
    | SetSessionData(rows: seq<RawSession>)
    | SetBillingBlocks(blocks: seq<BillingBlock>)
    | SetProjectData(projects: Groups<string, ProjectData>)
    | SetDashboardMetrics(metrics: DashboardMetrics)
    | SetPlatformMetrics(platforms: seq<PlatformMetrics>)
    | SetSelectedProject(project: string)
    | SetSystemUser(user: string)
    | SetLastUpdate
    | Unknown(tag: string)

  /** `dataReducer`; `now` is the instant `new Date()` reads. */
  function DataReducer(s: DataState, a: Action, now: int): DataState
  {
    match a
    case SetLoading(v) => s.(isLoading := v)
    case SetError(v) => s.(error := v)
    case SetSessions(v) => s.(sessions := v)
    case SetWeeklyData(v) => s.(weeklyData := v)
    case SetMonthlyData(v) => s.(monthlyData := v)
    case SetSessionData(v) => s.(sessionData := v)
    case SetBillingBlocks(v) => s.(billingBlocks := v)
    case SetProjectData(v) => s.(projectData := v)
    case SetDashboardMetrics(v) => s.(dashboardMetrics := Some(v))
    case SetPlatformMetrics(v) => s.(platformMetrics := v)
    case SetSelectedProject(v) => s.(selectedProject := v)
    case SetSystemUser(v) => s.(systemUser := v)
    case SetLastUpdate => s.(lastUpdate := Some(now))
    case Unknown(_) => s
  }

  /** Every SET action writes its payload into its own field. */
  lemma ReducerWrites(s: DataState, a: Action, now: int)
    ensures var t := DataReducer(s, a, now);
            && (a.SetLoading? ==> t.isLoading == a.loading)
            && (a.SetError? ==> t.error == a.message)
            && (a.SetSessions? ==> t.sessions == a.sessions)
            && (a.SetWeeklyData? ==> t.weeklyData == a.weekly)
            && (a.SetMonthlyData? ==> t.monthlyData == a.monthly)
            && (a.SetSessionData? ==> t.sessionData == a.rows)
            && (a.SetBillingBlocks? ==> t.billingBlocks == a.blocks)
            && (a.SetProjectData? ==> t.projectData == a.projects)
            && (a.SetDashboardMetrics? ==> t.dashboardMetrics == Some(a.metrics))
            && (a.SetPlatformMetrics? ==> t.platformMetrics == a.platforms)
            && (a.SetSelectedProject? ==> t.selectedProject == a.project)
            && (a.SetSystemUser? ==> t.systemUser == a.user)
            && (a.SetLastUpdate? ==> t.lastUpdate == Some(now))
  {
  }

  /** Every field other than the action's own is left as it was, so an unknown action
      returns the state unchanged. */
  lemma ReducerFrame(s: DataState, a: Action, now: int)
    ensures var t := DataReducer(s, a, now);
            && (a.Unknown? ==> t == s)
            && (!a.SetLoading? ==> t.isLoading == s.isLoading)
            && (!a.SetError? ==> t.error == s.error)
            && (!a.SetSessions? ==> t.sessions == s.sessions)
            && (!a.SetWeeklyData? ==> t.weeklyData == s.weeklyData)
            && (!a.SetMonthlyData? ==> t.monthlyData == s.monthlyData)
            && (!a.SetSessionData? ==> t.sessionData == s.sessionData)
            && (!a.SetBillingBlocks? ==> t.billingBlocks == s.billingBlocks)
            && (!a.SetProjectData? ==> t.projectData == s.projectData)
            && (!a.SetDashboardMetrics? ==> t.dashboardMetrics == s.dashboardMetrics)
            && (!a.SetPlatformMetrics? ==> t.platformMetrics == s.platformMetrics)
            && (!a.SetSelectedProject? ==> t.selectedProject == s.selectedProject)
            && (!a.SetSystemUser? ==> t.systemUser == s.systemUser)
            && (!a.SetLastUpdate? ==> t.lastUpdate == s.lastUpdate)
  {
  }

  /** Dispatching the same action twice is dispatching it once. */
  lemma ReducerIdempotent(s: DataState, a: Action, now: int)
    ensures DataReducer(DataReducer(s, a, now), a, now) == DataReducer(s, a, now)
  {
  }

  // ---------------------------------------------------------------------------------
  // Transformation of the usage tool's rows

  const SessionFallbackModel: string := "claude-3-sonnet"

  /** `session.modelsUsed?.[0] || 'claude-3-sonnet'`. */
  function SessionModel(r: RawSession): (m: string)
    ensures m != ""
  {
    if r.modelsUsed.Some? && |r.modelsUsed.value| > 0 && r.modelsUsed.value[0] != ""
    then r.modelsUsed.value[0] else SessionFallbackModel
  }

  /** The estimated duration `Math.floor(Math.random() * 3600) + 300`, with `draw` the
      value the random expression takes. */
  function EstimatedDuration(draw: nat): nat
  {
    draw % 3600 + 300
  }

  /** One element of `transformSessionData`'s map; `draw` is the random expression's value
      for this element. */
  function ToUsageSession(r: RawSession, nowIso: string, draw: nat): UsageSession
  {
    UsageSession(
      r.sessionId,
      OrElse(r.lastActivity, nowIso),
      Web,
      SessionModel(r),
      Or0(r.inputTokens),
      Or0(r.outputTokens),
      Or0(r.totalTokens),
      Or0Real(r.totalCost),
      EstimatedDuration(draw),
      PR.SessionProjectName(r.sessionId),
      None)
  }

  /** The element function of `transformSessionData`'s map. */
  function Converter(nowIso: string, draws: nat -> nat): (RawSession, nat) -> UsageSession
  {
    (x: RawSession, i: nat) => ToUsageSession(x, nowIso, draws(i))
  }

  /** `transformSessionData`: `rows` is `data.sessions` (None when `data` or its `sessions`
      is missing); `draws(i)` is the random value drawn for the i-th session. */
  function TransformSessionData(rows: Option<seq<RawSession>>, nowIso: string, draws: nat -> nat): seq<UsageSession>
  {
    if rows.None? then [] else MapIndexed(rows.value, Converter(nowIso, draws))
  }

  /** One client session per row, in order, with absent counts and cost as 0, the total not
      recomputed, the last activity as timestamp when present, the first model used or
      the fallback model, platform `web`, a duration in 300..3899 seconds and the project
      name of the session id. */
  lemma TransformSessionDataSpec(rows: Option<seq<RawSession>>, nowIso: string, draws: nat -> nat)
    ensures rows.None? ==> TransformSessionData(rows, nowIso, draws) == []
    ensures rows.Some? ==>
              var xs, r := rows.value, TransformSessionData(rows, nowIso, draws);
              && |r| == |xs|
              && forall i :: 0 <= i < |r| ==>
                   && r[i].sessionId == xs[i].sessionId
                   && r[i].platform == Web
                   && r[i].inputTokens == Or0(xs[i].inputTokens)
                   && r[i].outputTokens == Or0(xs[i].outputTokens)
                   && r[i].totalTokens == Or0(xs[i].totalTokens)
                   && r[i].cost == Or0Real(xs[i].totalCost)
                   && (xs[i].lastActivity.Some? && xs[i].lastActivity.value != "" ==>
                         r[i].timestamp == xs[i].lastActivity.value)
                   && (xs[i].lastActivity.None? || xs[i].lastActivity.value == "" ==> r[i].timestamp == nowIso)
                   && r[i].model == SessionModel(xs[i]) && r[i].model != ""
                   && 300 <= r[i].sessionDuration < 3900
                   && r[i].projectName == PR.SessionProjectName(xs[i].sessionId)
                   && r[i].projectName != ""
                   && r[i].vscodeData.None?
  {
    if rows.Some? {
      var xs, r := rows.value, TransformSessionData(rows, nowIso, draws);
      forall i | 0 <= i < |r|
        ensures r[i] == ToUsageSession(xs[i], nowIso, draws(i))
      {
      }
    }
  }

  /** Each converted session keeps its row's total tokens and cost. */
  lemma ConverterKeeps(nowIso: string, draws: nat -> nat)
    ensures forall x, i :: STokens(Converter(nowIso, draws)(x, i)) == PR.RTotal(x)
    ensures forall x, i :: SCost(Converter(nowIso, draws)(x, i)) == PR.RCost(x)
  {
    forall x, i
      ensures STokens(Converter(nowIso, draws)(x, i)) == PR.RTotal(x)
      ensures SCost(Converter(nowIso, draws)(x, i)) == PR.RCost(x)
    {
      assert Converter(nowIso, draws)(x, i) == ToUsageSession(x, nowIso, draws(i));
    }
  }

  /** The transformation conserves the token and cost totals of the rows. */
  lemma TransformSessionDataConserves(rows: seq<RawSession>, nowIso: string, draws: nat -> nat)
    ensures SumNat(TransformSessionData(Some(rows), nowIso, draws), STokens) == SumNat(rows, PR.RTotal)
    ensures SumReal(TransformSessionData(Some(rows), nowIso, draws), SCost) == SumReal(rows, PR.RCost)
  {
    ConverterKeeps(nowIso, draws);
    SumMapIndexedNat(rows, Converter(nowIso, draws), STokens, PR.RTotal);
    SumMapIndexedReal(rows, Converter(nowIso, draws), SCost, PR.RCost);
  }

  function Kept(b: RawBlock): bool { !b.isGap }

  function ToBillingBlock(b: RawBlock): BillingBlock
  {
    BillingBlock(b.id, b.startTime, Or0Real(b.costUSD), Or0(b.totalTokens), Or0(b.entries), "completed")
  }

  function BlockCost(b: RawBlock): real { Or0Real(b.costUSD) }
  function Amount(b: BillingBlock): real { b.amount }

  /** `transformBlocksData`: `blocks` is `data.blocks` (None when missing). */
  function TransformBlocksData(blocks: Option<seq<RawBlock>>): seq<BillingBlock>
  {
    if blocks.None? then [] else MapSeq(Filter(blocks.value, Kept), ToBillingBlock)
  }

  /** Gap blocks are dropped and every other block kept, in order, as a completed billing
      block whose amount, tokens and session count default to 0; the amounts add up to
      the cost of the blocks that are not gaps. */
  lemma TransformBlocksDataSpec(blocks: Option<seq<RawBlock>>)
    ensures blocks.None? ==> TransformBlocksData(blocks) == []
    ensures blocks.Some? ==>
              var bs, r := blocks.value, TransformBlocksData(blocks);
              && |r| == |Filter(bs, Kept)|
              && (forall x :: x in r <==> exists b :: b in bs && !b.isGap && x == ToBillingBlock(b))
              && (forall i :: 0 <= i < |r| ==> r[i].status == "completed" && r[i].id == Filter(bs, Kept)[i].id)
              && SumReal(r, Amount) == SumReal(Filter(bs, Kept), BlockCost)
  {
    if blocks.Some? {
      var bs := blocks.value;
      var kept := Filter(bs, Kept);
      var r := MapSeq(kept, ToBillingBlock);
      FilterMembers(bs, Kept);
      forall x ensures x in r <==> exists b :: b in bs && !b.isGap && x == ToBillingBlock(b) {
        if x in r {
          var i :| 0 <= i < |r| && r[i] == x;
          assert kept[i] in kept;
        }
        if b :| b in bs && !b.isGap && x == ToBillingBlock(b) {
          assert b in kept;
          var i :| 0 <= i < |kept| && kept[i] == b;
          assert r[i] == x;
        }
      }
      SumMapReal(kept, ToBillingBlock, Amount, BlockCost);
    }
  }

  // ---------------------------------------------------------------------------------
  // Dashboard metrics

  const DayMs: int := 86400000

  /** `new Date(s.timestamp) >= start`: false for a timestamp that does not parse. */
  predicate OnOrAfter(instantOf: string -> Option<int>, start: int, s: UsageSession)
  {
    instantOf(s.timestamp).Some? && instantOf(s.timestamp).value >= start
  }

  function Since(sessions: seq<UsageSession>, instantOf: string -> Option<int>, start: int): seq<UsageSession>
  {
    Filter(sessions, (s: UsageSession) => OnOrAfter(instantOf, start, s))
  }

  function UsageOf(ss: seq<UsageSession>): Usage
  {
    Usage(|ss|, SumNat(ss, STokens), SumReal(ss, SCost))
  }

  const NoUsage: Usage := Usage(0, 0, 0.0)

  const EmptyMetrics: DashboardMetrics := DashboardMetrics(0, 0, 0.0, 0.0, Web, NoUsage, NoUsage, NoUsage)

  /** `calculateDashboardMetrics`, with `todayStart` the instant of today's midnight: the
      week window starts 7 days and the month window 30 days before it. */
  function CalculateDashboardMetrics(sessions: seq<UsageSession>, todayStart: int, instantOf: string -> Option<int>): DashboardMetrics
  {
    if |sessions| == 0 then EmptyMetrics
    else
      DashboardMetrics(
        |sessions|,
        SumNat(sessions, STokens),
        SumReal(sessions, SCost),
        SumNat(sessions, SDuration) as real / |sessions| as real,
        MostFrequent(sessions, SPlatform, Web),
        UsageOf(Since(sessions, instantOf, todayStart)),
        UsageOf(Since(sessions, instantOf, todayStart - 7 * DayMs)),
        UsageOf(Since(sessions, instantOf, todayStart - 30 * DayMs)))
  }

  /** No sessions give the all-zero record on platform `web`; otherwise the totals are
      sums over all sessions and the average duration is their mean. */
  lemma DashboardTotals(sessions: seq<UsageSession>, todayStart: int, instantOf: string -> Option<int>)
    ensures sessions == [] ==> CalculateDashboardMetrics(sessions, todayStart, instantOf) == EmptyMetrics
    ensures sessions != [] ==>
              var d := CalculateDashboardMetrics(sessions, todayStart, instantOf);
              && d.totalSessions == |sessions|
              && d.totalTokens == SumNat(sessions, STokens)
              && d.totalCost == SumReal(sessions, SCost)
              && d.averageSessionDuration == SumNat(sessions, SDuration) as real / |sessions| as real
  {
  }

  /** The most-used platform is the most frequent one among the sessions, the first to
      appear among equally frequent ones. */
  lemma DashboardPlatform(sessions: seq<UsageSession>, todayStart: int, instantOf: string -> Option<int>)
    requires sessions != []
    ensures var p := CalculateDashboardMetrics(sessions, todayStart, instantOf).mostUsedPlatform;
            && p in MapSeq(sessions, SPlatform)
            && (forall j :: 0 <= j < |sessions| ==>
                  Occurrences(sessions, SPlatform, sessions[j].platform) <= Occurrences(sessions, SPlatform, p))
            && (forall j ::
                  (0 <= j < |sessions| &&
                   Occurrences(sessions, SPlatform, sessions[j].platform) == Occurrences(sessions, SPlatform, p)) ==>
                  exists i :: 0 <= i <= j && sessions[i].platform == p)
  {
    MostFrequentSpec(sessions, SPlatform, Web);
    var p := MostFrequent(sessions, SPlatform, Web);
    forall j | 0 <= j < |sessions| ensures sessions[j].platform == SPlatform(sessions[j]) {
    }
  }

  /** A window keeps exactly the sessions whose timestamp parses to an instant at or after
      its start. */
  lemma SinceMembers(sessions: seq<UsageSession>, instantOf: string -> Option<int>, start: int)
    ensures forall s :: s in Since(sessions, instantOf, start) <==>
              s in sessions && instantOf(s.timestamp).Some? && instantOf(s.timestamp).value >= start
  {
    FilterMembers(sessions, (s: UsageSession) => OnOrAfter(instantOf, start, s));
  }

  /** The windows nest: today within the week within the month within all sessions, so
      their session counts and token sums never decrease from one to the next. */
  lemma DashboardWindowsNest(sessions: seq<UsageSession>, todayStart: int, instantOf: string -> Option<int>)
    ensures var d := CalculateDashboardMetrics(sessions, todayStart, instantOf);
            && d.todayUsage.sessions <= d.weeklyUsage.sessions <= d.monthlyUsage.sessions <= d.totalSessions
            && d.todayUsage.tokens <= d.weeklyUsage.tokens <= d.monthlyUsage.tokens <= d.totalTokens
  {
    if sessions != [] {
      var week := todayStart - 7 * DayMs;
      var month := todayStart - 30 * DayMs;
      var pToday := (s: UsageSession) => OnOrAfter(instantOf, todayStart, s);
      var pWeek := (s: UsageSession) => OnOrAfter(instantOf, week, s);
      var pMonth := (s: UsageSession) => OnOrAfter(instantOf, month, s);
      FilterWeaker(sessions, pToday, pWeek, STokens);
      FilterWeaker(sessions, pWeek, pMonth, STokens);
      FilterSumBound(sessions, pMonth, STokens);
    }
  }

  // ---------------------------------------------------------------------------------
  // Platform metrics

  /** One `Object.entries(platformGroups).map(...)` element; every group has a session. */
  function PlatformEntry(p: Platform, group: seq<UsageSession>, total: nat): PlatformMetrics
    requires group != []
  {
    PlatformMetrics(
      p,
      |group|,
      SumNat(group, STokens),
      SumReal(group, SCost),
      SumNat(group, SDuration) as real / |group| as real,
      if total > 0 then (|group| as real / total as real) * 100.0 else 0.0)
  }

  function PlatformEntries(keys: seq<Platform>, m: map<Platform, seq<UsageSession>>, total: nat): seq<PlatformMetrics>
    requires forall k :: k in keys ==> k in m && m[k] != []
  {
    if keys == [] then []
    else PlatformEntries(Init(keys), m, total) + [PlatformEntry(Last(keys), m[Last(keys)], total)]
  }

  function PlatformGroups(sessions: seq<UsageSession>): Groups<Platform, seq<UsageSession>>
  {
    GroupFold(sessions, SPlatform, NoItems, Push)
  }

  /** What `calculatePlatformMetrics` returns. */
  function PlatformMetricsOf(sessions: seq<UsageSession>): seq<PlatformMetrics>
  {
    var g := PlatformGroups(sessions);
    PartitionSpec(sessions, SPlatform);
    PlatformEntries(g.keys, g.m, |sessions|)
  }

  /** `calculatePlatformMetrics`: sessions pushed into one array per platform, then one
      metrics entry per array. */
  method CalculatePlatformMetrics(sessions: seq<UsageSession>) returns (ms: seq<PlatformMetrics>)
    ensures ms == PlatformMetricsOf(sessions)
  {
    var ok, keys, m := GroupInto(sessions, SPlatform, NoItems, Push, (s: UsageSession) => false);
    PartitionSpec(sessions, SPlatform);
    var total := |sessions|;
    ms := [];
    var i := 0;
    while i < |keys|
      invariant 0 <= i <= |keys|
      invariant ms == PlatformEntries(keys[..i], m, total)
    {
      PlatformEntriesSnoc(keys, i, m, total);
      ms := ms + [PlatformEntry(keys[i], m[keys[i]], total)];
      i := i + 1;
    }
    assert keys[..i] == keys;
  }

  lemma PlatformEntriesSnoc(keys: seq<Platform>, i: nat, m: map<Platform, seq<UsageSession>>, total: nat)
    requires i < |keys| && forall k :: k in keys ==> k in m && m[k] != []
    ensures PlatformEntries(keys[..i + 1], m, total)
         == PlatformEntries(keys[..i], m, total) + [PlatformEntry(keys[i], m[keys[i]], total)]
  {
    assert keys[..i + 1] == keys[..i] + [keys[i]];
    InitOfSnoc(keys[..i], keys[i]);
  }

  function OneSession(s: UsageSession): nat { 1 }
  function MPlatform(e: PlatformMetrics): Platform { e.platform }
  function MSessions(e: PlatformMetrics): nat { e.sessions }
  function MTokens(e: PlatformMetrics): nat { e.totalTokens }
  function MCost(e: PlatformMetrics): real { e.totalCost }
  function MShare(e: PlatformMetrics): real { e.percentageOfTotal }

  lemma {:induction false} PlatformEntriesAt(keys: seq<Platform>, m: map<Platform, seq<UsageSession>>, total: nat)
    requires forall k :: k in keys ==> k in m && m[k] != []
    ensures var es := PlatformEntries(keys, m, total);
            && |es| == |keys|
            && forall i :: 0 <= i < |es| ==> es[i] == PlatformEntry(keys[i], m[keys[i]], total)
    decreases |keys|
  {
    if keys != [] {
      PlatformEntriesAt(Init(keys), m, total);
    }
  }

  /** One entry per platform that occurs, in order of first appearance; each counts, sums
      and averages that platform's sessions, and its share is its count over all
      sessions, in percent. */
  lemma PlatformMetricsSpec(sessions: seq<UsageSession>)
    ensures var ms := PlatformMetricsOf(sessions);
            && MapSeq(ms, MPlatform) == Dedup(MapSeq(sessions, SPlatform))
            && forall i :: 0 <= i < |ms| ==>
                 var group := Select(sessions, SPlatform, ms[i].platform);
                 && group != []
                 && ms[i].sessions == |group|
                 && ms[i].totalTokens == SumNat(group, STokens)
                 && ms[i].totalCost == SumReal(group, SCost)
                 && ms[i].averageSessionDuration == SumNat(group, SDuration) as real / |group| as real
                 && ms[i].percentageOfTotal == (|group| as real / |sessions| as real) * 100.0
  {
    var g := PlatformGroups(sessions);
    PartitionSpec(sessions, SPlatform);
    PlatformEntriesAt(g.keys, g.m, |sessions|);
    var ms := PlatformMetricsOf(sessions);
    forall i | 0 <= i < |ms|
      ensures |Select(sessions, SPlatform, g.keys[i])| <= |sessions|
    {
    }
  }

  lemma {:induction false} PlatformEntriesSums(keys: seq<Platform>, m: map<Platform, seq<UsageSession>>,
                                               sessions: seq<UsageSession>)
    requires forall k :: k in keys ==> k in m && m[k] != [] && m[k] == Select(sessions, SPlatform, k)
    ensures var es := PlatformEntries(keys, m, |sessions|);
            && SumNat(es, MSessions) == SumPerKeyNat(keys, sessions, SPlatform, OneSession)
            && SumNat(es, MTokens) == SumPerKeyNat(keys, sessions, SPlatform, STokens)
            && SumReal(es, MCost) == SumPerKeyReal(keys, sessions, SPlatform, SCost)
    decreases |keys|
  {
    if keys != [] {
      var k := Last(keys);
      PlatformEntriesSums(Init(keys), m, sessions);
      InitOfSnoc(PlatformEntries(Init(keys), m, |sessions|), PlatformEntry(k, m[k], |sessions|));
      SumOnes(m[k], OneSession);
    }
  }

  /** The shares add up to the entries' session count over the total, in percent. */
  lemma {:induction false} PlatformShareSum(keys: seq<Platform>, m: map<Platform, seq<UsageSession>>, total: nat)
    requires forall k :: k in keys ==> k in m && m[k] != []
    requires total > 0
    ensures var es := PlatformEntries(keys, m, total);
            SumReal(es, MShare) == (SumNat(es, MSessions) as real / total as real) * 100.0
    decreases |keys|
  {
    if keys != [] {
      var k := Last(keys);
      PlatformShareSum(Init(keys), m, total);
      var es0 := PlatformEntries(Init(keys), m, total);
      InitOfSnoc(es0, PlatformEntry(k, m[k], total));
      ShareAdd(SumNat(es0, MSessions) as real, |m[k]| as real, total as real);
    }
  }

  lemma ShareAdd(a: real, c: real, n: real)
    requires n > 0.0
    ensures (a / n) * 100.0 + (c / n) * 100.0 == ((a + c) / n) * 100.0
  {
  }

  /** The entries account for every session: counts add up to the number of sessions,
      tokens and cost to the totals. */
  lemma PlatformMetricsConserve(sessions: seq<UsageSession>)
    ensures var ms := PlatformMetricsOf(sessions);
            && SumNat(ms, MSessions) == |sessions|
            && SumNat(ms, MTokens) == SumNat(sessions, STokens)
            && SumReal(ms, MCost) == SumReal(sessions, SCost)
  {
    var g := PlatformGroups(sessions);
    PartitionSpec(sessions, SPlatform);
    GroupFoldKeys(sessions, SPlatform, NoItems, Push);
    PlatformEntriesSums(g.keys, g.m, sessions);
    SumPerKeyNatConserves(g.keys, sessions, SPlatform, OneSession);
    SumPerKeyNatConserves(g.keys, sessions, SPlatform, STokens);
    SumPerKeyRealConserves(g.keys, sessions, SPlatform, SCost);
    SumOnes(sessions, OneSession);
  }

  /** For some sessions the shares add up to 100 percent. */
  lemma PlatformSharesTotal(sessions: seq<UsageSession>)
    requires sessions != []
    ensures SumReal(PlatformMetricsOf(sessions), MShare) == 100.0
  {
    var g := PlatformGroups(sessions);
    PartitionSpec(sessions, SPlatform);
    var es := PlatformMetricsOf(sessions);
    assert es == PlatformEntries(g.keys, g.m, |sessions|);
    PlatformMetricsConserve(sessions);
    PlatformShareSum(g.keys, g.m, |sessions|);
    var n := |sessions| as real;
    assert SumNat(es, MSessions) as real == n;
    WholeShare(n);
  }

  lemma WholeShare(n: real)
    requires n > 0.0
    ensures (n / n) * 100.0 == 100.0
  {
  }

  // ---------------------------------------------------------------------------------
  // Views for the selected project and for days

  /** `getFilteredSessions` over the state's sessions and selected project. */
  function GetFilteredSessions(sessions: seq<UsageSession>, selected: string): seq<UsageSession>
  {
    if selected == "all" then sessions else Filter(sessions, (s: UsageSession) => s.projectName == selected)
  }

  /** `'all'` selects every session; any other selection exactly the sessions of that
      project, in order. */
  lemma GetFilteredSessionsSpec(sessions: seq<UsageSession>, selected: string)
    ensures selected == "all" ==> GetFilteredSessions(sessions, selected) == sessions
    ensures selected != "all" ==>
              forall s :: s in GetFilteredSessions(sessions, selected) <==> s in sessions && s.projectName == selected
  {
    FilterMembers(sessions, (s: UsageSession) => s.projectName == selected);
  }

  /** The sessions whose timestamp starts with the date text. */
  function OnDay(sessions: seq<UsageSession>, dateStr: string): seq<UsageSession>
  {
    Filter(sessions, OnDate(dateStr))
  }

  /** `s => s.timestamp.startsWith(dateStr)`. */
  function OnDate(dateStr: string): UsageSession -> bool
  {
    (s: UsageSession) => StartsWith(s.timestamp, dateStr)
  }

  predicate IsVSCode(s: UsageSession) { s.platform == VSCode }
  predicate IsWeb(s: UsageSession) { s.platform == Web }

  /** The time-series entry for one day. */
  function DayEntry(sessions: seq<UsageSession>, dateStr: string): TimeSeriesData
  {
    var ds := OnDay(sessions, dateStr);
    TimeSeriesData(
      dateStr,
      |ds|,
      SumNat(ds, STokens),
      SumReal(ds, SCost),
      SumNat(Filter(ds, IsVSCode), STokens),
      SumNat(Filter(ds, IsWeb), STokens))
  }

  /** A day entry counts and sums the sessions of its day; the editor and web shares
      together never exceed its tokens. */
  lemma DayEntrySpec(sessions: seq<UsageSession>, dateStr: string)
    ensures var e := DayEntry(sessions, dateStr);
            && e.date == dateStr
            && e.sessions == |OnDay(sessions, dateStr)|
            && (forall s :: s in OnDay(sessions, dateStr) <==> s in sessions && StartsWith(s.timestamp, dateStr))
            && e.vscodeTokens + e.webTokens <= e.tokens <= SumNat(sessions, STokens)
  {
    var ds := OnDay(sessions, dateStr);
    FilterMembers(sessions, OnDate(dateStr));
    FilterDisjointSum(ds, IsVSCode, IsWeb, STokens);
    FilterSumBound(sessions, OnDate(dateStr), STokens);
  }

  /** `getTodayData`, with `todayStr` the `YYYY-MM-DD` text of today. */
  function GetTodayData(sessions: seq<UsageSession>, todayStr: string): (r: seq<TimeSeriesData>)
  {
    if |OnDay(sessions, todayStr)| == 0 then [] else [DayEntry(sessions, todayStr)]
  }

  /** Nothing for a day without sessions, otherwise the single entry of that day. */
  lemma GetTodayDataSpec(sessions: seq<UsageSession>, todayStr: string)
    ensures GetTodayData(sessions, todayStr) == [] <==>
              forall s :: s in sessions ==> !StartsWith(s.timestamp, todayStr)
    ensures |GetTodayData(sessions, todayStr)| <= 1
    ensures forall e :: e in GetTodayData(sessions, todayStr) ==> e.date == todayStr && e.sessions > 0
  {
    FilterMembers(sessions, OnDate(todayStr));
    var ds := OnDay(sessions, todayStr);
    if ds != [] {
      assert ds[0] in ds;
    }
  }

  /** The day `back` days before today, as text. */
  function DayText(today: Date, back: nat): string
    requires Valid(today) && back <= DayNumber(today)
  {
    FormatDate(BackDays(today, back))
  }

  /** The dates as seen from `today`: `DayTexts(today)(back)` is the day `back` days
      before today, as text. */
  function DayTexts(today: Date): nat --> string
    requires Valid(today)
  {
    (back: nat) requires back <= DayNumber(today) => DayText(today, back)
  }

  /** `getTimeSeriesData(days)`: today's data for one day; otherwise one entry per day from
      `days - 1` days ago up to today, oldest first. `today` must lie at least `days - 1`
      days after 0001-01-01. */
  method GetTimeSeriesData(sessions: seq<UsageSession>, days: int, today: Date) returns (data: seq<TimeSeriesData>)
    requires Valid(today) && days - 1 <= DayNumber(today)
    ensures days == 1 ==> data == GetTodayData(sessions, DayText(today, 0))
    ensures days != 1 ==> |data| == if days > 0 then days else 0
    ensures days != 1 ==> forall j :: 0 <= j < |data| ==> data[j] == DayEntry(sessions, DayTexts(today)(days - 1 - j))
  {
    if days == 1 {
      data := GetTodayData(sessions, DayText(today, 0));
    } else {
      data := DailySeries(sessions, days, DayTexts(today));
    }
  }

  /** The loop `for (let i = days - 1; i >= 0; i--)`: one entry per day from `days - 1`
      days ago up to today, oldest first; nothing for a count below one. `dayText(i)` is
      the date `i` days before today, as text. */
  method DailySeries(sessions: seq<UsageSession>, days: int, dayText: nat --> string) returns (data: seq<TimeSeriesData>)
    requires forall back: nat :: back < days ==> dayText.requires(back)
    ensures |data| == if days > 0 then days else 0
    ensures forall j :: 0 <= j < |data| ==> data[j] == DayEntry(sessions, dayText(days - 1 - j))
  {
    data := [];
    var i := days - 1;
    while i >= 0
      invariant i <= days - 1
      invariant days > 0 ==> i >= -1
      invariant days <= 0 ==> i == days - 1
      invariant |data| == days - 1 - i
      invariant forall j :: 0 <= j < |data| ==> data[j] == DayEntry(sessions, dayText(days - 1 - j))
    {
      data := data + [DayEntry(sessions, dayText(i))];
      i := i - 1;
    }
  }

  /** The series' dates are the successive days up to today, so they ascend strictly and
      a later entry never shares an earlier one's date. */
  lemma DayTextAscending(today: Date, b1: nat, b2: nat)
    requires Valid(today) && b1 <= DayNumber(today) && b2 <= DayNumber(today)
    ensures LexLess(DayTexts(today)(b1), DayTexts(today)(b2)) <==> b2 < b1
    ensures DayTexts(today)(b1) == DayTexts(today)(b2) <==> b1 == b2
  {
    assert DayTexts(today)(b1) == DayText(today, b1);
    assert DayTexts(today)(b2) == DayText(today, b2);
    FormatOrder(BackDays(today, b1), BackDays(today, b2));
  }
}
