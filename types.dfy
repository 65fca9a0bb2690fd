/** The record shapes shared across the dashboard: the raw rows the usage tool reports
    (every numeric field may be missing), and the typed records of `src/types/index.ts`. */
module Types {
  import opened Seqs

  /** One model's share inside a daily row, as reported. */
  datatype RawBreakdown = RawBreakdown(
    modelName: string,
    inputTokens: Option<nat>,
    outputTokens: Option<nat>,
    cacheCreationTokens: Option<nat>,
    cacheReadTokens: Option<nat>,
    cost: Option<real>)

  /** A daily (or per-project daily) row of the usage tool. A missing array field is `None`. */
  datatype DailyRecord = DailyRecord(
    date: Option<string>,
    inputTokens: Option<nat>,
    outputTokens: Option<nat>,
    cacheCreationTokens: Option<nat>,
    cacheReadTokens: Option<nat>,
    totalTokens: Option<nat>,
    totalCost: Option<real>,
    modelsUsed: Option<seq<string>>,
    modelBreakdowns: Option<seq<RawBreakdown>>,
    projectPath: Option<string>,
    projectName: Option<string>)

  /** A session row of the usage tool. */
  datatype RawSession = RawSession(
    sessionId: string,
    inputTokens: Option<nat>,
    outputTokens: Option<nat>,
    totalTokens: Option<nat>,
    cacheCreationTokens: Option<nat>,
    cacheReadTokens: Option<nat>,
    totalCost: Option<real>,
    lastActivity: Option<string>,
    modelsUsed: Option<seq<string>>)

  /** A billing-block row of the usage tool. */
  datatype RawBlock = RawBlock(
    id: string,
    startTime: string,
    isGap: bool,
    costUSD: Option<real>,
    totalTokens: Option<nat>,
    entries: Option<nat>)

  datatype Platform = VSCode | Web | Api

  datatype VSCodeData = VSCodeData(
    projectPath: string,
    projectName: Option<string>,
    programmingLanguage: string,
    filesModified: nat,
    codeGenerated: bool,
    linesAdded: nat,
    linesDeleted: nat,
    commandUsed: Option<string>,
    cacheCreationTokens: Option<nat>,
    cacheReadTokens: Option<nat>)

  /** `UsageSession`. */
  datatype UsageSession = UsageSession(
    sessionId: string,
    timestamp: string,
    platform: Platform,
    model: string,
    inputTokens: nat,
    outputTokens: nat,
    totalTokens: nat,
    cost: real,
    sessionDuration: nat,
    projectName: string,
    vscodeData: Option<VSCodeData>)

  /** `ModelBreakdown`. */
  datatype ModelBreakdown = ModelBreakdown(
    modelName: string,
    inputTokens: nat,
    outputTokens: nat,
    cacheCreationTokens: nat,
    cacheReadTokens: nat,
    cost: real)

  /** `WeeklyData` and `MonthlyData`: `key` is the `week` or the `month` field. */
  datatype Bucket = Bucket(
    key: string,
    inputTokens: nat,
    outputTokens: nat,
    cacheCreationTokens: nat,
    cacheReadTokens: nat,
    totalTokens: nat,
    totalCost: real,
    modelsUsed: seq<string>,
    modelBreakdowns: seq<ModelBreakdown>)

  /** `ProjectData`, as the client keeps it per project name. */
  datatype ProjectData = ProjectData(
    name: string,
    totalSessions: nat,
    totalTokens: nat,
    totalCost: real,
    lastActive: Option<string>,
    models: seq<string>,
    platforms: seq<Platform>)

  // Field projections of a client session, as the reductions read them.
  function STokens(s: UsageSession): nat { s.totalTokens }
  function SInput(s: UsageSession): nat { s.inputTokens }
  function SOutput(s: UsageSession): nat { s.outputTokens }
  function SCost(s: UsageSession): real { s.cost }
  function SDuration(s: UsageSession): nat { s.sessionDuration }
  function SModel(s: UsageSession): string { s.model }
  function SPlatform(s: UsageSession): Platform { s.platform }

  /** `BillingBlock` as the client keeps it after transformation. */
  datatype BillingBlock = BillingBlock(id: string, date: string, amount: real, tokens: nat, sessions: nat, status: string)

  /** A `{ sessions, tokens, cost }` usage window. */
  datatype Usage = Usage(sessions: nat, tokens: nat, cost: real)

  /** `DashboardMetrics`. */
  datatype DashboardMetrics = DashboardMetrics(
    totalSessions: nat,
    totalTokens: nat,
    totalCost: real,
    averageSessionDuration: real,
    mostUsedPlatform: Platform,
    todayUsage: Usage,
    weeklyUsage: Usage,
    monthlyUsage: Usage)

  /** `PlatformMetrics`. */
  datatype PlatformMetrics = PlatformMetrics(
    platform: Platform,
    sessions: nat,
    totalTokens: nat,
    totalCost: real,
    averageSessionDuration: real,
    percentageOfTotal: real)

  /** `TimeSeriesData`. */
  datatype TimeSeriesData = TimeSeriesData(
    date: string,
    sessions: nat,
    tokens: nat,
    cost: real,
    vscodeTokens: nat,
    webTokens: nat)

  /** `CostBreakdown`. */
  datatype CostBreakdown = CostBreakdown(model: string, sessions: nat, inputTokens: nat, outputTokens: nat, totalCost: real)

  /** `ProjectMetrics`. */
  datatype ProjectMetrics = ProjectMetrics(
    name: string,
    path: string,
    sessions: nat,
    totalTokens: nat,
    totalCost: real,
    averageSessionDuration: real,
    percentageOfTotal: real,
    lastActivityDate: string)
}
