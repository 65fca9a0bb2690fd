/** `server.js`: the automated usage service. It normalises the usage tool's daily rows
    into the records the dashboard plots, summarises and flattens the per-project
    arrays, and keeps the latest result of each report kind in its `last*` fields. */
module UsageService {
  import opened Seqs
  import opened Strings
  import opened Grouping
  import opened JsNumber
  import opened Types
  import WM = WeeklyMonthly

  /** The two environment variables the user id is read from. */
  datatype Env = Env(username: Option<string>, user: Option<string>)

  /** `process.env.USERNAME || process.env.USER || 'system-user'`. */
  function UserId(env: Env): (r: string)
    ensures r != ""
    ensures env.username.Some? && env.username.value != "" ==> r == env.username.value
  {
    OrElse(env.username, OrElse(env.user, "system-user"))
  }

  const DefaultSourceModel: string := "claude-sonnet-4-20250514"

  /** The lookup table of `mapCCUsageModel`. */
  const ModelMap: map<string, string> := map[
    "claude-sonnet-4-20250514" := "claude-3-sonnet",
    "claude-3-opus" := "claude-3-opus",
    "claude-3-sonnet" := "claude-3-sonnet",
    "claude-3-haiku" := "claude-3-haiku",
    "claude-2" := "claude-2",
    "claude-instant" := "claude-instant"]

  /** The model names the dashboard knows. */
  const ClientModels: set<string> := {"claude-3-opus", "claude-3-sonnet", "claude-3-haiku", "claude-2", "claude-instant"}

  /** `modelMap[modelName] || 'claude-3-sonnet'`: always one of the dashboard's names. */
  function MapCCUsageModel(name: string): (r: string)
    ensures r in ClientModels
    ensures name !in ModelMap ==> r == "claude-3-sonnet"
  {
    if name in ModelMap then ModelMap[name] else "claude-3-sonnet"
  }

  /** The dashboard's names map to themselves, so mapping twice is mapping once. */
  lemma MapCCUsageModelIdempotent(name: string)
    ensures forall c :: c in ClientModels ==> MapCCUsageModel(c) == c
    ensures MapCCUsageModel(MapCCUsageModel(name)) == MapCCUsageModel(name)
  {
    assert forall c :: c in ClientModels ==> c in ModelMap && ModelMap[c] == c;
  }

  /** `classifyCommandFromTokens`: the ratio `in / (out || 1)` is compared first, then the
      output size. */
  function ClassifyCommandFromTokens(inputTokens: nat, outputTokens: nat): string
  {
    var d := if outputTokens == 0 then 1 else outputTokens;
    var ratio := inputTokens as real / d as real;
    if ratio < 0.3 then "Generate Code"
    else if ratio > 2.0 then "Explain Code"
    else if outputTokens > 5000 then "Refactor"
    else if outputTokens > 2000 then "Code Review"
    else "Code Assistance"
  }

  /** The classification in integer terms, with d the output count or 1 when it is 0:
      each label holds exactly on its own region. */
  lemma ClassifyByCounts(inputTokens: nat, outputTokens: nat)
    ensures var d := if outputTokens == 0 then 1 else outputTokens;
            var c := ClassifyCommandFromTokens(inputTokens, outputTokens);
            && (c == "Generate Code" <==> 10 * inputTokens < 3 * d)
            && (c == "Explain Code" <==> 10 * inputTokens >= 3 * d && inputTokens > 2 * d)
            && (c == "Refactor" <==> 10 * inputTokens >= 3 * d && inputTokens <= 2 * d && outputTokens > 5000)
            && (c == "Code Review" <==> 10 * inputTokens >= 3 * d && inputTokens <= 2 * d && 2000 < outputTokens <= 5000)
            && (c == "Code Assistance" <==> 10 * inputTokens >= 3 * d && inputTokens <= 2 * d && outputTokens <= 2000)
  {
    var d := if outputTokens == 0 then 1 else outputTokens;
    DivCompare(inputTokens as real, d as real, 0.3);
    DivCompare(inputTokens as real, d as real, 2.0);
  }

  /** The tool-specific part of a normalised record. */
  datatype ServerVSCode = ServerVSCode(
    projectPath: string,
    projectName: string,
    programmingLanguage: string,
    filesModified: nat,
    codeGenerated: bool,
    linesAdded: nat,
    linesDeleted: nat,
    commandUsed: string,
    cacheCreationTokens: nat,
    cacheReadTokens: nat)

  /** A record as `processRealCCUsageData` returns it. */
  datatype ServerRecord = ServerRecord(
    id: string,
    timestamp: string,
    platform: Platform,
    userId: string,
    inputTokens: nat,
    outputTokens: nat,
    totalTokens: nat,
    cost: real,
    model: string,
    sessionDuration: nat,
    vscodeData: ServerVSCode)

  function NTotal(n: ServerRecord): nat { n.totalTokens }
  function NId(n: ServerRecord): string { n.id }
  predicate HasTokens(n: ServerRecord) { n.totalTokens > 0 }

  /** `${record.date}`: a missing date prints as "undefined". */
  function DateText(date: Option<string>): string
  {
    if date.Some? then date.value else "undefined"
  }

  function RecordId(date: Option<string>, index: nat): string
  {
    "ccusage-" + DateText(date) + "-" + NatToString(index)
  }

  /** `record.modelsUsed?.[0] || 'claude-sonnet-4-20250514'`. */
  function FirstModel(r: DailyRecord): string
  {
    if r.modelsUsed.Some? && |r.modelsUsed.value| > 0 && r.modelsUsed.value[0] != ""
    then r.modelsUsed.value[0] else DefaultSourceModel
  }

  function FourKinds(r: DailyRecord): nat
  {
    WM.InputOf(r) + WM.OutputOf(r) + WM.CacheCreationOf(r) + WM.CacheReadOf(r)
  }

  /** The body of the `map` for the row at `index`. */
  function Normalize(r: DailyRecord, index: nat, env: Env, nowIso: string): ServerRecord
  {
    var input := WM.InputOf(r);
    var output := WM.OutputOf(r);
    var total := if WM.TotalOf(r) != 0 then WM.TotalOf(r) else FourKinds(r);
    ServerRecord(
      RecordId(r.date, index),
      if r.date.Some? && r.date.value != "" then r.date.value + "T12:00:00.000Z" else nowIso,
      VSCode,
      UserId(env),
      input,
      output,
      total,
      WM.CostOf(r),
      MapCCUsageModel(FirstModel(r)),
      CeilDiv(total, 10000),
      ServerVSCode(
        OrElse(r.projectPath, "/workspace/claude-code-usage"),
        OrElse(r.projectName, "Default Project"),
        "typescript",
        CeilDiv(output, 500),
        output > 1000,
        CeilDiv(output, 50),
        CeilDiv(input, 100),
        ClassifyCommandFromTokens(input, output),
        WM.CacheCreationOf(r),
        WM.CacheReadOf(r)))
  }

  /** What a normalised record holds: the reported total unless it is missing or 0, then
      the four kinds' sum; the derived counts are ceilings of the stated quotients. */
  lemma NormalizeSpec(r: DailyRecord, index: nat, env: Env, nowIso: string)
    ensures var n := Normalize(r, index, env, nowIso);
            && n.inputTokens == Or0(r.inputTokens)
            && n.outputTokens == Or0(r.outputTokens)
            && (r.totalTokens.Some? && r.totalTokens.value > 0 ==> n.totalTokens == r.totalTokens.value)
            && (r.totalTokens.None? || r.totalTokens.value == 0 ==> n.totalTokens == FourKinds(r))
            && (n.totalTokens > 0 <==> Or0(r.totalTokens) > 0 || FourKinds(r) > 0)
            && n.cost == Or0Real(r.totalCost)
            && (n.sessionDuration - 1) * 10000 < n.totalTokens <= n.sessionDuration * 10000
            && (n.vscodeData.filesModified - 1) * 500 < n.outputTokens <= n.vscodeData.filesModified * 500
            && (n.vscodeData.linesAdded - 1) * 50 < n.outputTokens <= n.vscodeData.linesAdded * 50
            && (n.vscodeData.linesDeleted - 1) * 100 < n.inputTokens <= n.vscodeData.linesDeleted * 100
            && (n.vscodeData.codeGenerated <==> n.outputTokens > 1000)
            && n.model in ClientModels
            && n.userId != ""
            && n.vscodeData.projectName != ""
  {
  }

  /** Records at different indices get different ids, whatever their dates: the index is
      the part after the id's last dash. */
  lemma RecordIdsDistinct(d1: Option<string>, i: nat, d2: Option<string>, j: nat)
    requires i != j
    ensures RecordId(d1, i) != RecordId(d2, j)
  {
    IdEndsWithIndex(d1, i);
    IdEndsWithIndex(d2, j);
    if RecordId(d1, i) == RecordId(d2, j) {
      NatToStringRoundTrip(i);
      NatToStringRoundTrip(j);
    }
  }

  lemma IdEndsWithIndex(d: Option<string>, i: nat)
    ensures Last(Split(RecordId(d, i), '-')) == NatToString(i)
  {
    var prefix := "ccusage-" + DateText(d);
    var digits := NatToString(i);
    assert RecordId(d, i) == prefix + ['-'] + digits;
    assert '-' !in digits;
    SplitConcat(prefix, digits, '-');
    SplitNoSeparator(digits, '-');
  }

  /** `data.map((record, index) => ...)`. */
  function NormalizeAll(data: seq<DailyRecord>, env: Env, nowIso: string): (r: seq<ServerRecord>)
    ensures |r| == |data|
    ensures forall i :: 0 <= i < |data| ==> r[i] == Normalize(data[i], i, env, nowIso)
  {
    MapIndexed(data, (r: DailyRecord, index: nat) => Normalize(r, index, env, nowIso))
  }

  /** `processRealCCUsageData(data)`: normalise every row, then keep the records with tokens. */
  function ProcessRealCCUsageData(data: seq<DailyRecord>, env: Env, nowIso: string): seq<ServerRecord>
  {
    Filter(NormalizeAll(data, env, nowIso), HasTokens)
  }

  /** The output keeps exactly the normalised rows that have tokens, each under the id of
      its position before filtering. */
  lemma ProcessedMembers(data: seq<DailyRecord>, env: Env, nowIso: string)
    ensures forall n :: n in ProcessRealCCUsageData(data, env, nowIso) <==>
              exists i :: 0 <= i < |data| && n == Normalize(data[i], i, env, nowIso) && n.totalTokens > 0
  {
    var f := (r: DailyRecord, index: nat) => Normalize(r, index, env, nowIso);
    FilterMapIndexedMembers(data, f, HasTokens);
  }

  /** The output ids are distinct, and dropping the token-less rows loses no tokens. */
  lemma ProcessedIdsAndTokens(data: seq<DailyRecord>, env: Env, nowIso: string)
    ensures NoDup(MapSeq(ProcessRealCCUsageData(data, env, nowIso), NId))
    ensures SumNat(ProcessRealCCUsageData(data, env, nowIso), NTotal) == SumNat(NormalizeAll(data, env, nowIso), NTotal)
  {
    var all := NormalizeAll(data, env, nowIso);
    assert NoDup(MapSeq(all, NId)) by {
      forall i, j | 0 <= i < j < |all| ensures MapSeq(all, NId)[i] != MapSeq(all, NId)[j] {
        assert all[i].id == RecordId(data[i].date, i);
        assert all[j].id == RecordId(data[j].date, j);
        RecordIdsDistinct(data[i].date, i, data[j].date, j);
      }
    }
    FilterNoDup(all, HasTokens, NId);
    FilterKeepsSum(all, HasTokens, NTotal);
  }

  /** A value of the per-project object: an array of daily rows, or anything else. */
  datatype ProjectValue = NotArray | Days(days: seq<DailyRecord>)

  /** One `[projectPath, projectData]` entry of the object, in iteration order. */
  datatype ProjectEntry = ProjectEntry(path: string, value: ProjectValue)

  /** `path.split('/').pop() || path.split('\\').pop() || 'Unknown Project'`. */
  function PathProjectName(path: string): (name: string)
    ensures name != ""
  {
    var slash := Last(Split(path, '/'));
    var backslash := Last(Split(path, '\\'));
    if slash != "" then slash else if backslash != "" then backslash else "Unknown Project"
  }

  /** A slash path names the project after its last segment. */
  lemma PathProjectNameOfSlashPath(dir: string, base: string)
    requires '/' !in base && base != ""
    ensures PathProjectName(dir + "/" + base) == base
  {
    assert dir + "/" + base == dir + ['/'] + base;
    SplitConcat(dir, base, '/');
    SplitNoSeparator(base, '/');
  }

  /** A path without any slash keeps its whole text as its name, backslashes included. */
  lemma PathProjectNameWithoutSlash(path: string)
    requires '/' !in path && path != ""
    ensures PathProjectName(path) == path
  {
    SplitNoSeparator(path, '/');
  }

  /** A trailing slash makes the first choice empty; with no backslash the whole path is
      the name. */
  lemma PathProjectNameTrailingSlash(dir: string)
    requires '\\' !in dir
    ensures PathProjectName(dir + "/") == dir + "/"
  {
    InitOfSnoc(dir, '/');
    assert '\\' !in dir + "/";
    SplitNoSeparator(dir + "/", '\\');
  }

  function EntryName(e: ProjectEntry): string { PathProjectName(e.path) }

  /** The per-project summary of `processProjectData`. */
  datatype ProjectSummary = ProjectSummary(path: string, sessions: seq<DailyRecord>, totalTokens: nat, totalCost: real, sessionCount: nat)

  /** The record written for one entry: sums over its array, or zeros and no sessions for
      a value that is not an array. */
  function SummaryOf(e: ProjectEntry): (s: ProjectSummary)
    ensures s.path == e.path
    ensures s.sessions == (if e.value.Days? then e.value.days else [])
    ensures s.sessionCount == |s.sessions|
    ensures s.totalTokens == SumNat(s.sessions, WM.TotalOf)
    ensures s.totalCost == SumReal(s.sessions, WM.CostOf)
  {
    match e.value
    case Days(ds) => ProjectSummary(e.path, ds, SumNat(ds, WM.TotalOf), SumReal(ds, WM.CostOf), |ds|)
    case NotArray => ProjectSummary(e.path, [], 0, 0.0, 0)
  }

  function NoSummary(name: string): ProjectSummary { ProjectSummary("", [], 0, 0.0, 0) }

  /** `processedProjects[projectName] = {...}`: the entry replaces whatever was there. */
  function Replace(s: ProjectSummary, e: ProjectEntry): ProjectSummary { SummaryOf(e) }

  /** The object `processProjectData` builds: a key keeps the position of its first entry
      and the summary of its last. */
  function ProjectTable(projects: seq<ProjectEntry>): Groups<string, ProjectSummary>
  {
    GroupFold(projects, EntryName, NoSummary, Replace)
  }

  /** One key per derived name, in order of first appearance; a later path with the same
      name overwrites the summary of an earlier one. */
  lemma ProjectTableSpec(projects: seq<ProjectEntry>)
    ensures var t := ProjectTable(projects);
            && t.keys == Dedup(MapSeq(projects, EntryName))
            && (forall k :: k in t.m <==> k in MapSeq(projects, EntryName))
            && forall k :: k in t.m ==>
                 Select(projects, EntryName, k) != [] && t.m[k] == SummaryOf(Last(Select(projects, EntryName, k)))
  {
    GroupOverwriteSpec(projects, EntryName, NoSummary, Replace, SummaryOf);
  }

  /** `processProjectData(projects)`: the `for ... of Object.entries(projects)` loop. */
  method ProcessProjectData(projects: seq<ProjectEntry>) returns (table: Groups<string, ProjectSummary>)
    ensures table == ProjectTable(projects)
  {
    var keys: seq<string> := [];
    var m: map<string, ProjectSummary> := map[];
    var i := 0;
    while i < |projects|
      invariant 0 <= i <= |projects|
      invariant Groups(keys, m) == GroupFold(projects[..i], EntryName, NoSummary, Replace)
    {
      var e := projects[i];
      var name := PathProjectName(e.path);
      GroupIntoStep(projects, i, keys, m, EntryName, NoSummary, Replace);
      if name !in m {
        keys := keys + [name];
      }
      m := m[name := SummaryOf(e)];
      i := i + 1;
    }
    assert projects[..i] == projects;
    table := Groups(keys, m);
  }

  /** `{ ...day, projectName, projectPath }`. */
  function Tag(d: DailyRecord, name: string, path: string): DailyRecord
  {
    d.(projectName := Some(name), projectPath := Some(path))
  }

  function TagAll(ds: seq<DailyRecord>, name: string, path: string): (r: seq<DailyRecord>)
    ensures |r| == |ds| && forall i :: 0 <= i < |ds| ==> r[i] == Tag(ds[i], name, path)
  {
    if ds == [] then [] else TagAll(Init(ds), name, path) + [Tag(Last(ds), name, path)]
  }

  /** The rows one entry contributes. */
  function EntryRows(e: ProjectEntry): seq<DailyRecord>
  {
    if e.value.Days? then TagAll(e.value.days, EntryName(e), e.path) else []
  }

  function EntryLength(e: ProjectEntry): nat
  {
    if e.value.Days? then |e.value.days| else 0
  }

  /** The rows of all entries, entry after entry. */
  function Flattened(projects: seq<ProjectEntry>): seq<DailyRecord>
  {
    if projects == [] then [] else Flattened(Init(projects)) + EntryRows(Last(projects))
  }

  /** Flattening: one row per array element, entries kept in order, each row tagged with
      its entry's name and path. */
  lemma {:induction false} FlattenedSpec(projects: seq<ProjectEntry>)
    ensures |Flattened(projects)| == SumNat(projects, EntryLength)
    ensures forall d :: d in Flattened(projects) ==>
              exists e :: e in projects && e.value.Days? && d.projectName == Some(EntryName(e)) && d.projectPath == Some(e.path)
    decreases |projects|
  {
    if projects != [] {
      var front, e := Init(projects), Last(projects);
      FlattenedSpec(front);
      assert forall x :: x in front ==> x in projects;
      forall d | d in EntryRows(e)
        ensures e.value.Days? && d.projectName == Some(EntryName(e)) && d.projectPath == Some(e.path)
      {
        var i :| 0 <= i < |EntryRows(e)| && EntryRows(e)[i] == d;
      }
    }
  }

  /** Flattening a concatenation flattens each part. */
  lemma FlattenedAppend(a: seq<ProjectEntry>, b: seq<ProjectEntry>)
    ensures Flattened(a + b) == Flattened(a) + Flattened(b)
  {
    FlattenedIsFlatten(a);
    FlattenedIsFlatten(b);
    FlattenedIsFlatten(a + b);
    MapSeqAppend(a, b, EntryRows);
    FlattenAppend(MapSeq(a, EntryRows), MapSeq(b, EntryRows));
  }

  /** The entry-wise flattening is the flattening of the entries' row lists. */
  lemma {:induction false} FlattenedIsFlatten(xs: seq<ProjectEntry>)
    ensures Flattened(xs) == Flatten(MapSeq(xs, EntryRows))
    decreases |xs|
  {
    if xs != [] {
      FlattenedIsFlatten(Init(xs));
      assert Init(MapSeq(xs, EntryRows)) == MapSeq(Init(xs), EntryRows);
    }
  }

  /** `flattenProjectData(projects)`: the nested loops pushing tagged rows. */
  method FlattenProjectData(projects: seq<ProjectEntry>) returns (flattened: seq<DailyRecord>)
    ensures flattened == Flattened(projects)
  {
    flattened := [];
    var i := 0;
    while i < |projects|
      invariant 0 <= i <= |projects|
      invariant flattened == Flattened(projects[..i])
    {
      var e := projects[i];
      assert Init(projects[..i + 1]) == projects[..i];
      if e.value.Days? {
        var name := PathProjectName(e.path);
        var days := e.value.days;
        var j := 0;
        while j < |days|
          invariant 0 <= j <= |days|
          invariant flattened == Flattened(projects[..i]) + TagAll(days[..j], name, e.path)
        {
          assert Init(days[..j + 1]) == days[..j];
          flattened := flattened + [Tag(days[j], name, e.path)];
          j := j + 1;
        }
        assert days[..j] == days;
      }
      i := i + 1;
    }
    assert projects[..i] == projects;
  }

  /** A payload field that should hold an array. */
  datatype Field<T> = Absent | NotAnArray | Array(items: seq<T>)

  /** The parsed output of one report command. `projects` is `None` when the field is
      missing or not an object. */
  datatype Payload = Payload(
    projects: Option<seq<ProjectEntry>>,
    daily: Field<DailyRecord>,
    weekly: Field<DailyRecord>,
    monthly: Field<DailyRecord>,
    sessions: Field<RawSession>,
    blocks: Field<RawBlock>)

  /** The `last*` fields of the service. */
  datatype ServiceState = ServiceState(
    lastData: seq<ServerRecord>,
    lastProjectData: Groups<string, ProjectSummary>,
    lastWeeklyData: seq<DailyRecord>,
    lastMonthlyData: seq<DailyRecord>,
    lastSessionData: seq<RawSession>,
    lastBillingBlocksData: seq<RawBlock>)

  const InitialState: ServiceState := ServiceState([], Groups([], map[]), [], [], [], [])

  /** `processDataByType(type, data)` on the service's state. */
  function NextState(st: ServiceState, kind: string, data: Payload, env: Env, nowIso: string): ServiceState
  {
    if kind == "daily-instances" then
      if data.projects.Some? then
        st.(lastProjectData := ProjectTable(data.projects.value),
            lastData := ProcessRealCCUsageData(Flattened(data.projects.value), env, nowIso))
      else st
    else if kind == "daily" then
      if data.daily.Array? && |st.lastData| == 0 then st.(lastData := ProcessRealCCUsageData(data.daily.items, env, nowIso)) else st
    else if kind == "weekly" then
      if data.weekly.Array? then st.(lastWeeklyData := data.weekly.items) else st
    else if kind == "monthly" then
      if data.monthly.Array? then st.(lastMonthlyData := data.monthly.items) else st
    else if kind == "session" then
      if data.sessions.Array? then st.(lastSessionData := data.sessions.items) else st
    else if kind == "blocks" then
      if data.blocks.Array? then st.(lastBillingBlocksData := data.blocks.items) else st
    else st
  }

  /** Each kind writes only its own field(s); 'daily-instances' is the only kind that
      writes two; an unknown kind changes nothing. */
  lemma NextStateFrame(st: ServiceState, kind: string, data: Payload, env: Env, nowIso: string)
    ensures var nx := NextState(st, kind, data, env, nowIso);
            && (kind != "daily-instances" && kind != "daily" ==> nx.lastData == st.lastData)
            && (kind != "daily-instances" ==> nx.lastProjectData == st.lastProjectData)
            && (kind != "weekly" ==> nx.lastWeeklyData == st.lastWeeklyData)
            && (kind != "monthly" ==> nx.lastMonthlyData == st.lastMonthlyData)
            && (kind != "session" ==> nx.lastSessionData == st.lastSessionData)
            && (kind != "blocks" ==> nx.lastBillingBlocksData == st.lastBillingBlocksData)
  {
  }

  /** The state changes only for an array payload, or a projects object for
      'daily-instances', and 'daily' only while `lastData` is empty, however it came to
      be filled; an array payload replaces its field with the array. */
  lemma NextStateGuards(st: ServiceState, kind: string, data: Payload, env: Env, nowIso: string)
    ensures kind == "daily-instances" && data.projects.None? ==> NextState(st, kind, data, env, nowIso) == st
    ensures kind == "daily" && (!data.daily.Array? || |st.lastData| > 0) ==> NextState(st, kind, data, env, nowIso) == st
    ensures kind == "weekly" && !data.weekly.Array? ==> NextState(st, kind, data, env, nowIso) == st
    ensures kind == "monthly" && !data.monthly.Array? ==> NextState(st, kind, data, env, nowIso) == st
    ensures kind == "session" && !data.sessions.Array? ==> NextState(st, kind, data, env, nowIso) == st
    ensures kind == "blocks" && !data.blocks.Array? ==> NextState(st, kind, data, env, nowIso) == st
    ensures kind == "daily-instances" && data.projects.Some? ==>
              && NextState(st, kind, data, env, nowIso).lastProjectData == ProjectTable(data.projects.value)
              && NextState(st, kind, data, env, nowIso).lastData == ProcessRealCCUsageData(Flattened(data.projects.value), env, nowIso)
    ensures kind == "daily" && data.daily.Array? && |st.lastData| == 0 ==>
              NextState(st, kind, data, env, nowIso).lastData == ProcessRealCCUsageData(data.daily.items, env, nowIso)
    ensures kind == "weekly" && data.weekly.Array? ==> NextState(st, kind, data, env, nowIso).lastWeeklyData == data.weekly.items
    ensures kind == "monthly" && data.monthly.Array? ==> NextState(st, kind, data, env, nowIso).lastMonthlyData == data.monthly.items
    ensures kind == "session" && data.sessions.Array? ==> NextState(st, kind, data, env, nowIso).lastSessionData == data.sessions.items
    ensures kind == "blocks" && data.blocks.Array? ==> NextState(st, kind, data, env, nowIso).lastBillingBlocksData == data.blocks.items
  {
  }

  /** Handling the same payload twice is handling it once. */
  lemma NextStateIdempotent(st: ServiceState, kind: string, data: Payload, env: Env, nowIso: string)
    ensures var nx := NextState(st, kind, data, env, nowIso);
            NextState(nx, kind, data, env, nowIso) == nx
  {
  }

  class AutomatedCCUsageService {
    var isRunning: bool
    var ccusageInstalled: bool
    var lastData: seq<ServerRecord>
    var lastProjectData: Groups<string, ProjectSummary>
    var lastWeeklyData: seq<DailyRecord>
    var lastMonthlyData: seq<DailyRecord>
    var lastSessionData: seq<RawSession>
    var lastBillingBlocksData: seq<RawBlock>

    function State(): ServiceState
      reads this
    {
      ServiceState(lastData, lastProjectData, lastWeeklyData, lastMonthlyData, lastSessionData, lastBillingBlocksData)
    }

    constructor()
      ensures State() == InitialState
      ensures !isRunning && !ccusageInstalled
    {
      isRunning := false;
      ccusageInstalled := false;
      lastData := [];
      lastProjectData := Groups([], map[]);
      lastWeeklyData := [];
      lastMonthlyData := [];
      lastSessionData := [];
      lastBillingBlocksData := [];
    }

    /** `processDataByType(type, data)`, with the environment and the clock as parameters. */
    method ProcessDataByType(kind: string, data: Payload, env: Env, nowIso: string)
      modifies this
      ensures State() == NextState(old(State()), kind, data, env, nowIso)
      ensures isRunning == old(isRunning) && ccusageInstalled == old(ccusageInstalled)
    {
      if kind == "daily-instances" {
        if data.projects.Some? {
          lastProjectData := ProcessProjectData(data.projects.value);
          var rows := FlattenProjectData(data.projects.value);
          lastData := ProcessRealCCUsageData(rows, env, nowIso);
        }
      } else if kind == "daily" {
        if data.daily.Array? && |lastData| == 0 {
          lastData := ProcessRealCCUsageData(data.daily.items, env, nowIso);
        }
      } else if kind == "weekly" {
        if data.weekly.Array? {
          lastWeeklyData := data.weekly.items;
        }
      } else if kind == "monthly" {
        if data.monthly.Array? {
          lastMonthlyData := data.monthly.items;
        }
      } else if kind == "session" {
        if data.sessions.Array? {
          lastSessionData := data.sessions.items;
        }
      } else if kind == "blocks" {
        if data.blocks.Array? {
          lastBillingBlocksData := data.blocks.items;
        }
      }
    }
  }
}
