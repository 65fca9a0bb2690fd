# Usage aggregation of cc-usage-poc, in Dafny

This project models the usage-aggregation pipeline of the cc-usage-poc dashboard and
proves properties of the model. The pipeline takes flat usage records and rolls them up:

- **Record normalisation.** The server normalises `ccusage` rows (`processRealCCUsageData`).
  The client converts sessions and billing blocks (`transformSessionData`,
  `transformBlocksData`).
- **Bucket keys.** Daily rows are filed under the Monday of their week or the first day of
  their month (`getWeekStart`, `getMonthStart`, `formatDate`).
- **Keyed folds.** The scripts fold sessions into weekly, monthly and per-project
  accumulators. The server folds path-keyed per-project arrays and flattens them. The
  client groups sessions by platform and by model.
- **Derived metrics.** These are the dashboard windows, percentages of a total,
  period-over-period growth, cost per million tokens, the tokens-per-dollar rating, the
  cache-efficiency percentage and the first-maximum selections of the React views.
- **Two state machines.** The server's `processDataByType` updates the `last*` fields of
  `AutomatedCCUsageService`. The client's `dataReducer` updates the store.

Each source file is one module, in the source's own form:
- Loops that fill a keyed object become methods whose loop invariants tie the state to a
  specification function.
- In-place sorts become array methods.
- The service becomes a class with `modifies` clauses.
- Map/filter/reduce code becomes functions and lemmas.

The source builds every keyed object in iteration order. The model keeps that order as
`Grouping.Groups(keys, m)`: the keys in order of first insertion, plus a map. JavaScript's
stable sorts become a stable insertion sort (`Sorting.SortDesc`, `Sorting.SortAsc`).

Seven foundation modules serve the rest:

| module | what it provides |
|---|---|
| Seqs | sums, filters, maps, insertion-ordered `Set` union |
| Strings | `split`/`join`, `startsWith`, `replace`, string order, numerals |
| Grouping | the keyed-accumulator loop |
| Sorting | stable sorts and first-maximum reductions |
| Counting | tallies and the most frequent key |
| JsNumber | JavaScript division, rounding, `Math.min`/`Math.max` and NaN/Infinity |
| CivilDate | proleptic Gregorian dates with day numbers |

Types holds the shared records of `src/types/index.ts`.

Numbers and their edge cases:
- Token counts are `nat` and costs are exact `real`.
- Where the source divides by a quantity that can be zero, the as-written member computes
  a `JsNumber.Num`, which can be a finite value, `PosInf`, `NegInf` or `NaN`.
- The clock, the environment and the parsing of timestamps are parameters. These are
  `nowIso`, `Env`, `instantOf: string -> Option<int>`, `isoOf`, and a civil `today`.

Where the code and its documentation disagree, the model follows the code:
- The session-id comment at `scripts/generateProjectData.js:13` implies that
  `D--working-AI-Study-ProjectName` names the project `ProjectName`.
- The code's `split('-').slice(4).join('-')` gives `Study-ProjectName`, because `--` makes
  an empty part. `ProjectReport.SessionProjectNameExample` proves that value.

## Model

| member | source | states |
|---|---|---|
| CivilDate.WeekStartSpec | scripts/generateWeeklyMonthlyData.js:8-16 | the week start is a valid date, a Monday (`getDay() == 1`), on or before the date and fewer than seven days back (Sunday counts as day 7) |
| CivilDate.WeekStartBack | scripts/generateWeeklyMonthlyData.js:10-13 | going back `(day || 7) - 1` days lands on day number `n - n % 7` |
| CivilDate.SameWeek | scripts/generateWeeklyMonthlyData.js:36-38 | two dates get the same week key exactly when they fall in the same Monday-based week |
| CivilDate.WeekStartOfNewYear2025 | scripts/generateWeeklyMonthlyData.js:8-16 | 2025-01-01 (a Wednesday) maps to Monday 2024-12-30, and a Monday maps to itself |
| CivilDate.MonthStartSpec | scripts/generateWeeklyMonthlyData.js:19-24 | the month start has the same year and month, day 1, and lies `day - 1` days back |
| CivilDate.MonthStartOfFebruary2025 | scripts/generateWeeklyMonthlyData.js:19-24 | 2025-02-28 and 2025-02-01 both map to 2025-02-01, formatted "2025-02-01" |
| CivilDate.PrevDay | scripts/generateWeeklyMonthlyData.js:12 | the previous day is a valid date one day number earlier |
| CivilDate.BackDays | src/hooks/useRealTimeData.ts:224-225 | moving k days back gives a valid date k day numbers earlier |
| CivilDate.DayNumberOrder | scripts/generateWeeklyMonthlyData.js:99 | calendar order is day-number order, and the day number identifies the date |
| CivilDate.ParseFormat | scripts/generateWeeklyMonthlyData.js:27-29 | reading back a formatted valid date gives that date |
| CivilDate.FormatParse | scripts/generateWeeklyMonthlyData.js:27-29 | a string that reads as a date is that date's own `YYYY-MM-DD` text |
| CivilDate.FormatOrder | scripts/generateWeeklyMonthlyData.js:99 | for `YYYY-MM-DD` keys, string order (`localeCompare`) is chronological order, and equal keys are equal dates |
| CivilDate.FormatDateExample | scripts/generateWeeklyMonthlyData.js:27-29 | Monday 2024-12-30 is filed under "2024-12-30" |
| CivilDate.DigitsOrder | scripts/generateWeeklyMonthlyData.js:28 | zero-padded numerals of one width compare as the numbers do |
| CivilDate.DigitsValue | scripts/generateWeeklyMonthlyData.js:28 | a zero-padded numeral reads back as its number |
| WeeklyMonthly.GenerateBuckets | scripts/generateWeeklyMonthlyData.js:32-100 | the `forEach` over the daily rows, the conversion and the sort return what `Generate` specifies, and fail exactly when some row throws |
| WeeklyMonthly.GenerateSpec | scripts/generateWeeklyMonthlyData.js:32-100 | without an exception, keys strictly ascend; the keys are exactly those of the rows; each bucket agrees with its rows; total tokens and cost are conserved |
| WeeklyMonthly.GenerateFails | scripts/generateWeeklyMonthlyData.js:36-38 | the generator throws exactly when some row has a missing date, a date that does not read as a valid day written `YYYY-MM-DD`, or a missing `modelsUsed`/`modelBreakdowns` array |
| WeeklyMonthly.UnsortedBuckets | scripts/generateWeeklyMonthlyData.js:40-52 | before the sort there is one bucket per key, in order of first appearance, each agreeing with the rows mapped to it |
| WeeklyMonthly.EmitSpec | scripts/generateWeeklyMonthlyData.js:87-99 | the emitted buckets ascend strictly by key, hold exactly the keys of the rows, and agree with their rows |
| WeeklyMonthly.AccumulatorMatches | scripts/generateWeeklyMonthlyData.js:54-83 | each accumulator sums every token field and the cost over its rows (absent counts as 0), unions their `modelsUsed` and merges their breakdowns by model name |
| WeeklyMonthly.DayFold | scripts/generateWeeklyMonthlyData.js:54-63 | folding rows into a fresh accumulator sums each field and unions the model lists in first-seen order |
| WeeklyMonthly.BreakdownFold | scripts/generateWeeklyMonthlyData.js:66-83 | one model's breakdown is the field-wise sum of the raw breakdowns with that name |
| WeeklyMonthly.MergedBreakdowns | scripts/generateWeeklyMonthlyData.js:66-97 | the merged breakdown list has one entry per model name, in first-seen order, each the sum over that name |
| WeeklyMonthly.MergedBreakdownAt | scripts/generateWeeklyMonthlyData.js:76-82 | the breakdown kept under a name is the field-wise sum over that name |
| WeeklyMonthly.EmitConserves | scripts/generateWeeklyMonthlyData.js:54-60 | over all buckets, each of the four token kinds, the total and the cost add up to the sums over all rows |
| WeeklyMonthly.FieldConservesNat | scripts/generateWeeklyMonthlyData.js:55-59 | a token field held per key as its rows' sum adds up over the buckets to the rows' sum |
| WeeklyMonthly.FieldConservesReal | scripts/generateWeeklyMonthlyData.js:60 | the same for the cost |
| WeeklyMonthly.KeysAreBucketStarts | scripts/generateWeeklyMonthlyData.js:37-38 | a week key reads as a Monday at most six days before the row's date; the month key of lines 108-109 reads as day 1 of its month |
| WeeklyMonthly.ParsedDateValid | scripts/generateWeeklyMonthlyData.js:36 | a date that parses is a valid calendar date |
| ProjectReport.SessionProjectName | scripts/generateProjectData.js:14-15 | the project key is never empty (`|| 'Default Project'`) |
| ProjectReport.SessionProjectNameOfParts | scripts/generateProjectData.js:14-15 | an id of four dash-free parts and a non-empty rest names the project after the rest |
| ProjectReport.SessionProjectNameExample | scripts/generateProjectData.js:13-15 | the documented example id gives "Study-ProjectName" |
| ProjectReport.SessionProjectNameNoDash | scripts/generateProjectData.js:14-15 | an id without a dash falls back to "Default Project" |
| ProjectReport.GenerateProjectData | scripts/generateProjectData.js:8-94 | the keyed `forEach`, the conversion, the in-place sort and the summary return `Projects(sessions)` and its summary |
| ProjectReport.ProjectFold | scripts/generateProjectData.js:35-59 | a project's fold counts its sessions, sums each figure (absent as 0), unions the model lists and keeps one reference per session |
| ProjectReport.CountFold | scripts/generateProjectData.js:35-59 | `totalSessions` equals the number of sessions folded, which is the length of the reference list |
| ProjectReport.LastActiveFold | scripts/generateProjectData.js:27-46 | `lastActive` is the running maximum of the sessions' `lastActivity` under JavaScript's `>` |
| ProjectReport.LatestOfSpec | scripts/generateProjectData.js:44-46 | when every session has an activity, the kept value is one of them and none exceeds it; a missing first value stays missing |
| ProjectReport.AccumulatorMatches | scripts/generateProjectData.js:17-77 | an emitted project agrees with the sessions filed under its name, with averages `cost / n` and `round(tokens / n)` for n ≥ 1 |
| ProjectReport.UnsortedProjects | scripts/generateProjectData.js:63-77 | before the sort there is one project per name, in first-seen order, each agreeing with its sessions |
| ProjectReport.UnsortedNames | scripts/generateProjectData.js:17-32 | the names are distinct and are exactly the keys of the sessions |
| ProjectReport.UnsortedConserves | scripts/generateProjectData.js:35-41 | session counts add up to the number of sessions; cost and token totals are those of all sessions |
| ProjectReport.ProjectsSpec | scripts/generateProjectData.js:80 | the returned projects have non-increasing cost, are a permutation of the unsorted ones, and the projects of any one cost keep the grouping's first-seen order |
| ProjectReport.ProjectNamesFromKeys | scripts/generateProjectData.js:15-19 | projects named by non-empty keys have non-empty names |
| ProjectReport.SummaryTotals | scripts/generateProjectData.js:82-87 | the summary counts the distinct names and totals the cost and tokens of all sessions |
| ProjectReport.SummaryLeaders | scripts/generateProjectData.js:88-91 | `mostExpensiveProject` is the first project of maximal cost and `mostActiveProject` the first of maximal session count; both are null exactly for no sessions |
| ProjectReport.ProjectsOfSessions | scripts/generateProjectData.js:8-94 | the two facts above hold for the script's own key |
| UsageService.UserId | server.js:243 | the user id is never empty and is `USERNAME` whenever that is set and non-empty |
| UsageService.MapCCUsageModel | server.js:295-305 | the lookup always yields one of the dashboard's model names, `claude-3-sonnet` for unknown names |
| UsageService.MapCCUsageModelIdempotent | server.js:295-305 | the dashboard's names map to themselves, so mapping twice is mapping once |
| UsageService.ClassifyByCounts | server.js:307-315 | the ratio comparisons, in integer terms with d = `out || 1`: `10*in < 3*d` gives Generate Code, `in > 2*d` Explain Code, then `out > 5000` Refactor, `out > 2000` Code Review, else Code Assistance |
| UsageService.NormalizeSpec | server.js:228-263 | absent counts are 0; the total is the reported one unless missing or 0, else the four kinds; cost defaults to 0; the duration and code counts are the stated ceilings; `codeGenerated` iff `out > 1000` |
| UsageService.RecordIdsDistinct | server.js:240 | records at different indices get different ids, whatever their dates |
| UsageService.IdEndsWithIndex | server.js:240 | the last dash-separated part of an id is the pre-filter index |
| UsageService.NormalizeAll | server.js:228-263 | one normalised record per row, in order, each normalised with its own index |
| UsageService.ProcessedMembers | server.js:228-264 | the output keeps exactly the normalised rows with tokens, each under the id of its pre-filter index |
| UsageService.ProcessedIdsAndTokens | server.js:240-264 | the output ids are distinct, and dropping token-less rows loses no tokens |
| UsageService.PathProjectName | server.js:360 | the derived project name is never empty |
| UsageService.PathProjectNameOfSlashPath | server.js:360 | a slash path names the project after its last segment |
| UsageService.PathProjectNameWithoutSlash | server.js:360 | a path without `/` keeps its whole text as its name, backslashes included |
| UsageService.PathProjectNameTrailingSlash | server.js:360 | with a trailing `/` and no backslash the name is the whole path |
| UsageService.SummaryOf | server.js:362-375 | the entry keeps its path; an array gives its rows, their count, token sum and cost sum; a non-array gives zeros and no rows |
| UsageService.ProjectTableSpec | server.js:355-379 | one key per derived name, in first-seen order; a later path with the same name overwrites the earlier entry |
| UsageService.ProcessProjectData | server.js:355-379 | the `for ... of` loop builds exactly `ProjectTable(projects)` |
| UsageService.TagAll | server.js:388-394 | every row of an entry is copied and tagged with its project name and path |
| UsageService.FlattenedSpec | server.js:381-399 | the flattened length is the sum of the array lengths, and every row comes from some entry's array, tagged with that entry's name and path |
| UsageService.FlattenedAppend | server.js:384-396 | flattening a concatenation flattens each part in order |
| UsageService.FlattenProjectData | server.js:381-399 | the nested loops push exactly `Flattened(projects)` |
| UsageService.NextStateFrame | server.js:168-213 | each payload type writes only its own `last*` field(s); an unknown type changes nothing |
| UsageService.NextStateGuards | server.js:171-188 | for each of the six kinds the state changes only for an array payload (a projects object for 'daily-instances'), and 'daily' only while `lastData` is empty; a payload that passes replaces its field(s) with the array or the processed data |
| UsageService.NextStateIdempotent | server.js:168-213 | handling the same payload twice is handling it once |
| UsageService.AutomatedCCUsageService.constructor | server.js:22-33 | the service starts with empty data fields, not running, with `ccusage` not yet detected |
| UsageService.AutomatedCCUsageService.ProcessDataByType | server.js:168-213 | the method moves the fields to `NextState` of the old ones and leaves the flags unchanged |
| DataContext.ReducerWrites | src/context/DataContext.tsx:65-96 | every SET action writes its payload into its own field; SET_LAST_UPDATE writes the current instant |
| DataContext.ReducerFrame | src/context/DataContext.tsx:65-96 | every other field is left as it was, so an unknown action returns the state unchanged |
| DataContext.ReducerIdempotent | src/context/DataContext.tsx:65-96 | dispatching the same action twice is dispatching it once |
| DataContext.SessionModel | src/context/DataContext.tsx:167 | a session's model is never empty (`|| 'claude-3-sonnet'`) |
| DataContext.TransformSessionDataSpec | src/context/DataContext.tsx:160-175 | missing input gives `[]`; otherwise one session per row, in order, counts and cost defaulting to 0, total not recomputed, the first model used or `claude-3-sonnet`, platform `web`, project named as by the script |
| DataContext.ConverterKeeps | src/context/DataContext.tsx:170-171 | each converted session keeps its row's total tokens and cost |
| DataContext.TransformSessionDataConserves | src/context/DataContext.tsx:163-174 | the conversion conserves the token and cost totals |
| DataContext.TransformBlocksDataSpec | src/context/DataContext.tsx:178-191 | missing blocks give `[]`; gap blocks are dropped and the rest kept in order, with amounts and counts defaulting to 0 and status `completed` |
| DataContext.DashboardTotals | src/context/DataContext.tsx:194-249 | no sessions give the all-zero record on `web`; otherwise the totals are sums over all sessions and the average is the mean duration |
| DataContext.DashboardPlatform | src/context/DataContext.tsx:219-225 | the most-used platform occurs most often, and comes first among platforms that occur as often |
| DataContext.SinceMembers | src/context/DataContext.tsx:215-217 | a window keeps exactly the sessions whose timestamp parses to an instant at or after its start |
| DataContext.DashboardWindowsNest | src/context/DataContext.tsx:208-247 | today ⊆ week ⊆ month ⊆ all sessions, so counts and token sums are monotone and bounded by the totals |
| DataContext.CalculatePlatformMetrics | src/context/DataContext.tsx:252-271 | the push loop and the map return `PlatformMetricsOf(sessions)` |
| DataContext.PlatformMetricsSpec | src/context/DataContext.tsx:252-271 | one entry per platform present, in first-seen order; each counts and sums its sessions; the share is `count / total * 100` |
| DataContext.PlatformMetricsConserve | src/context/DataContext.tsx:261-267 | the counts add up to the number of sessions, and the token and cost sums to the totals |
| DataContext.PlatformSharesTotal | src/context/DataContext.tsx:269 | for a non-empty session list the shares add up to 100 |
| DataContext.GetFilteredSessionsSpec | src/context/DataContext.tsx:395-398 | 'all' gives every session; otherwise exactly the sessions whose `projectName` is the selection |
| DataContext.DayEntrySpec | src/context/DataContext.tsx:404-425 | a day entry counts and sums the sessions whose timestamp starts with the date; editor plus web tokens never exceed the day's tokens |
| DataContext.GetTodayDataSpec | src/context/DataContext.tsx:400-426 | nothing for a day without sessions, otherwise the single entry of today, which has sessions |
| DataContext.GetTimeSeriesData | src/context/DataContext.tsx:428-462 | `days == 1` gives today's data; otherwise one entry per day, oldest first, ending today (none for `days <= 0`); entry `j` is the day `DayTexts(today)(days - 1 - j)` |
| DataContext.DailySeries | src/context/DataContext.tsx:434-459 | the `for` loop pushes the entries of days `days-1` … `0` back, in that order; `dayText(i)` stands for the date `i` days back, and a count below one gives no entries |
| DataContext.DayTextAscending | src/context/DataContext.tsx:435-437 | the series' dates ascend strictly and are distinct |
| RealTimeData.GetProjectMetricsEmpty | src/hooks/useRealTimeData.ts:262 | the result is empty exactly when the project table is |
| RealTimeData.GetProjectMetricsOrder | src/hooks/useRealTimeData.ts:266-282 | the rows are a permutation of the table's rows in non-increasing token order, ties in table order |
| RealTimeData.GetProjectMetricsNames | src/hooks/useRealTimeData.ts:266-282 | one row per project name of the table |
| RealTimeData.ProjectRowsNames | src/hooks/useRealTimeData.ts:266 | before the sort the row names are the table's keys in order |
| RealTimeData.ProjectRowsAt | src/hooks/useRealTimeData.ts:266-281 | row i is the row of the i-th key |
| RealTimeData.ProjectRowSpec | src/hooks/useRealTimeData.ts:266-281 | a row copies its project's figures; the average divides by `max(n, 1)`; the share is 0 for a zero total; the date is its latest session's when that instant is valid and positive, else now |
| RealTimeData.LatestInstantSpec | src/hooks/useRealTimeData.ts:269 | `Math.max` is a number exactly when every instant is, and then it is one of them and none exceeds it |
| RealTimeData.ProjectRowsCounts | src/hooks/useRealTimeData.ts:264-279 | the rows' counts add up to the table's session count, and their shares to that count over the total, in percent |
| RealTimeData.ProjectSharesTotal | src/hooks/useRealTimeData.ts:264-279 | when some project has sessions the shares add up to 100 |
| RealTimeData.GetSessionsByDateRangeSpec | src/hooks/useRealTimeData.ts:253-258 | exactly the sessions at an instant within the range, both ends included; nothing for an empty range |
| RealTimeData.GetFilteredSessionsSpec | src/hooks/useRealTimeData.ts:285-288 | 'all' gives every session; otherwise exactly those whose editor data names the project |
| RealTimeData.GetTimeSeriesData | src/hooks/useRealTimeData.ts:189-251 | one day always gives exactly one entry, sessions or not; otherwise one entry per day, oldest first |
| CostTracker.CalculateCostBreakdown | src/components/CostTracker.tsx:52-69 | the grouping loop and the map return `CostBreakdownOf(sessions)` |
| CostTracker.CostBreakdownSpec | src/components/CostTracker.tsx:52-69 | one entry per distinct model, in first-seen order; each has at least one session and sums the input, output and cost of its model's sessions |
| CostTracker.BreakdownEntriesAt | src/components/CostTracker.tsx:62-68 | entry i is the breakdown of the i-th model |
| CostTracker.BreakdownEntriesSums | src/components/CostTracker.tsx:62-68 | the entries' figures add up per field over the grouped sessions |
| CostTracker.CostBreakdownConserves | src/components/CostTracker.tsx:62-88 | the session counts add up to the number of sessions; input, output and `totalCost` over the breakdown equal the session totals |
| CostTracker.DailyCostsSum | src/components/CostTracker.tsx:71-81 | one daily cost per series entry, with the same cost total |
| CostTracker.AverageDailyCostSpec | src/components/CostTracker.tsx:89-91 | 0 for no days, otherwise the mean daily cost |
| CostTracker.HighUsageAlertSpec | src/components/CostTracker.tsx:130 | the alert shows exactly when the cost total exceeds the number of days, and then some day cost more than 1 |
| CostTracker.SumRealAtMost | src/components/CostTracker.tsx:89-91 | days costing at most c each total at most `n * c` |
| CostTracker.MostExpensiveModelSpec | src/components/CostTracker.tsx:111-114 | the first entry of maximal cost (strict `>`), or `{N/A, 0}` for no entries |
| CostTracker.HighestCostDaySpec | src/components/CostTracker.tsx:116-119 | the first day of maximal cost, or `{N/A, 0}` for no days |
| CostTracker.SortByCost | src/components/CostTracker.tsx:329-330 | the in-place sort leaves the array holding `SortDesc` of its old contents |
| CostTracker.SortByCostSpec | src/components/CostTracker.tsx:329-330 | the sorted table has non-increasing cost, holds the same entries, and keeps breakdown order among equal costs |
| CostTracker.CostPerSessionDefined | src/components/CostTracker.tsx:361 | every breakdown entry has a session, so its cost per session is the finite quotient |
| CostTracker.CostPerThousandSpec | src/components/CostTracker.tsx:364-368 | the cost per 1K tokens is a number exactly when the model has input or output tokens |
| CostTracker.EfficiencyAtZeroCost | src/components/CostTracker.tsx:389-390 | the as-written efficiency of a free model is Infinity with tokens and NaN without |
| CostTracker.GuardedEfficiencySpec | src/components/CostTracker.tsx:389-390 | the guarded efficiency is never negative, agrees with the division for a positive cost, and is 0 otherwise |
| CostTracker.MaxEfficiencySpec | src/components/CostTracker.tsx:391-395 | the maximum bounds every entry's efficiency and is attained when there are entries |
| CostTracker.EfficiencyPercentageSpec | src/components/CostTracker.tsx:396-397 | every guarded percentage lies in [0, 100], and the most efficient model has 100 whenever some model has a positive figure |
| CostTracker.PageMaxOfCosted | src/components/CostTracker.tsx:391-395 | when every model has a cost, the page's `Math.max` is the guarded maximum |
| CostTracker.PageMaxNaN | src/components/CostTracker.tsx:391-395 | one NaN efficiency makes the page's `Math.max` NaN |
| CostTracker.PageMaxPosInf | src/components/CostTracker.tsx:391-395 | without NaN, one infinite efficiency makes the page's `Math.max` Infinity |
| CostTracker.ShownPercentageOfCosted | src/components/CostTracker.tsx:389-397 | when every model has a cost and some has tokens, the page's bars equal the guarded ones |
| CostTracker.ShownPercentageWithoutTokens | src/components/CostTracker.tsx:389-397 | when every model has a cost but no input or output tokens, every bar of the page is 0/0 = NaN, while the guarded bar is 0 |
| CostTracker.ShownPercentageWithFreeModel | src/components/CostTracker.tsx:389-397 | a free model without tokens makes every bar NaN; one with tokens makes every finite figure's bar 0 and every infinite one's NaN |
| CostTracker.BarWithoutTokens | src/components/CostTracker.tsx:396-397 | a single cache-only model (cost 0.5, no input or output tokens) shows a NaN bar, and the guarded bar is 0 |
| WeeklyAnalytics.WeeklySummarySpec | src/components/WeeklyAnalytics.tsx:76-94 | no weeks go to the no-data branch; otherwise totals run over all weeks, the current week is the last, the previous one the second to last if any; the page's growth (a number, Infinity or NaN) compares the last two weeks and is 0 for one week, and the guarded growth equals it wherever it is a number and is 0 otherwise |
| WeeklyAnalytics.GrowthSpec | src/components/WeeklyAnalytics.tsx:92-94 | the as-written growth is a number exactly when there is no previous week or it cost something; otherwise Infinity, -Infinity or NaN by the sign of the current cost |
| WeeklyAnalytics.GrowthFromFreeWeek | src/components/WeeklyAnalytics.tsx:92-94 | a free previous week followed by one of cost 2 shows infinite growth |
| WeeklyAnalytics.GuardedGrowthSpec | src/components/WeeklyAnalytics.tsx:92-94 | the guarded growth agrees with the division wherever that is a number, is 0 otherwise, and for a previous cost above 0 is `>= 0` iff the cost did not fall |
| WeeklyAnalytics.ChartDataSpec | src/components/WeeklyAnalytics.tsx:97-102 | one row per week, in order, whose cache and direct tokens stack to the week's four kinds; the stacks add up over all weeks |
| WeeklyAnalytics.SharesSpec | src/components/WeeklyAnalytics.tsx:252-271 | both shares are numbers exactly for a week with tokens, and they add up to 100 when the total is the four kinds |
| MonthlyAnalytics.MonthlySummarySpec | src/components/MonthlyAnalytics.tsx:80-97 | no months go to the no-data branch; otherwise the cost runs over all months, the current month is the last, the page's growth (possibly Infinity or NaN) compares it with the second to last (0 for one month), and the guarded growth equals it wherever it is a number and is 0 otherwise |
| MonthlyAnalytics.ChartDataSpec | src/components/MonthlyAnalytics.tsx:100-106 | one row per month, in order, split as in the weekly view; exactly the last row is highlighted |
| MonthlyAnalytics.PieDataSum | src/components/MonthlyAnalytics.tsx:108-119 | the two slices add up to the current month's four token kinds |
| MonthlyAnalytics.TableCostPerMillionSpec | src/components/MonthlyAnalytics.tsx:382 | the divisor is at least 1: up to a million tokens the figure is the cost, beyond it the cost per million |
| MonthlyAnalytics.SummaryCostPerMillionSpec | src/components/MonthlyAnalytics.tsx:247 | the divisor is the nearest whole number of millions, at least 1; below 1.5 million tokens the figure is the month's cost |
| About.TierBoundaries | src/components/About.tsx:511-513 | strict thresholds: above 400000 Excellent, (200000, 400000] Good, (100000, 200000] Fair, else Poor; Infinity rates Excellent, NaN and -Infinity Poor |
| About.TierMonotone | src/components/About.tsx:511-513 | more tokens per dollar never rate lower |
| About.TierColorMatches | src/components/About.tsx:516-518 | the colour chain always picks the colour of the label chain's tier |
| About.CacheEfficiencySpec | src/components/About.tsx:494-499 | with tokens the as-written percentage is a whole number in [0, 100]; without tokens it is 100 given cache tokens and NaN otherwise |
| About.CacheEfficiencyWithoutTokens | src/components/About.tsx:499 | one session without tokens makes the page show NaN |
| About.GuardedCacheEfficiencySpec | src/components/About.tsx:494-499 | the guarded percentage is in [0, 100] and agrees with the page whenever there are tokens |
| About.ClampedPercent | src/components/About.tsx:499 | `Math.min(100, Math.round(c / t * 100))` for each case of c and t |
| About.MostUsedModelSpec | src/components/About.tsx:455-458 | the shown model occurs, no model occurs more often, and it comes first among models occurring as often; its label is shown, or 'N/A' when empty |
| About.ModelLabelSpec | src/components/About.tsx:458 | a "claude-" name loses that prefix and then its first "-20250514"; a name with neither is shown unchanged |
| About.PrimaryPlatformSpec | src/components/About.tsx:467-471 | 'VS Code' exactly when more sessions come from the editor than from the web; never API |
| About.UsageAnalysisSpec | src/components/About.tsx:370-518 | figures exactly when there are sessions; then the average is the mean session cost, the colour is the tier's, the shown cache percentage is the page's (NaN without tokens), and the guarded one lies in [0, 100] and equals the shown one whenever there are tokens |
| ProjectAnalytics.ProjectMetricsEmpty | src/components/ProjectAnalytics.tsx:56-75 | the view shows no-data exactly when the table has no projects |
| ProjectAnalytics.EntriesAt | src/components/ProjectAnalytics.tsx:56-65 | one entry per table key, in key order |
| ProjectAnalytics.EntryOfSpec | src/components/ProjectAnalytics.tsx:56-65 | the entry copies the project's figures and uses the name as path; the share is 0 with no sessions, else share × sessions = count × 100; average × count × 1000 = tokens, 0 with no count |
| ProjectAnalytics.EntriesTotals | src/components/ProjectAnalytics.tsx:96-97 | the entries' tokens, cost and session counts add up to the table's |
| ProjectAnalytics.EntriesShares | src/components/ProjectAnalytics.tsx:62 | the shares add up to the entries' session count over the store's, in percent |
| ProjectAnalytics.ProjectTotals | src/components/ProjectAnalytics.tsx:96-97 | the card totals are the table's totals; the shares add up to 100 when the table accounts for every session |
| ProjectAnalytics.MostActiveNameSpec | src/components/ProjectAnalytics.tsx:188-191 | the headline names the first entry in table order, or 'N/A' when there is none or its name is empty |
| ProjectAnalytics.PieDataSpec | src/components/ProjectAnalytics.tsx:91-104 | one slice per entry in table order, coloured from a cycle of eight; the slices total the view's tokens |
| ProjectAnalytics.PieValues | src/components/ProjectAnalytics.tsx:99-104 | the slice values add up to the entries' tokens |
| ProjectAnalytics.AverageTokensSpec | src/components/ProjectAnalytics.tsx:388 | no sessions show the whole token count; otherwise the nearest whole number of tokens per session |
| ProjectAnalytics.CostPerSessionSpec | src/components/ProjectAnalytics.tsx:392 | no sessions show the whole cost; otherwise the figure times the session count is the cost |
| ProjectAnalytics.SortByTokens | src/components/ProjectAnalytics.tsx:359-360 | the in-place sort leaves the array holding `SortDesc` of its old contents |
| ProjectAnalytics.SortByTokensSpec | src/components/ProjectAnalytics.tsx:359-360 | the sorted entries have non-increasing tokens, are the same entries, and keep table order among equal tokens |
| ProjectAnalytics.ChartOfSpec | src/components/ProjectAnalytics.tsx:426 | the chart holds `min(10, n)` entries; with details shown they are the head of the sorted table and have at least as many tokens as every entry left out; otherwise they are the first ten in table order |
| ProjectAnalytics.Render | src/components/ProjectAnalytics.tsx:56-426 | one render: no-data for no entries; the headline and pie in table order; the array sorted in place only when details are shown; then the chart |
| Grouping.GroupFoldSpec | scripts/generateWeeklyMonthlyData.js:40-54 | the keyed loop keeps one entry per key that occurs, keys in first-seen order, each the fold over exactly its elements |
| Grouping.GroupInto | scripts/generateWeeklyMonthlyData.js:35-84 | the loop fails exactly when some element throws, and otherwise builds `GroupFold` |
| Grouping.GroupFoldKeys | src/components/CostTracker.tsx:53-60 | the keys are distinct, are the map's domain, and include every element's key |
| Grouping.PartitionSpec | src/context/DataContext.tsx:253-259 | grouping into arrays gives one non-empty array per key, in first-seen order, holding exactly that key's elements in order |
| Grouping.GroupedSumNat | scripts/generateWeeklyMonthlyData.js:55-59 | figures held per key as their elements' sums add up to the sum over all elements |
| Grouping.GroupedSumReal | scripts/generateWeeklyMonthlyData.js:60 | the same for real figures |
| Grouping.SelectMembers | src/components/CostTracker.tsx:58 | a key's elements are exactly the elements with that key, and there are some iff the key occurs |
| Counting.TalliesSpec | src/components/About.tsx:455-457 | one tally per model that occurs, in first-seen order, holding its number of occurrences |
| Counting.MostFrequentSpec | src/components/About.tsx:458 | the stable count sort's head occurs, is not outnumbered, and is the first among equals; the fallback only for no elements |
| Sorting.SortDescSpec | scripts/generateProjectData.js:80 | the stable sort is non-increasing, a permutation, and keeps input order among equal keys |
| Sorting.SortDescInPlace | src/components/CostTracker.tsx:329-330 | the in-place insertion sort leaves `SortDesc` of the old contents |
| Sorting.StableSortUnique | src/hooks/useRealTimeData.ts:282 | any sorted permutation that keeps the order of equal keys is `SortDesc` |
| Sorting.SortAscSpec | scripts/generateWeeklyMonthlyData.js:99 | with distinct keys the `localeCompare` sort strictly ascends and is a permutation |
| Sorting.MaxByIsFirstMax | src/components/CostTracker.tsx:111-114 | the strict-`>` reduction keeps its seed unless beaten, and then ends on the first maximum |
| Sorting.OptMaxByIsFirstMax | scripts/generateProjectData.js:89-91 | the null-seeded reduction is empty only for no elements, and otherwise ends on the first maximum |
| Sorting.SortDescHeadIsFirstMax | scripts/generateProjectData.js:88 | the head of the stable sort is the first maximum |
| Sorting.SortDescSums | scripts/generateProjectData.js:80 | sorting keeps every token and cost sum |
| Sorting.SortDescMembers | scripts/generateProjectData.js:80 | sorting keeps the elements and the names they carry |
| Sorting.SortAscSums | scripts/generateWeeklyMonthlyData.js:99 | the ascending sort keeps every token and cost sum |
| Sorting.FirstMaxIndex | src/components/CostTracker.tsx:111-114 | for a non-empty sequence, no element exceeds the element at this index, and every element before it is smaller |
| Sorting.MaxBySeededWithHead | src/components/CostTracker.tsx:111-119 | a reduction seeded with the first element ends on the first maximum |
| Grouping.GroupFoldStep | scripts/generateWeeklyMonthlyData.js:40-52 | one step of the keyed loop: a new key is appended with a fresh accumulator, an existing key's accumulator is updated, and every other key is kept |
| Grouping.LeftFoldOverwrite | server.js:360-376 | when each step overwrites the entry, the last element decides it |
| Grouping.GroupOverwriteSpec | server.js:360-376 | grouping by overwriting: one entry per key that occurs, keys in first-seen order, each entry made from the last element with its key |
| Grouping.SumPerKeyNatConserves | src/context/DataContext.tsx:261-267 | summing per distinct key, over keys that cover every element, gives the total |
| Counting.TallyFold | src/components/About.tsx:455-457 | `(acc[k] \|\| 0) + 1`, repeated over the occurrences of k, counts them |
| DataContext.PlatformEntriesAt | src/context/DataContext.tsx:261-270 | entry i is the metrics entry of the i-th platform key |
| DataContext.PlatformEntriesSums | src/context/DataContext.tsx:261-267 | the entries' counts, tokens and costs are the per-platform sums over the sessions |
| Strings.Split | scripts/generateProjectData.js:14 | `split` always yields at least one part, and no part holds the separator |
| Strings.SplitNoSeparator | scripts/generateProjectData.js:14 | a string without the separator splits into itself alone |
| Strings.SplitLeadingPart | scripts/generateProjectData.js:14 | a separator-free prefix followed by the separator becomes the first part |
| Strings.NatToString | server.js:240 | the numeral of an index is non-empty and all digits |
| Seqs.DedupSpec | scripts/generateWeeklyMonthlyData.js:96 | `Array.from(new Set(xs))` is duplicate-free and has exactly the members of xs |
| Seqs.AddAllSpec | scripts/generateProjectData.js:50 | adding to a Set keeps its old members first, adds the new ones, and never duplicates |
| Seqs.FilterMembers | src/hooks/useRealTimeData.ts:255-258 | a filter keeps exactly the members satisfying the test |
| Seqs.FilterKeepsSum | server.js:264 | dropping elements whose figure is 0 keeps the sum |
| Seqs.FilterWeaker | src/context/DataContext.tsx:215-217 | a weaker filter keeps at least as many elements and at least as large a sum |
| Seqs.FilterDisjointSum | src/context/DataContext.tsx:410-416 | two exclusive filters sum to at most the whole |
| Strings.JoinSplit | scripts/generateProjectData.js:14-15 | joining the parts of a split with the same separator gives back the string |
| Strings.SplitConcat | scripts/generateProjectData.js:14 | splitting at a separator splits each side independently |
| Strings.LexLessTransitive | scripts/generateWeeklyMonthlyData.js:99 | string order is transitive |
| Strings.LexLessTotal | scripts/generateWeeklyMonthlyData.js:99 | distinct strings are ordered one way or the other |
| Strings.NatToStringRoundTrip | server.js:240 | the decimal text of an index reads back as the index |
| Strings.ReplaceFirstAt | src/components/About.tsx:458 | `replace` with a string pattern replaces its first occurrence only |
| Strings.ReplaceFirstAbsent | src/components/About.tsx:458 | `replace` leaves a string without the pattern unchanged |
| JsNumber.Div | src/components/CostTracker.tsx:390 | division is finite exactly for a non-zero divisor; 0/0 is NaN, and a positive over 0 is Infinity |
| JsNumber.RoundNum | src/components/About.tsx:511 | `Math.round` keeps non-finite values and rounds finite ones to the nearest integer, halves up |
| JsNumber.MinNum | src/components/About.tsx:499 | `Math.min(c, x)` is NaN exactly for NaN, and never above c |
| JsNumber.MaxNum | src/components/CostTracker.tsx:391-395 | `Math.max(x, y)` is NaN exactly when either is, otherwise Infinity when either is; -Infinity is its unit; on numbers it is the larger one |
| JsNumber.DivNum | src/components/CostTracker.tsx:396-397 | JavaScript division on any numbers: NaN with a NaN or two infinities; a number over an infinity is 0; two numbers divide as `Div` |
| JsNumber.CeilDivIsCeil | server.js:249-257 | the integer ceiling of a count quotient is `Math.ceil` of the real quotient |
| JsNumber.DivCompare | src/components/MonthlyAnalytics.tsx:382 | comparing a quotient by a positive divisor with c compares the dividend with c times the divisor |

## Left out

- Process execution, `ccusage` detection, polling, timers, HTTP and the Express routes are left out (server.js:35-166, 215-225, the routes and signal handlers). They are I/O.
- `fetchData`, `refreshData` and its effects are left out (src/context/DataContext.tsx:127-157, 274-392), and so are the fetch hooks of src/hooks/useRealTimeData.ts:72-166. This includes the conversion at src/context/DataContext.tsx:306-320 of the fetched project list into the keyed `projectData`. The model takes that table as given.
- `setSelectedProject` (src/context/DataContext.tsx:464-477) is left out. It dispatches `DataContext.DataReducer` actions with metrics that `DataContext.CalculateDashboardMetrics` and `DataContext.CalculatePlatformMetrics` compute over `RealTimeData.GetFilteredSessions`.
- File reads and writes of the two scripts are left out. The generators run over in-memory sequences.
- The credentials endpoint, `calculateCost`, `detectLanguage`, `classifyCommand` and `detectLicenseType` are left out. They are file I/O or unused helpers.
- The clock, the environment and `Date` parsing are parameters:
  - `nowIso` is the `new Date().toISOString()` fallback;
  - `Env` holds `USERNAME` and `USER`;
  - `instantOf` is `new Date(t).getTime()`, with None for an Invalid Date;
  - `isoOf` is `toISOString` of an instant;
  - `today` is a civil date;
  - `todayStart` is the instant of local midnight.
- The random `sessionDuration` of `transformSessionData` is a parameter `draws`, the value of `Math.random() * 3600` for each row.
- Time zones and daylight saving are left out. Dates are UTC civil dates, while `getWeekStart` mixes local `getDay`/`setHours` with the UTC `toISOString`. Years run from 1 to 9999.
- `DataContext.GetTimeSeriesData` and `RealTimeData.GetTimeSeriesData` require today to be at least `days - 1` days after 0001-01-01. This is so that every earlier date exists in the civil calendar.
- IEEE-754 rounding of sums and quotients is left out, because costs are exact reals. So is all number formatting (`toFixed`, `toLocaleString`, `formatTokens`, `formatCurrency`, `formatWeek`, `formatMonth`, `toLocaleDateString`).
- JavaScript objects enumerate integer-like keys (such as "2025") before other keys. The model keeps plain insertion order for every key. JavaScript `Map` and `Set` do keep plain insertion order.
- The server only iterates `data.projects` with `Object.entries`, so an array there would iterate by index. The model takes the entries as a sequence of `(path, value)` pairs.
- `getPlatformMetrics` and `calculateDashboardMetrics` (src/hooks/useRealTimeData.ts:15-70, 168-187) are not modelled again. They are the same code as `DataContext.CalculatePlatformMetrics` and `DataContext.CalculateDashboardMetrics`.
- Commutation of reducer actions is not stated.
- src/components/Dashboard.tsx, App.tsx, LiveCharts.tsx, PlatformMetrics.tsx and webpack.config.js are not part of this model. They are rendering, and Dashboard.tsx repeats calculations modelled here.
- The chart colours, labels and tooltips are left out:
  - the weekly and monthly label formatting;
  - CostTracker's model colours and display names (src/components/CostTracker.tsx:96-109);
  - the path truncation in the project table (src/components/ProjectAnalytics.tsx:375).
- The `LinearProgress` bar value of the cache panel (src/components/About.tsx:494) is left out. It is the unrounded form of the modelled percentage.
- CostTracker's in-place sort also reorders the efficiency cards rendered after the table (src/components/CostTracker.tsx:388). `CostTracker.EfficiencyPercentageSpec` and `CostTracker.ShownPercentage` state each card's figure, not the order of the cards.
- `ProjectAnalytics.ProjectEntry` keeps `lastActivityDate` as the project's optional `lastActive`. What `new Date(undefined).toLocaleDateString()` shows is formatting and is left out.
- WeeklyMonthly.GenerateFails: dates are read only in the `YYYY-MM-DD` form the usage tool writes (`CivilDate.ParseDate`). Other strings that `new Date` accepts, such as full timestamps or `2025/01/06`, count as unreadable here.
- WeeklyAnalytics.WeeklySummarySpec: `shownGrowth` is the page's figure. How the page colours and signs an Infinity or NaN growth (`NaN >= 0` is false) is formatting and is left out. The same holds for `MonthlyAnalytics.MonthlySummarySpec`.
- About.UsageAnalysisSpec: the bound [0, 100] is stated for the guarded `cacheEfficiency`. The page's `shownCacheEfficiency` is NaN for sessions without tokens, as `About.CacheEfficiencySpec` states.
- Keys of JavaScript objects used as dictionaries are assumed not to be `Object.prototype` names such as `constructor` or `toString`. This covers the model table of `UsageService.MapCCUsageModel`, the project table of `UsageService.ProjectTable` and the tallies of `Counting.Tallies`. For such names a lookup like `obj[key]` or `key in obj` finds the inherited member, which the model's maps do not have.
- CostTracker.GuardedEfficiencySpec: the guarded figure is 0 for a free model, where the page shows Infinity or NaN. The page's own figure and bar are `CostTracker.Efficiency` and `CostTracker.ShownPercentage`. `CostTracker.ShownPercentageWithFreeModel` states what a free model does to them.
- CostTracker.EfficiencyPercentageSpec: the bars stated are the guarded ones. They are 0 when no model has a positive figure, for example cost-only usage without input or output tokens. There the page's bar is `(0 / 0) * 100`, which is NaN (`CostTracker.ShownPercentageWithoutTokens`). The page's bars equal the guarded ones when every model has a cost and some model has tokens (`CostTracker.ShownPercentageOfCosted`). Breakdowns with a negative cost are not characterised further.

## Findings

| source | as written | input that shows it | evidently intended | confidence | as-written member | corrected member |
|---|---|---|---|---|---|---|
| src/components/WeeklyAnalytics.tsx:92-94 | `((cur - prev) / prev.totalCost) * 100` whenever a previous week exists | a previous week of cost 0 followed by one of cost 2 gives Infinity% (NaN% if both cost 0) | growth is shown only against a week that cost something, 0 otherwise | medium, not executed | WeeklyAnalytics.GrowthFromFreeWeek | WeeklyAnalytics.GuardedGrowthSpec |
| src/components/MonthlyAnalytics.tsx:95-97 | the same unguarded division for months | a free previous month, as above | the same guard | medium, not executed | WeeklyAnalytics.GrowthFromFreeWeek | WeeklyAnalytics.GuardedGrowthSpec |
| src/components/CostTracker.tsx:389-397 | tokens-per-dollar `(in + out) / totalCost` with no guard | a model used at cost 0 with 150 tokens gives Infinity, and with no tokens NaN; either spoils `maxEfficiency` and every bar | a free model is left out of the ratio (shown as 0) | medium, not executed | CostTracker.EfficiencyAtZeroCost | CostTracker.GuardedEfficiencySpec |
| src/components/CostTracker.tsx:396-397 | `(efficiency / maxEfficiency) * 100` with no guard on the maximum | models that all cost something but have no input or output tokens (cache-only usage) give a maximum of 0, so every bar is 0/0 = NaN | every bar is 0 when no model has a positive figure | medium, not executed | CostTracker.BarWithoutTokens | CostTracker.EfficiencyPercentageSpec |
| src/components/About.tsx:499 | `Math.min(100, Math.round(cache / total * 100))` | sessions whose tokens total 0 give NaN% | 0% when there are no tokens | medium, not executed | About.CacheEfficiencyWithoutTokens | About.GuardedCacheEfficiencySpec |
