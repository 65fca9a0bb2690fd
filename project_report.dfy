/** `scripts/generateProjectData.js`: sessions are grouped under the project name their
    session id carries; each project counts its sessions, sums their tokens and cost,
    keeps the latest activity, collects the models and lists the sessions; the projects
    are emitted by non-increasing cost, with a summary. */
module ProjectReport {
  import opened Seqs
  import opened Grouping
  import opened Strings
  import opened Sorting
  import opened JsNumber
  import opened Types

  const DefaultProject: string := "Default Project"

  /** `sessionId.split('-').slice(4).join('-') || 'Default Project'`. */
  function SessionProjectName(sessionId: string): (name: string)
    ensures name != ""
  {
    var joined := Join(Drop(Split(sessionId, '-'), 4), '-');
    if joined == "" then DefaultProject else joined
  }

  /** An id of five dash-separated parts whose first four hold no dash names the project
      after everything past the fourth dash. */
  lemma SessionProjectNameOfParts(a: string, b: string, c: string, d: string, rest: string)
    requires '-' !in a && '-' !in b && '-' !in c && '-' !in d
    requires rest != ""
    ensures SessionProjectName(a + "-" + b + "-" + c + "-" + d + "-" + rest) == rest
  {
    var t3 := d + ['-'] + rest;
    var t2 := c + ['-'] + t3;
    var t1 := b + ['-'] + t2;
    var id := a + ['-'] + t1;
    assert id == a + "-" + b + "-" + c + "-" + d + "-" + rest;
    SplitLeadingPart(d, rest, '-');
    SplitLeadingPart(c, t3, '-');
    SplitLeadingPart(b, t2, '-');
    SplitLeadingPart(a, t1, '-');
    var parts := Split(id, '-');
    assert parts == [a, b, c, d] + Split(rest, '-');
    assert parts[4..] == Split(rest, '-');
    JoinSplit(rest, '-');
  }

  /** The id format quoted beside the code: its first four parts are dropped, so the
      project name keeps the part "Study". */
  lemma SessionProjectNameExample()
    ensures SessionProjectName("D--working-AI-Study-ProjectName") == "Study-ProjectName"
  {
    assert "D--working-AI-Study-ProjectName" == "D" + "-" + "" + "-" + "working" + "-" + "AI" + "-" + "Study-ProjectName";
    SessionProjectNameOfParts("D", "", "working", "AI", "Study-ProjectName");
  }

  /** An id without any dash falls back to the default project. */
  lemma SessionProjectNameNoDash(sessionId: string)
    requires '-' !in sessionId
    ensures SessionProjectName(sessionId) == DefaultProject
  {
    SplitNoSeparator(sessionId, '-');
  }

  /** The reference kept for each session of a project. */
  datatype SessionRef = SessionRef(sessionId: string, date: Option<string>, cost: Option<real>, tokens: Option<nat>)

  /** The per-project accumulator. */
  datatype ProjectAcc = ProjectAcc(
    name: string,
    totalSessions: nat,
    totalTokens: nat,
    totalCost: real,
    inputTokens: nat,
    outputTokens: nat,
    cacheCreationTokens: nat,
    cacheReadTokens: nat,
    lastActive: Option<string>,
    models: seq<string>,
    platforms: seq<Platform>,
    sessions: seq<SessionRef>)

  // Field projections of a session, each missing number read as 0.
  function RTotal(s: RawSession): nat { Or0(s.totalTokens) }
  function RCost(s: RawSession): real { Or0Real(s.totalCost) }
  function RInput(s: RawSession): nat { Or0(s.inputTokens) }
  function ROutput(s: RawSession): nat { Or0(s.outputTokens) }
  function RCacheCreation(s: RawSession): nat { Or0(s.cacheCreationTokens) }
  function RCacheRead(s: RawSession): nat { Or0(s.cacheReadTokens) }
  function RActivity(s: RawSession): Option<string> { s.lastActivity }
  function RModels(s: RawSession): seq<string> { if s.modelsUsed.Some? then s.modelsUsed.value else [] }
  function RRef(s: RawSession): SessionRef { SessionRef(s.sessionId, s.lastActivity, s.totalCost, s.totalTokens) }
  function One(s: RawSession): nat { 1 }

  function ProjectKey(s: RawSession): string { SessionProjectName(s.sessionId) }

  /** The record created the first time a name is met. Its `lastActive` is the creating
      session's, which `AddSession` installs when the count is still 0. */
  function NewProject(name: string): ProjectAcc
  {
    ProjectAcc(name, 0, 0, 0.0, 0, 0, 0, 0, None, [], [Web], [])
  }

  /** `if (next > cur) cur = next`: a missing value on either side compares false. */
  function Later(cur: Option<string>, next: Option<string>): Option<string>
  {
    if cur.Some? && next.Some? && LexLess(cur.value, next.value) then next else cur
  }

  /** The body of the `forEach` for one session of the project. */
  function AddSession(acc: ProjectAcc, s: RawSession): ProjectAcc
  {
    var current := if acc.totalSessions == 0 then s.lastActivity else acc.lastActive;
    ProjectAcc(
      acc.name,
      acc.totalSessions + 1,
      acc.totalTokens + RTotal(s),
      acc.totalCost + RCost(s),
      acc.inputTokens + RInput(s),
      acc.outputTokens + ROutput(s),
      acc.cacheCreationTokens + RCacheCreation(s),
      acc.cacheReadTokens + RCacheRead(s),
      Later(current, s.lastActivity),
      AddAll(acc.models, RModels(s)),
      acc.platforms,
      acc.sessions + [RRef(s)])
  }

  /** Folding a project's sessions counts them, sums each figure, unions the model lists
      in order of first appearance and keeps one reference per session, in order. */
  lemma {:induction false} ProjectFold(sel: seq<RawSession>, name: string)
    ensures var acc := LeftFold(sel, NewProject(name), AddSession);
            && acc.name == name
            && acc.totalSessions == |sel| == |acc.sessions|
            && acc.totalTokens == SumNat(sel, RTotal)
            && acc.totalCost == SumReal(sel, RCost)
            && acc.inputTokens == SumNat(sel, RInput)
            && acc.outputTokens == SumNat(sel, ROutput)
            && acc.cacheCreationTokens == SumNat(sel, RCacheCreation)
            && acc.cacheReadTokens == SumNat(sel, RCacheRead)
            && acc.models == Dedup(Flatten(MapSeq(sel, RModels)))
            && acc.platforms == [Web]
            && acc.sessions == MapSeq(sel, RRef)
    decreases |sel|
  {
    if sel != [] {
      var front, s := Init(sel), Last(sel);
      ProjectFold(front, name);
      assert MapSeq(sel, RModels) == MapSeq(front, RModels) + [RModels(s)];
      InitOfSnoc(MapSeq(front, RModels), RModels(s));
      AddAllAppend([], Flatten(MapSeq(front, RModels)), RModels(s));
    }
  }

  /** The latest activity of a run of sessions, as the comparison in the loop keeps it:
      the first one's, replaced by each later one that compares greater. */
  function LatestOf(xs: seq<Option<string>>): Option<string>
  {
    if xs == [] then None
    else if |xs| == 1 then xs[0]
    else Later(LatestOf(Init(xs)), Last(xs))
  }

  /** When every session has an activity, the result is one of them that none exceeds;
      when the first has none, no later one is ever taken. */
  lemma {:induction false} LatestOfSpec(xs: seq<Option<string>>)
    ensures xs != [] && (forall i :: 0 <= i < |xs| ==> xs[i].Some?) ==>
              && LatestOf(xs).Some?
              && LatestOf(xs) in xs
              && forall i :: 0 <= i < |xs| ==> !LexLess(LatestOf(xs).value, xs[i].value)
    ensures xs != [] && xs[0].None? ==> LatestOf(xs).None?
    decreases |xs|
  {
    if |xs| > 1 {
      var front, w := Init(xs), Last(xs);
      LatestOfSpec(front);
      assert xs == front + [w];
      assert forall i :: 0 <= i < |front| ==> front[i] == xs[i];
      if forall i :: 0 <= i < |xs| ==> xs[i].Some? {
        var v := LatestOf(front).value;
        if LexLess(v, w.value) {
          forall i | 0 <= i < |xs| ensures !LexLess(w.value, xs[i].value) {
            if i < |front| {
              if LexLess(w.value, xs[i].value) {
                LexLessTransitive(v, w.value, xs[i].value);
              }
            } else {
              LexLessIrreflexive(w.value);
            }
          }
        }
      }
    } else if |xs| == 1 {
      if xs[0].Some? {
        LexLessIrreflexive(xs[0].value);
      }
    }
  }

  lemma {:induction false} CountFold(sel: seq<RawSession>, name: string)
    ensures LeftFold(sel, NewProject(name), AddSession).totalSessions == |sel|
    decreases |sel|
  {
    if sel != [] {
      CountFold(Init(sel), name);
    }
  }

  /** The accumulator's `lastActive` is the latest activity of its sessions. */
  lemma {:induction false} LastActiveFold(sel: seq<RawSession>, name: string)
    ensures LeftFold(sel, NewProject(name), AddSession).lastActive == LatestOf(MapSeq(sel, RActivity))
    decreases |sel|
  {
    if sel != [] {
      var front, x := Init(sel), Last(sel);
      var prev := LeftFold(front, NewProject(name), AddSession);
      LastActiveFold(front, name);
      CountFold(front, name);
      var acts := MapSeq(sel, RActivity);
      assert Init(acts) == MapSeq(front, RActivity);
      assert Last(acts) == x.lastActivity;
      assert LeftFold(sel, NewProject(name), AddSession).lastActive
          == Later(if front == [] then x.lastActivity else prev.lastActive, x.lastActivity);
      if front == [] {
        if x.lastActivity.Some? {
          LexLessIrreflexive(x.lastActivity.value);
        }
      } else {
        assert LatestOf(acts) == Later(LatestOf(MapSeq(front, RActivity)), x.lastActivity);
      }
    }
  }

  /** A project as emitted. The averages are JavaScript divisions by the session count. */
  datatype Project = Project(
    name: string,
    totalSessions: nat,
    totalTokens: nat,
    totalCost: real,
    inputTokens: nat,
    outputTokens: nat,
    cacheCreationTokens: nat,
    cacheReadTokens: nat,
    lastActive: Option<string>,
    models: seq<string>,
    platforms: seq<Platform>,
    averageCostPerSession: Num,
    averageTokensPerSession: Num)

  function PName(p: Project): string { p.name }
  function PCost(p: Project): real { p.totalCost }
  function PTokens(p: Project): nat { p.totalTokens }
  function PSessions(p: Project): nat { p.totalSessions }
  function PSessionsReal(p: Project): real { p.totalSessions as real }

  /** The `map` that turns an accumulator into its output record. */
  function Finish(acc: ProjectAcc): Project
  {
    Project(acc.name, acc.totalSessions, acc.totalTokens, acc.totalCost,
      acc.inputTokens, acc.outputTokens, acc.cacheCreationTokens, acc.cacheReadTokens,
      acc.lastActive, acc.models, acc.platforms,
      Div(acc.totalCost, acc.totalSessions as real),
      RoundNum(Div(acc.totalTokens as real, acc.totalSessions as real)))
  }

  /** `Object.values(projects).map(...)`, before the sort. */
  function Unsorted(sessions: seq<RawSession>, key: RawSession -> string): seq<Project>
  {
    MapSeq(Values(GroupFold(sessions, key, NewProject, AddSession)), Finish)
  }

  /** The projects sorted by non-increasing cost. */
  function SortedProjects(sessions: seq<RawSession>, key: RawSession -> string): seq<Project>
  {
    SortDesc(Unsorted(sessions, key), PCost)
  }

  /** The projects in the order the script returns them. */
  function Projects(sessions: seq<RawSession>): seq<Project>
  {
    SortedProjects(sessions, ProjectKey)
  }

  datatype Summary = Summary(
    totalProjects: nat,
    totalCost: real,
    totalTokens: nat,
    mostExpensiveProject: Option<string>,
    mostActiveProject: Option<string>)

  /** `p?.name || null`. */
  function NameOrNull(p: Option<Project>): Option<string>
  {
    if p.Some? && p.value.name != "" then Some(p.value.name) else None
  }

  /** The summary over the sorted projects. */
  function Summarize(ps: seq<Project>): Summary
  {
    Summary(|ps|, SumReal(ps, PCost), SumNat(ps, PTokens),
      NameOrNull(if ps == [] then None else Some(ps[0])),
      NameOrNull(OptMaxBy(ps, PSessionsReal)))
  }

  /** `generateProjectData(sessions)`: the keyed loop, the conversion into an array and
      the in-place sort by cost. */
  method GenerateProjectData(sessions: seq<RawSession>) returns (projects: seq<Project>, summary: Summary)
    ensures projects == Projects(sessions)
    ensures summary == Summarize(projects)
  {
    var ok, keys, m := GroupInto(sessions, ProjectKey, NewProject, AddSession, (s: RawSession) => false);
    var unsorted := MapSeq(Values(Groups(keys, m)), Finish);
    var a := new Project[|unsorted|](i requires 0 <= i < |unsorted| => unsorted[i]);
    assert a[..] == unsorted;
    SortDescInPlace(a, PCost);
    projects := a[..];
    summary := Summarize(projects);
  }

  /** An emitted project agrees with the sessions filed under its name. Its averages are
      finite, since it has at least one session. */
  ghost predicate ProjectMatches(sessions: seq<RawSession>, key: RawSession -> string, p: Project)
  {
    var sel := Select(sessions, key, p.name);
    && sel != []
    && p.totalSessions == |sel|
    && p.totalTokens == SumNat(sel, RTotal)
    && p.totalCost == SumReal(sel, RCost)
    && p.inputTokens == SumNat(sel, RInput)
    && p.outputTokens == SumNat(sel, ROutput)
    && p.cacheCreationTokens == SumNat(sel, RCacheCreation)
    && p.cacheReadTokens == SumNat(sel, RCacheRead)
    && p.lastActive == LatestOf(MapSeq(sel, RActivity))
    && p.models == Dedup(Flatten(MapSeq(sel, RModels)))
    && p.platforms == [Web]
    && p.averageCostPerSession == Finite(p.totalCost / |sel| as real)
    && p.averageTokensPerSession == Finite(Round(p.totalTokens as real / |sel| as real) as real)
  }

  lemma AccumulatorMatches(sessions: seq<RawSession>, key: RawSession -> string, k: string)
    requires k in GroupFold(sessions, key, NewProject, AddSession).m
    ensures var p := Finish(GroupFold(sessions, key, NewProject, AddSession).m[k]);
            p.name == k && ProjectMatches(sessions, key, p)
  {
    GroupFoldSpec(sessions, key, NewProject, AddSession);
    var sel := Select(sessions, key, k);
    ProjectFold(sel, k);
    LastActiveFold(sel, k);
    var i :| 0 <= i < |sessions| && MapSeq(sessions, key)[i] == k;
    SelectMembers(sessions, key, k);
    assert sessions[i] in sel;
  }

  /** Before the sort: one project per name, in order of first appearance, each agreeing
      with its sessions. */
  lemma UnsortedProjects(sessions: seq<RawSession>, key: RawSession -> string)
    ensures var ps := Unsorted(sessions, key);
            && MapSeq(ps, PName) == Dedup(MapSeq(sessions, key))
            && forall p :: p in ps ==> ProjectMatches(sessions, key, p)
  {
    var groups := GroupFold(sessions, key, NewProject, AddSession);
    GroupFoldSpec(sessions, key, NewProject, AddSession);
    var ps := Unsorted(sessions, key);
    forall i | 0 <= i < |ps|
      ensures ps[i].name == groups.keys[i] && ProjectMatches(sessions, key, ps[i])
    {
      UnsortedAt(sessions, key, i);
    }
  }

  lemma UnsortedAt(sessions: seq<RawSession>, key: RawSession -> string, i: nat)
    requires i < |Unsorted(sessions, key)|
    ensures var groups := GroupFold(sessions, key, NewProject, AddSession);
            i < |groups.keys| && Unsorted(sessions, key)[i].name == groups.keys[i]
            && ProjectMatches(sessions, key, Unsorted(sessions, key)[i])
  {
    var groups := GroupFold(sessions, key, NewProject, AddSession);
    GroupFoldSpec(sessions, key, NewProject, AddSession);
    assert groups.keys[i] in groups.keys;
    assert Unsorted(sessions, key)[i] == Finish(groups.m[groups.keys[i]]);
    AccumulatorMatches(sessions, key, groups.keys[i]);
  }

  /** The project names alone: those of the sessions, each once. */
  lemma UnsortedNames(sessions: seq<RawSession>, key: RawSession -> string)
    ensures NoDup(MapSeq(Unsorted(sessions, key), PName))
    ensures forall k :: k in MapSeq(Unsorted(sessions, key), PName) <==> k in MapSeq(sessions, key)
  {
    UnsortedProjects(sessions, key);
    DedupSpec(MapSeq(sessions, key));
  }

  /** Every session is counted once, and the cost and token totals are those of all sessions. */
  lemma UnsortedConserves(sessions: seq<RawSession>, key: RawSession -> string)
    ensures var ps := Unsorted(sessions, key);
            && SumNat(ps, PSessions) == |sessions|
            && SumNat(ps, PTokens) == SumNat(sessions, RTotal)
            && SumReal(ps, PCost) == SumReal(sessions, RCost)
  {
    var m := GroupFold(sessions, key, NewProject, AddSession).m;
    forall k | k in m
      ensures var a := m[k];
              && a.totalSessions == SumNat(Select(sessions, key, k), One)
              && a.totalTokens == SumNat(Select(sessions, key, k), RTotal)
              && a.totalCost == SumReal(Select(sessions, key, k), RCost)
    {
      GroupFoldSpec(sessions, key, NewProject, AddSession);
      ProjectFold(Select(sessions, key, k), k);
      SumOfOnes(Select(sessions, key, k));
    }
    GroupedSumNat(sessions, key, NewProject, AddSession, Finish, PSessions, One);
    GroupedSumNat(sessions, key, NewProject, AddSession, Finish, PTokens, RTotal);
    GroupedSumReal(sessions, key, NewProject, AddSession, Finish, PCost, RCost);
    SumOfOnes(sessions);
  }

  lemma {:induction false} SumOfOnes(xs: seq<RawSession>)
    ensures SumNat(xs, One) == |xs|
    decreases |xs|
  {
    if xs != [] {
      SumOfOnes(Init(xs));
    }
  }

  /** The returned projects: non-increasing cost, projects of equal cost in the order of
      their first session (the grouping's order), one per project name that some session
      carries, each agreeing with its sessions. */
  lemma ProjectsSpec(sessions: seq<RawSession>, key: RawSession -> string)
    ensures var ps := SortedProjects(sessions, key);
            && SortedDesc(ps, PCost)
            && multiset(ps) == multiset(Unsorted(sessions, key))
            && (forall c :: Select(ps, PCost, c) == Select(Unsorted(sessions, key), PCost, c))
            && (forall p :: p in ps ==> ProjectMatches(sessions, key, p))
            && forall k :: k in MapSeq(ps, PName) <==> k in MapSeq(sessions, key)
  {
    var u := Unsorted(sessions, key);
    UnsortedProjects(sessions, key);
    DedupSpec(MapSeq(sessions, key));
    SortDescSpec(u, PCost);
    SortDescMembers(u, PCost, PName);
  }

  /** Names taken from sessions are the names of the project list. */
  lemma ProjectNamesFromKeys(sessions: seq<RawSession>, key: RawSession -> string)
    requires forall x :: key(x) != ""
    ensures forall p :: p in SortedProjects(sessions, key) ==> p.name != ""
  {
    var ps := SortedProjects(sessions, key);
    var u := Unsorted(sessions, key);
    UnsortedNames(sessions, key);
    SortDescMembers(u, PCost, PName);
    forall p | p in ps ensures p.name != "" {
      var i :| 0 <= i < |ps| && ps[i] == p;
      assert MapSeq(ps, PName)[i] == p.name;
      assert p.name in MapSeq(sessions, key);
      var j :| 0 <= j < |sessions| && MapSeq(sessions, key)[j] == p.name;
      assert key(sessions[j]) != "";
    }
  }

  /** The summary's counts: one entry per project name, and the totals of all sessions. */
  lemma SummaryTotals(sessions: seq<RawSession>, key: RawSession -> string)
    ensures var s := Summarize(SortedProjects(sessions, key));
            && s.totalProjects == |Dedup(MapSeq(sessions, key))|
            && s.totalCost == SumReal(sessions, RCost)
            && s.totalTokens == SumNat(sessions, RTotal)
  {
    var u := Unsorted(sessions, key);
    UnsortedProjects(sessions, key);
    UnsortedConserves(sessions, key);
    SortDescSums(u, PCost, PTokens, PCost);
    assert |MapSeq(u, PName)| == |u|;
  }

  /** The summary's leaders: the costliest project (the first one met among equal costs)
      and the project with the most sessions (again the first one met); both names are
      null exactly when there are no sessions, since no project name is empty. */
  lemma SummaryLeaders(sessions: seq<RawSession>, key: RawSession -> string)
    requires forall x :: key(x) != ""
    ensures var u := Unsorted(sessions, key);
            var ps := SortedProjects(sessions, key);
            var s := Summarize(ps);
            && (s.mostExpensiveProject.None? <==> sessions == [])
            && (s.mostActiveProject.None? <==> sessions == [])
            && (sessions != [] ==> s.mostExpensiveProject == Some(u[FirstMaxIndex(u, PCost)].name))
            && (sessions != [] ==> s.mostActiveProject == Some(ps[FirstMaxIndex(ps, PSessionsReal)].name))
  {
    var u := Unsorted(sessions, key);
    var ps := SortedProjects(sessions, key);
    OptMaxByIsFirstMax(ps, PSessionsReal);
    if sessions != [] {
      UnsortedNames(sessions, key);
      assert MapSeq(sessions, key)[0] in MapSeq(sessions, key);
      assert u != [];
      SortDescHeadIsFirstMax(u, PCost);
      ProjectNamesFromKeys(sessions, key);
      assert ps[0] in ps;
      assert ps[FirstMaxIndex(ps, PSessionsReal)] in ps;
    } else {
      assert u == [];
    }
  }

  /** The script's own key: what the two lemmas above say holds of `Projects`. */
  lemma ProjectsOfSessions(sessions: seq<RawSession>)
    ensures var ps := Projects(sessions);
            && SortedDesc(ps, PCost)
            && (forall p :: p in ps ==> ProjectMatches(sessions, ProjectKey, p))
            && (forall k :: k in MapSeq(ps, PName) <==> k in MapSeq(sessions, ProjectKey))
            && Summarize(ps).totalCost == SumReal(sessions, RCost)
            && Summarize(ps).totalTokens == SumNat(sessions, RTotal)
            && (Summarize(ps).mostExpensiveProject.None? <==> sessions == [])
  {
    ProjectsSpec(sessions, ProjectKey);
    SummaryTotals(sessions, ProjectKey);
    SummaryLeaders(sessions, ProjectKey);
  }
}
