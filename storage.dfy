/** The in-memory store (`server/storage.ts`). Each of its six JavaScript `Map`s is a sequence
    of records in insertion order; because ids come from one counter that only grows and no
    record is ever removed, that order is also ascending id order, and `Map.set` on an
    existing key replaces the record where it stands. The clock (`new Date()`) is the `now`
    parameter of the operations that read it. */
module Storage {
  import opened Outcomes
  import Js
  import Seqs
  import opened Schema
  import ExcelParser
  import OpenAIService

  // ---------------------------------------------------------------------------------------
  // Tables keyed by id

  /** The ids of a table rise strictly along it and lie in `[1, bound)`. */
  ghost predicate IdsBelow<T>(s: seq<T>, idOf: T -> int, bound: int) {
    (forall i :: 0 <= i < |s| ==> 1 <= idOf(s[i]) < bound)
    && (forall i, j :: 0 <= i < j < |s| ==> idOf(s[i]) < idOf(s[j]))
  }

  /** The test `getActiveLlmConfiguration` searches the table with. */
  predicate IsActiveConfig(c: LlmConfiguration) { c.isActive }

  /** An empty table satisfies any bound. */
  lemma {:induction false} IdsBelowEmpty<T>(s: seq<T>, idOf: T -> int, bound: int)
    requires s == []
    ensures IdsBelow(s, idOf, bound)
  {
  }

  /** Drawing an id from the counter leaves every other table's ids below the new bound. */
  lemma {:induction false} IdsBelowRaise<T>(s: seq<T>, idOf: T -> int, bound: int)
    requires IdsBelow(s, idOf, bound)
    ensures IdsBelow(s, idOf, bound + 1)
  {
  }

  /** The position of the record with id `id`. */
  function IndexOfId<T>(s: seq<T>, idOf: T -> int, id: int): (r: Option<nat>)
    ensures r.None? <==> forall i :: 0 <= i < |s| ==> idOf(s[i]) != id
    ensures r.Some? ==> r.value < |s| && idOf(s[r.value]) == id
    ensures r.Some? ==> forall j :: 0 <= j < r.value ==> idOf(s[j]) != id
  {
    if |s| == 0 then None
    else if idOf(s[0]) == id then Some(0)
    else
      match IndexOfId(s[1..], idOf, id)
      case None => None
      case Some(i) =>
        assert forall j :: 1 <= j <= i ==> s[j] == s[1..][j - 1];
        Some(i + 1)
  }

  /** `map.get(id)`. */
  function Lookup<T>(s: seq<T>, idOf: T -> int, id: int): (r: Option<T>)
    ensures r.Some? ==> r.value in s && idOf(r.value) == id
    ensures r.None? <==> forall i :: 0 <= i < |s| ==> idOf(s[i]) != id
  {
    match IndexOfId(s, idOf, id)
    case None => None
    case Some(i) => Some(s[i])
  }

  /** Every stored id is at least 1. */
  lemma {:induction false} StoredIdPositive<T>(s: seq<T>, idOf: T -> int, bound: int, x: T)
    requires IdsBelow(s, idOf, bound) && x in s
    ensures idOf(x) >= 1
  {
    var i :| 0 <= i < |s| && s[i] == x;
  }

  /** `map.set(idOf(x), x)` for a key already present: the record is replaced in place. */
  function SetById<T>(s: seq<T>, idOf: T -> int, x: T): (r: seq<T>)
    ensures |r| == |s|
  {
    match IndexOfId(s, idOf, idOf(x))
    case None => s
    case Some(i) => s[i := x]
  }

  /** `IndexOfId` sees only the ids: two tables with the same ids position every id alike. */
  lemma {:induction false} IndexOfIdSameIds<T>(s: seq<T>, t: seq<T>, idOf: T -> int, k: int)
    requires |s| == |t| && forall j :: 0 <= j < |s| ==> idOf(s[j]) == idOf(t[j])
    ensures IndexOfId(s, idOf, k) == IndexOfId(t, idOf, k)
  {
    if |s| > 0 && idOf(s[0]) != k {
      IndexOfIdSameIds(s[1..], t[1..], idOf, k);
    }
  }

  /** Appending a record finds earlier ids where they were and the new id at the end. */
  lemma {:induction false} IndexOfIdAppend<T>(s: seq<T>, idOf: T -> int, x: T, k: int)
    ensures IndexOfId(s + [x], idOf, k)
            == if IndexOfId(s, idOf, k).Some? then IndexOfId(s, idOf, k)
               else if idOf(x) == k then Some(|s|) else None
  {
    if |s| > 0 && idOf(s[0]) != k {
      assert (s + [x])[1..] == s[1..] + [x];
      IndexOfIdAppend(s[1..], idOf, x, k);
    }
  }

  /** In a table with distinct ids, a record's id finds that record's position. */
  lemma {:induction false} IndexOfStored<T>(s: seq<T>, idOf: T -> int, bound: int, i: nat)
    requires IdsBelow(s, idOf, bound) && i < |s|
    ensures IndexOfId(s, idOf, idOf(s[i])) == Some(i)
  {
  }

  /** A stored record is what its id looks up. */
  lemma {:induction false} LookupStored<T>(s: seq<T>, idOf: T -> int, bound: int, x: T)
    requires IdsBelow(s, idOf, bound) && x in s
    ensures Lookup(s, idOf, idOf(x)) == Some(x)
  {
    var i :| 0 <= i < |s| && s[i] == x;
    IndexOfStored(s, idOf, bound, i);
  }

  /** Replacing a record by one with the same id keeps the ids in order; afterwards the id
      finds the new record and every other id finds what it found before. */
  lemma {:induction false} SetByIdLookup<T>(s: seq<T>, idOf: T -> int, bound: int, x: T, k: int)
    requires IdsBelow(s, idOf, bound) && Lookup(s, idOf, idOf(x)).Some?
    ensures IdsBelow(SetById(s, idOf, x), idOf, bound)
    ensures Lookup(SetById(s, idOf, x), idOf, k) == if k == idOf(x) then Some(x) else Lookup(s, idOf, k)
  {
    var i := IndexOfId(s, idOf, idOf(x)).value;
    var r := s[i := x];
    assert forall j :: 0 <= j < |s| ==> idOf(r[j]) == idOf(s[j]);
    IndexOfIdSameIds(r, s, idOf, k);
  }

  /** Appending a record with the counter's id keeps the ids in order, below the next bound. */
  lemma {:induction false} AppendIds<T>(s: seq<T>, idOf: T -> int, bound: int, x: T)
    requires IdsBelow(s, idOf, bound) && idOf(x) == bound && bound >= 1
    ensures IdsBelow(s + [x], idOf, bound + 1)
  {
    var r := s + [x];
    assert forall j :: 0 <= j < |s| ==> r[j] == s[j];
  }

  /** Inserting a record with a fresh id (the counter) at the end keeps the ids in order;
      afterwards the new id finds it and every other id finds what it found before. */
  lemma {:induction false} AppendLookup<T>(s: seq<T>, idOf: T -> int, bound: int, x: T, k: int)
    requires IdsBelow(s, idOf, bound) && idOf(x) == bound && bound >= 1
    ensures IdsBelow(s + [x], idOf, bound + 1)
    ensures Lookup(s + [x], idOf, k) == if k == bound then Some(x) else Lookup(s, idOf, k)
  {
    IndexOfIdAppend(s, idOf, x, k);
    var r := s + [x];
    assert forall j :: 0 <= j < |s| ==> r[j] == s[j];
  }

  function UserId(u: User): int { u.id }
  function ProjectKey(p: Project): int { p.id }
  function ReportKey(r: WeeklyStatusReport): int { r.id }
  function ReviewKey(r: TechnicalReview): int { r.id }
  function LlmKey(c: LlmConfiguration): int { c.id }
  function AnalysisKey(a: PortfolioAnalysis): int { a.id }
  function CreatedAtOf(r: WeeklyStatusReport): int { r.createdAt }
  function AnalysisDateOf(a: PortfolioAnalysis): int { a.analysisDate }

  // ---------------------------------------------------------------------------------------
  // Queries on the tables

  predicate IsActiveProject(p: Project) { p.isActive }

  /** `p.projectManagerId === managerId && p.isActive`. */
  function ProjectsOfManager(ps: seq<Project>, managerId: int): (r: seq<Project>)
    ensures forall p :: p in r <==> p in ps && p.isActive && p.data.projectManagerId == Some(managerId)
  {
    Seqs.Filter(ps, (p: Project) => p.data.projectManagerId == Some(managerId) && p.isActive)
  }

  /** `projectId ? reports.filter(r => r.projectId === projectId) : reports`: a missing,
      `NaN` or zero project id selects every report. */
  function ReportsOfProject(rs: seq<WeeklyStatusReport>, projectId: Option<int>): (r: seq<WeeklyStatusReport>)
    ensures projectId.None? || projectId.value == 0 ==> r == rs
    ensures projectId.Some? && projectId.value != 0 ==>
              forall x :: x in r <==> x in rs && x.data.projectId == projectId.value
  {
    if projectId.Some? && projectId.value != 0 then Seqs.Filter(rs, OfProject(projectId.value))
    else rs
  }

  /** The filter the report queries apply for one project. */
  function OfProject(projectId: int): WeeklyStatusReport -> bool {
    (x: WeeklyStatusReport) => x.data.projectId == projectId
  }

  function ReviewsOfProject(rs: seq<TechnicalReview>, projectId: Option<int>): (r: seq<TechnicalReview>)
    ensures projectId.None? || projectId.value == 0 ==> r == rs
    ensures projectId.Some? && projectId.value != 0 ==>
              forall x :: x in r <==> x in rs && x.data.projectId == projectId.value
  {
    if projectId.Some? && projectId.value != 0 then Seqs.Filter(rs, (x: TechnicalReview) => x.data.projectId == projectId.value)
    else rs
  }

  /** The analyses, latest first (`sort` by `analysisDate`, descending). */
  function AnalysesLatestFirst(as_: seq<PortfolioAnalysis>): seq<PortfolioAnalysis> {
    Seqs.SortDesc(as_, AnalysisDateOf)
  }

  /** `getLatestPortfolioAnalysis`: the first analysis of the sorted copy. */
  function LatestAnalysis(as_: seq<PortfolioAnalysis>): Option<PortfolioAnalysis> {
    Seqs.First(AnalysesLatestFirst(as_))
  }

  /** The number of analyses the history gives when the caller passes no limit. */
  const DefaultHistoryLimit := 10

  /** `getPortfolioAnalysisHistory(limit = 10)`; `None` is a call without a limit. */
  function AnalysisHistory(as_: seq<PortfolioAnalysis>, limit: Option<int>): seq<PortfolioAnalysis> {
    Js.Slice(AnalysesLatestFirst(as_), 0, limit.GetOr(DefaultHistoryLimit))
  }

  /** The latest analysis is one with the greatest date; among analyses of equal date it is
      the one inserted first. There is none only when nothing is stored. */
  lemma {:induction false} LatestAnalysisIsLatest(as_: seq<PortfolioAnalysis>)
    ensures LatestAnalysis(as_).None? <==> |as_| == 0
    ensures LatestAnalysis(as_).Some? ==>
              exists i :: 0 <= i < |as_| && LatestAnalysis(as_).value == as_[i]
                && (forall j :: 0 <= j < |as_| ==> as_[j].analysisDate <= as_[i].analysisDate)
                && (forall j :: 0 <= j < i ==> as_[j].analysisDate < as_[i].analysisDate)
  {
    if |as_| > 0 {
      Seqs.SortDescHead(as_, AnalysisDateOf);
    }
  }

  /** The history holds the `limit` latest analyses (all of them when there are fewer), latest
      first: each stored analysis at most as often as it is stored, and none left out that is
      newer than one kept. */
  lemma {:induction false} AnalysisHistoryFacts(as_: seq<PortfolioAnalysis>, limit: nat)
    ensures |AnalysisHistory(as_, Some(limit))| == if limit <= |as_| then limit else |as_|
    ensures Seqs.SortedDesc(AnalysisHistory(as_, Some(limit)), AnalysisDateOf)
    ensures multiset(AnalysisHistory(as_, Some(limit))) <= multiset(as_)
    ensures forall a, b :: (a in multiset(as_) - multiset(AnalysisHistory(as_, Some(limit)))
                            && b in AnalysisHistory(as_, Some(limit))) ==> a.analysisDate <= b.analysisDate
  {
    var sorted := AnalysesLatestFirst(as_);
    Js.SliceFromStart(sorted, limit);
    var k := if limit <= |sorted| then limit else |sorted|;
    assert AnalysisHistory(as_, Some(limit)) == sorted[..k];
    Seqs.SortDescPrefix(as_, AnalysisDateOf, k);
    Seqs.SortDescPrefixMultiset(as_, AnalysisDateOf, k);
    forall a, b | a in multiset(as_) - multiset(sorted[..k]) && b in sorted[..k]
      ensures a.analysisDate <= b.analysisDate
    {
      assert AnalysisDateOf(a) <= AnalysisDateOf(b);
    }
  }

  /** Without a limit the history gives the ten latest analyses. */
  lemma {:induction false} AnalysisHistoryDefault(as_: seq<PortfolioAnalysis>)
    ensures AnalysisHistory(as_, None) == AnalysisHistory(as_, Some(10))
    ensures |AnalysisHistory(as_, None)| == if |as_| >= 10 then 10 else |as_|
  {
    AnalysisHistoryFacts(as_, 10);
  }

  predicate Analyzed(r: WeeklyStatusReport) {
    r.aiStatus != "" && r.aiAssessmentDescription != ""
  }

  /** `getAIAnalyzedReports`: the reports that carry both AI fields, latest first. */
  function AIAnalyzedReports(rs: seq<WeeklyStatusReport>): seq<WeeklyStatusReport> {
    Seqs.SortDesc(Seqs.Filter(rs, Analyzed), CreatedAtOf)
  }

  /** Exactly the analysed reports, each once, newest first. */
  lemma {:induction false} AIAnalyzedReportsFacts(rs: seq<WeeklyStatusReport>)
    ensures forall r :: r in AIAnalyzedReports(rs) <==> r in rs && Analyzed(r)
    ensures multiset(AIAnalyzedReports(rs)) == multiset(Seqs.Filter(rs, Analyzed))
    ensures Seqs.SortedDesc(AIAnalyzedReports(rs), CreatedAtOf)
  {
    var f := Seqs.Filter(rs, Analyzed);
    Seqs.SortDescSorted(f, CreatedAtOf);
    forall r ensures r in AIAnalyzedReports(rs) <==> r in f {
      assert r in AIAnalyzedReports(rs) <==> r in multiset(AIAnalyzedReports(rs));
      assert r in f <==> r in multiset(f);
    }
  }

  /** Storing a report with empty AI fields, as `createWeeklyStatusReport` does with an import,
      leaves `getAIAnalyzedReports` exactly as it was, whatever summary was computed. */
  lemma {:induction false} UnanalyzedReportNotListed(rs: seq<WeeklyStatusReport>, id: int, now: int, d: ReportData)
    ensures AIAnalyzedReports(rs + [WeeklyStatusReport(id, now, d, "", "")]) == AIAnalyzedReports(rs)
  {
    var x := WeeklyStatusReport(id, now, d, "", "");
    Seqs.FilterAppend(rs, [x], Analyzed);
    assert Seqs.Filter([x], Analyzed) == [];
    assert Seqs.Filter(rs + [x], Analyzed) == Seqs.Filter(rs, Analyzed);
  }

  /** A report stored with a non-empty status and description is listed by
      `getAIAnalyzedReports`. */
  lemma {:induction false} AnalyzedReportListed(rs: seq<WeeklyStatusReport>, id: int, now: int, d: ReportData,
                                                status: string, description: string)
    requires status != "" && description != ""
    ensures WeeklyStatusReport(id, now, d, status, description) in AIAnalyzedReports(rs + [WeeklyStatusReport(id, now, d, status, description)])
  {
    AIAnalyzedReportsFacts(rs + [WeeklyStatusReport(id, now, d, status, description)]);
  }

  /** After a soft delete the project is still stored but no longer active: no active project
      carries its id, so `getProjects` and `getProjectsByManager` omit it. */
  lemma {:induction false} SoftDeleteHides(ps: seq<Project>, bound: int, x: Project, managerId: int)
    requires IdsBelow(ps, ProjectKey, bound) && Lookup(ps, ProjectKey, x.id).Some? && !x.isActive
    ensures Lookup(SetById(ps, ProjectKey, x), ProjectKey, x.id) == Some(x)
    ensures forall q :: q in Seqs.Filter(SetById(ps, ProjectKey, x), IsActiveProject) ==> q.id != x.id
    ensures forall q :: q in ProjectsOfManager(SetById(ps, ProjectKey, x), managerId) ==> q.id != x.id
  {
    SetByIdLookup(ps, ProjectKey, bound, x, x.id);
    var r := SetById(ps, ProjectKey, x);
    var i := IndexOfId(ps, ProjectKey, x.id).value;
    assert forall j :: 0 <= j < |r| ==> ProjectKey(r[j]) == ProjectKey(ps[j]);
    forall q | q in r && q.id == x.id ensures q == x {
      var j :| 0 <= j < |r| && r[j] == q;
      assert j == i;
    }
  }

  // ---------------------------------------------------------------------------------------
  // The Excel import

  const DayMs := 24 * 60 * 60 * 1000

  /** `toDateString()` equality: the same calendar day (time zone UTC in this model). */
  predicate SameDay(a: int, b: int) { a / DayMs == b / DayMs }

  /** `r.weekNumber === reportData.weekNumber`: `NaN` and `null` equal nothing. */
  predicate SameWeek(stored: Option<int>, parsed: Option<int>) {
    stored.Some? && parsed.Some? && stored.value == parsed.value
  }

  /** `String(n).padStart(3, '0')`. */
  function Pad3(n: nat): (s: string)
    requires n < 1000
    ensures |s| == 3
  {
    var d := Js.NatToString(n);
    if |d| >= 3 then d[..3] else seq(3 - |d|, _ => '0') + d
  }

  /** `name.split(' ')[0] || 'Unknown'`. */
  function FirstWord(name: string): (w: string)
    ensures w != ""
    ensures w != "Unknown" ==> ' ' !in w && Js.StartsWith(name, w)
  {
    var parts := Js.Split(name, ' ');
    var first := parts[0];
    assert Js.StartsWith(name, first) by {
      if ' ' in name {
        assert first == name[..Js.IndexOfChar(name, ' ')];
      }
    }
    if first != "" then first else "Unknown"
  }

  /** The project created for a name that matches no stored project. `code` is
      `Math.floor(Math.random() * 1000)`. */
  function ImportedProject(d: ExcelParser.ExcelReportData, now: int, code: nat): NewProject
    requires code < 1000
  {
    NewProject(
      ProjectData(
        name := d.projectName,
        codeId := "EXL-" + Pad3(code),
        account := FirstWord(d.projectName),
        customer := FirstWord(d.projectName),
        engagementType := "Development",
        deliveryModel := "Agile",
        billingModel := if d.billingModel != "" then d.billingModel else "T&M",
        projectImportance := "Medium",
        ragStatus := d.healthCurrentWeek,
        scopeDescription := "Project imported from Excel: " + d.projectName,
        projectManagerId := Some(1),
        deliveryManagerId := Some(3),
        teamSquad := if d.tower != "" then d.tower else "Alpha Squad",
        tower := d.tower,
        fte := d.fte,
        revenue := d.revenue,
        startDate := now,
        plannedEndDate := now + 180 * DayMs,
        clientEscalation := d.clientEscalation != "None",
        aiMonitoringEnabled := true,
        projectTags := ["excel-import"]),
      Some(true))
  }

  /** The report columns of the import payload (the AI fields travel separately). */
  function ImportPayload(projectId: int, d: ExcelParser.ExcelReportData, now: int): ReportData {
    ReportData(
      projectId := projectId,
      reportingDate := now,
      weekNumber := d.weekNumber,
      publishStatus := true,
      healthPreviousWeek := d.healthPreviousWeek,
      healthCurrentWeek := d.healthCurrentWeek,
      clientEscalation := d.clientEscalation,
      updateForCurrentWeek := d.updateForCurrentWeek,
      planForNextWeek := d.planForNextWeek,
      issuesChallenges := d.issuesChallenges,
      pathToGreen := d.pathToGreen,
      resourcingStatus := d.resourcingStatus,
      currentSdlcPhase := "Development",
      sqaRemarks := "",
      fte := d.fte,
      revenue := d.revenue,
      tower := d.tower,
      billingModel := d.billingModel,
      submittedBy := Some(1),
      ragStatus := None)
  }

  predicate SameName(p: Project, name: string) {
    Js.LowerStr(p.data.name) == Js.LowerStr(name)
  }

  /** The report of the same week submitted on the same day, if any. */
  function ReportOfWeekToday(rs: seq<WeeklyStatusReport>, week: Option<int>, now: int): Option<WeeklyStatusReport> {
    Seqs.Find(rs, (r: WeeklyStatusReport) => SameWeek(r.data.weekNumber, week) && SameDay(r.data.reportingDate, now))
  }

  /** The stored report an import overwrites: one of the payload's project, of the same week,
      submitted on the same day. */
  function PriorReport(rs: seq<WeeklyStatusReport>, payload: ReportData, now: int): (r: Option<WeeklyStatusReport>)
    ensures r.Some? ==> r.value in rs && (payload.projectId != 0 ==> r.value.data.projectId == payload.projectId)
                        && SameWeek(r.value.data.weekNumber, payload.weekNumber)
                        && SameDay(r.value.data.reportingDate, now)
  {
    ReportOfWeekToday(ReportsOfProject(rs, Some(payload.projectId)), payload.weekNumber, now)
  }

  /** A record found in a table with distinct ids is what its id looks up. */
  lemma {:induction false} StoredReportFound(rs: seq<WeeklyStatusReport>, x: WeeklyStatusReport)
    requires x in rs && forall i, j :: 0 <= i < j < |rs| ==> rs[i].id < rs[j].id
    ensures Lookup(rs, ReportKey, x.id) == Some(x)
  {
    var i :| 0 <= i < |rs| && rs[i] == x;
    assert IndexOfId(rs, ReportKey, x.id) == Some(i);
  }

  // ---------------------------------------------------------------------------------------
  // The store

  class MemStorage {
    var users: seq<User>
    var projects: seq<Project>
    var weeklyStatusReports: seq<WeeklyStatusReport>
    var technicalReviews: seq<TechnicalReview>
    var llmConfigurations: seq<LlmConfiguration>
    var portfolioAnalyses: seq<PortfolioAnalysis>
    var currentId: int

    /** Every id was drawn from the counter, once. */
    ghost predicate Valid()
      reads this
    {
      currentId >= 1
      && IdsBelow(users, UserId, currentId)
      && IdsBelow(projects, ProjectKey, currentId)
      && IdsBelow(weeklyStatusReports, ReportKey, currentId)
      && IdsBelow(technicalReviews, ReviewKey, currentId)
      && IdsBelow(llmConfigurations, LlmKey, currentId)
      && IdsBelow(portfolioAnalyses, AnalysisKey, currentId)
    }

    /** An empty store (the demonstration records the source seeds are left out). */
    constructor()
      ensures Valid()
      ensures users == [] && projects == [] && weeklyStatusReports == [] && technicalReviews == []
      ensures llmConfigurations == [] && portfolioAnalyses == [] && currentId == 1
    {
      users := [];
      projects := [];
      weeklyStatusReports := [];
      technicalReviews := [];
      llmConfigurations := [];
      portfolioAnalyses := [];
      currentId := 1;
      new;
      IdsBelowEmpty(users, UserId, 1);
      IdsBelowEmpty(projects, ProjectKey, 1);
      IdsBelowEmpty(weeklyStatusReports, ReportKey, 1);
      IdsBelowEmpty(technicalReviews, ReviewKey, 1);
      IdsBelowEmpty(llmConfigurations, LlmKey, 1);
      IdsBelowEmpty(portfolioAnalyses, AnalysisKey, 1);
    }

    // ----- users

    function GetUser(id: int): Option<User>
      reads this
    {
      Lookup(users, UserId, id)
    }

    function GetUsers(): seq<User>
      reads this
    {
      users
    }

    /** `find(user => user.username === username)`. */
    function GetUserByUsername(username: string): (r: Option<User>)
      reads this
      ensures r.Some? ==> r.value in users && r.value.username == username
      ensures r.None? <==> forall i :: 0 <= i < |users| ==> users[i].username != username
    {
      Seqs.Find(users, (u: User) => u.username == username)
    }

    method CreateUser(u: NewUser) returns (user: User)
      requires Valid()
      modifies this
      ensures Valid()
      ensures user == User(old(currentId), u.username, u.email, u.role, u.name)
      ensures users == old(users) + [user] && currentId == old(currentId) + 1
      ensures projects == old(projects) && weeklyStatusReports == old(weeklyStatusReports)
      ensures technicalReviews == old(technicalReviews) && llmConfigurations == old(llmConfigurations)
      ensures portfolioAnalyses == old(portfolioAnalyses)
    {
      var id := currentId;
      currentId := currentId + 1;
      user := User(id, u.username, u.email, u.role, u.name);
      AppendIds(users, UserId, id, user);
      IdsBelowRaise(projects, ProjectKey, id);
      IdsBelowRaise(weeklyStatusReports, ReportKey, id);
      IdsBelowRaise(technicalReviews, ReviewKey, id);
      IdsBelowRaise(llmConfigurations, LlmKey, id);
      IdsBelowRaise(portfolioAnalyses, AnalysisKey, id);
      users := users + [user];
    }

    // ----- projects

    /** `getProjects`: the active projects. */
    function GetProjects(): seq<Project>
      reads this
    {
      Seqs.Filter(projects, IsActiveProject)
    }

    function GetProject(id: int): Option<Project>
      reads this
    {
      Lookup(projects, ProjectKey, id)
    }

    function GetProjectsByManager(managerId: int): seq<Project>
      reads this
    {
      ProjectsOfManager(projects, managerId)
    }

    method CreateProject(np: NewProject, now: int) returns (p: Project)
      requires Valid()
      modifies this
      ensures Valid()
      ensures p == Project(old(currentId), now, np.isActive.GetOr(true), np.data)
      ensures projects == old(projects) + [p] && currentId == old(currentId) + 1
      ensures users == old(users) && weeklyStatusReports == old(weeklyStatusReports)
      ensures technicalReviews == old(technicalReviews) && llmConfigurations == old(llmConfigurations)
      ensures portfolioAnalyses == old(portfolioAnalyses)
    {
      var id := currentId;
      currentId := currentId + 1;
      p := Project(id, now, np.isActive.GetOr(true), np.data);
      AppendIds(projects, ProjectKey, id, p);
      IdsBelowRaise(users, UserId, id);
      IdsBelowRaise(weeklyStatusReports, ReportKey, id);
      IdsBelowRaise(technicalReviews, ReviewKey, id);
      IdsBelowRaise(llmConfigurations, LlmKey, id);
      IdsBelowRaise(portfolioAnalyses, AnalysisKey, id);
      projects := projects + [p];
    }

    /** `updateProject`: `None` (`undefined`) when the id is unknown, else the overlay. */
    method UpdateProject(id: int, u: ProjectPatch) returns (r: Option<Project>)
      requires Valid()
      modifies this
      ensures Valid()
      ensures old(GetProject(id)).None? ==> r.None? && projects == old(projects)
      ensures old(GetProject(id)).Some? ==>
                r == Some(ApplyProjectPatch(old(GetProject(id)).value, u))
                && projects == SetById(old(projects), ProjectKey, r.value)
      ensures users == old(users) && weeklyStatusReports == old(weeklyStatusReports)
      ensures technicalReviews == old(technicalReviews) && llmConfigurations == old(llmConfigurations)
      ensures portfolioAnalyses == old(portfolioAnalyses) && currentId == old(currentId)
    {
      var existing := GetProject(id);
      if existing.None? {
        return None;
      }
      var updated := ApplyProjectPatch(existing.value, u);
      SetByIdLookup(projects, ProjectKey, currentId, updated, id);
      projects := SetById(projects, ProjectKey, updated);
      return Some(updated);
    }

    /** `deleteProject`: a soft delete that clears `isActive`. */
    method DeleteProject(id: int) returns (deleted: bool)
      requires Valid()
      modifies this
      ensures Valid()
      ensures deleted <==> old(GetProject(id)).Some?
      ensures !deleted ==> projects == old(projects)
      ensures deleted ==> projects == SetById(old(projects), ProjectKey, old(GetProject(id)).value.(isActive := false))
      ensures users == old(users) && weeklyStatusReports == old(weeklyStatusReports)
      ensures technicalReviews == old(technicalReviews) && llmConfigurations == old(llmConfigurations)
      ensures portfolioAnalyses == old(portfolioAnalyses) && currentId == old(currentId)
    {
      var existing := GetProject(id);
      if existing.None? {
        return false;
      }
      var updated := existing.value.(isActive := false);
      SetByIdLookup(projects, ProjectKey, currentId, updated, id);
      projects := SetById(projects, ProjectKey, updated);
      return true;
    }

    // ----- weekly status reports

    function GetWeeklyStatusReports(projectId: Option<int>): seq<WeeklyStatusReport>
      reads this
    {
      ReportsOfProject(weeklyStatusReports, projectId)
    }

    function GetWeeklyStatusReport(id: int): Option<WeeklyStatusReport>
      reads this
    {
      Lookup(weeklyStatusReports, ReportKey, id)
    }

    /** `createWeeklyStatusReport`: the AI fields always start out `null`. */
    method CreateWeeklyStatusReport(d: ReportData, now: int) returns (r: WeeklyStatusReport)
      requires Valid()
      modifies this
      ensures Valid()
      ensures r == WeeklyStatusReport(old(currentId), now, d, "", "")
      ensures weeklyStatusReports == old(weeklyStatusReports) + [r] && currentId == old(currentId) + 1
      ensures users == old(users) && projects == old(projects)
      ensures technicalReviews == old(technicalReviews) && llmConfigurations == old(llmConfigurations)
      ensures portfolioAnalyses == old(portfolioAnalyses)
    {
      var id := currentId;
      currentId := currentId + 1;
      r := WeeklyStatusReport(id, now, d, "", "");
      AppendIds(weeklyStatusReports, ReportKey, id, r);
      IdsBelowRaise(users, UserId, id);
      IdsBelowRaise(projects, ProjectKey, id);
      IdsBelowRaise(technicalReviews, ReviewKey, id);
      IdsBelowRaise(llmConfigurations, LlmKey, id);
      IdsBelowRaise(portfolioAnalyses, AnalysisKey, id);
      weeklyStatusReports := weeklyStatusReports + [r];
    }

    /** `createWeeklyStatusReport` as the import needs it: the supplied AI fields are stored
        instead of being reset. */
    method CreateAnalyzedWeeklyStatusReport(d: ReportData, aiStatus: string, aiDescription: string, now: int)
      returns (r: WeeklyStatusReport)
      requires Valid()
      modifies this
      ensures Valid()
      ensures r == WeeklyStatusReport(old(currentId), now, d, aiStatus, aiDescription)
      ensures weeklyStatusReports == old(weeklyStatusReports) + [r] && currentId == old(currentId) + 1
      ensures users == old(users) && projects == old(projects)
      ensures technicalReviews == old(technicalReviews) && llmConfigurations == old(llmConfigurations)
      ensures portfolioAnalyses == old(portfolioAnalyses)
    {
      var id := currentId;
      currentId := currentId + 1;
      r := WeeklyStatusReport(id, now, d, aiStatus, aiDescription);
      AppendIds(weeklyStatusReports, ReportKey, id, r);
      IdsBelowRaise(users, UserId, id);
      IdsBelowRaise(projects, ProjectKey, id);
      IdsBelowRaise(technicalReviews, ReviewKey, id);
      IdsBelowRaise(llmConfigurations, LlmKey, id);
      IdsBelowRaise(portfolioAnalyses, AnalysisKey, id);
      weeklyStatusReports := weeklyStatusReports + [r];
    }

    method UpdateWeeklyStatusReport(id: int, u: ReportPatch) returns (r: Option<WeeklyStatusReport>)
      requires Valid()
      modifies this
      ensures Valid()
      ensures old(GetWeeklyStatusReport(id)).None? ==> r.None? && weeklyStatusReports == old(weeklyStatusReports)
      ensures old(GetWeeklyStatusReport(id)).Some? ==>
                r == Some(ApplyReportPatch(old(GetWeeklyStatusReport(id)).value, u))
                && weeklyStatusReports == SetById(old(weeklyStatusReports), ReportKey, r.value)
      ensures users == old(users) && projects == old(projects)
      ensures technicalReviews == old(technicalReviews) && llmConfigurations == old(llmConfigurations)
      ensures portfolioAnalyses == old(portfolioAnalyses) && currentId == old(currentId)
    {
      var existing := GetWeeklyStatusReport(id);
      if existing.None? {
        return None;
      }
      var updated := ApplyReportPatch(existing.value, u);
      SetByIdLookup(weeklyStatusReports, ReportKey, currentId, updated, id);
      weeklyStatusReports := SetById(weeklyStatusReports, ReportKey, updated);
      return Some(updated);
    }

    // ----- technical reviews

    function GetTechnicalReviews(projectId: Option<int>): seq<TechnicalReview>
      reads this
    {
      ReviewsOfProject(technicalReviews, projectId)
    }

    function GetTechnicalReview(id: int): Option<TechnicalReview>
      reads this
    {
      Lookup(technicalReviews, ReviewKey, id)
    }

    method CreateTechnicalReview(d: ReviewData, now: int) returns (r: TechnicalReview)
      requires Valid()
      modifies this
      ensures Valid()
      ensures r == TechnicalReview(old(currentId), now, d)
      ensures technicalReviews == old(technicalReviews) + [r] && currentId == old(currentId) + 1
      ensures users == old(users) && projects == old(projects)
      ensures weeklyStatusReports == old(weeklyStatusReports) && llmConfigurations == old(llmConfigurations)
      ensures portfolioAnalyses == old(portfolioAnalyses)
    {
      var id := currentId;
      currentId := currentId + 1;
      r := TechnicalReview(id, now, d);
      AppendIds(technicalReviews, ReviewKey, id, r);
      IdsBelowRaise(users, UserId, id);
      IdsBelowRaise(projects, ProjectKey, id);
      IdsBelowRaise(weeklyStatusReports, ReportKey, id);
      IdsBelowRaise(llmConfigurations, LlmKey, id);
      IdsBelowRaise(portfolioAnalyses, AnalysisKey, id);
      technicalReviews := technicalReviews + [r];
    }

    method UpdateTechnicalReview(id: int, u: ReviewPatch) returns (r: Option<TechnicalReview>)
      requires Valid()
      modifies this
      ensures Valid()
      ensures old(GetTechnicalReview(id)).None? ==> r.None? && technicalReviews == old(technicalReviews)
      ensures old(GetTechnicalReview(id)).Some? ==>
                r == Some(ApplyReviewPatch(old(GetTechnicalReview(id)).value, u))
                && technicalReviews == SetById(old(technicalReviews), ReviewKey, r.value)
      ensures users == old(users) && projects == old(projects)
      ensures weeklyStatusReports == old(weeklyStatusReports) && llmConfigurations == old(llmConfigurations)
      ensures portfolioAnalyses == old(portfolioAnalyses) && currentId == old(currentId)
    {
      var existing := GetTechnicalReview(id);
      if existing.None? {
        return None;
      }
      var updated := ApplyReviewPatch(existing.value, u);
      SetByIdLookup(technicalReviews, ReviewKey, currentId, updated, id);
      technicalReviews := SetById(technicalReviews, ReviewKey, updated);
      return Some(updated);
    }

    // ----- LLM configurations

    function GetLlmConfigurations(): seq<LlmConfiguration>
      reads this
    {
      llmConfigurations
    }

    /** `find(config => config.isActive)`. */
    function GetActiveLlmConfiguration(): (r: Option<LlmConfiguration>)
      reads this
      ensures r.Some? ==> r.value in llmConfigurations && r.value.isActive
      ensures r.None? <==> forall i :: 0 <= i < |llmConfigurations| ==> !llmConfigurations[i].isActive
    {
      Seqs.Find(llmConfigurations, IsActiveConfig)
    }

    method CreateLlmConfiguration(c: NewLlmConfiguration, now: int) returns (r: LlmConfiguration)
      requires Valid()
      modifies this
      ensures Valid()
      ensures r == LlmConfiguration(old(currentId), c.providerName, c.modelName, c.apiKey,
                                    c.isActive.GetOr(true), c.lastUpdatedBy, now)
      ensures llmConfigurations == old(llmConfigurations) + [r] && currentId == old(currentId) + 1
      ensures users == old(users) && projects == old(projects)
      ensures weeklyStatusReports == old(weeklyStatusReports) && technicalReviews == old(technicalReviews)
      ensures portfolioAnalyses == old(portfolioAnalyses)
    {
      var id := currentId;
      currentId := currentId + 1;
      r := LlmConfiguration(id, c.providerName, c.modelName, c.apiKey, c.isActive.GetOr(true), c.lastUpdatedBy, now);
      AppendIds(llmConfigurations, LlmKey, id, r);
      IdsBelowRaise(users, UserId, id);
      IdsBelowRaise(projects, ProjectKey, id);
      IdsBelowRaise(weeklyStatusReports, ReportKey, id);
      IdsBelowRaise(technicalReviews, ReviewKey, id);
      IdsBelowRaise(portfolioAnalyses, AnalysisKey, id);
      llmConfigurations := llmConfigurations + [r];
    }

    /** `updateLlmConfiguration`: the overlay, with `lastUpdatedDate` set to now. */
    method UpdateLlmConfiguration(id: int, u: LlmPatch, now: int) returns (r: Option<LlmConfiguration>)
      requires Valid()
      modifies this
      ensures Valid()
      ensures old(Lookup(llmConfigurations, LlmKey, id)).None? ==> r.None? && llmConfigurations == old(llmConfigurations)
      ensures old(Lookup(llmConfigurations, LlmKey, id)).Some? ==>
                r == Some(ApplyLlmPatch(old(Lookup(llmConfigurations, LlmKey, id)).value, u, now))
                && llmConfigurations == SetById(old(llmConfigurations), LlmKey, r.value)
      ensures users == old(users) && projects == old(projects)
      ensures weeklyStatusReports == old(weeklyStatusReports) && technicalReviews == old(technicalReviews)
      ensures portfolioAnalyses == old(portfolioAnalyses) && currentId == old(currentId)
    {
      var existing := Lookup(llmConfigurations, LlmKey, id);
      if existing.None? {
        return None;
      }
      var updated := ApplyLlmPatch(existing.value, u, now);
      SetByIdLookup(llmConfigurations, LlmKey, currentId, updated, id);
      llmConfigurations := SetById(llmConfigurations, LlmKey, updated);
      return Some(updated);
    }

    // ----- portfolio analyses

    function GetLatestPortfolioAnalysis(): Option<PortfolioAnalysis>
      reads this
    {
      LatestAnalysis(portfolioAnalyses)
    }

    function GetPortfolioAnalysisHistory(limit: Option<int>): seq<PortfolioAnalysis>
      reads this
    {
      AnalysisHistory(portfolioAnalyses, limit)
    }

    method CreatePortfolioAnalysis(a: NewPortfolioAnalysis, now: int) returns (r: PortfolioAnalysis)
      requires Valid()
      modifies this
      ensures Valid()
      ensures r == PortfolioAnalysis(old(currentId), now, a.overallPortfolioRagStatus, a.reason,
                                     a.projectsAnalyzed, a.llmConfigurationId)
      ensures portfolioAnalyses == old(portfolioAnalyses) + [r] && currentId == old(currentId) + 1
      ensures users == old(users) && projects == old(projects)
      ensures weeklyStatusReports == old(weeklyStatusReports) && technicalReviews == old(technicalReviews)
      ensures llmConfigurations == old(llmConfigurations)
    {
      var id := currentId;
      currentId := currentId + 1;
      r := PortfolioAnalysis(id, now, a.overallPortfolioRagStatus, a.reason, a.projectsAnalyzed, a.llmConfigurationId);
      AppendIds(portfolioAnalyses, AnalysisKey, id, r);
      IdsBelowRaise(users, UserId, id);
      IdsBelowRaise(projects, ProjectKey, id);
      IdsBelowRaise(weeklyStatusReports, ReportKey, id);
      IdsBelowRaise(technicalReviews, ReviewKey, id);
      IdsBelowRaise(llmConfigurations, LlmKey, id);
      portfolioAnalyses := portfolioAnalyses + [r];
    }

    // ----- Excel integration

    function GetAIAnalyzedReports(): seq<WeeklyStatusReport>
      reads this
    {
      AIAnalyzedReports(weeklyStatusReports)
    }

    /** Finds the project of the row by name (ignoring case, among all projects, inactive
        ones included) or creates it. */
    method ProjectForImport(d: ExcelParser.ExcelReportData, now: int, code: nat) returns (p: Project)
      requires Valid() && code < 1000
      modifies this
      ensures Valid()
      ensures Seqs.Find(old(projects), (q: Project) => SameName(q, d.projectName)).Some? ==>
                p == Seqs.Find(old(projects), (q: Project) => SameName(q, d.projectName)).value
                && projects == old(projects) && currentId == old(currentId)
      ensures Seqs.Find(old(projects), (q: Project) => SameName(q, d.projectName)).None? ==>
                p == Project(old(currentId), now, true, ImportedProject(d, now, code).data)
                && projects == old(projects) + [p] && currentId == old(currentId) + 1
      ensures Lookup(projects, ProjectKey, p.id) == Some(p)
      ensures users == old(users) && weeklyStatusReports == old(weeklyStatusReports)
      ensures technicalReviews == old(technicalReviews) && llmConfigurations == old(llmConfigurations)
      ensures portfolioAnalyses == old(portfolioAnalyses)
    {
      var found := Seqs.Find(projects, (q: Project) => SameName(q, d.projectName));
      if found.Some? {
        p := found.value;
        LookupStored(projects, ProjectKey, currentId, p);
      } else {
        AppendLookup(projects, ProjectKey, currentId, Project(currentId, now, true, ImportedProject(d, now, code).data), currentId);
        p := CreateProject(ImportedProject(d, now, code), now);
      }
    }

    /** The project part of the import: the stored project whose name matches, else one new
        project; either way the report's project is stored under that name. */
    twostate predicate ImportedProjectStored(d: ExcelParser.ExcelReportData, now: int, code: nat, projectId: int)
      requires code < 1000
      reads this
    {
      var found := Seqs.Find(old(projects), (q: Project) => SameName(q, d.projectName));
      (found.Some? ==> projectId == found.value.id && projects == old(projects))
      && (found.None? ==>
            projectId == old(currentId)
            && projects == old(projects) + [Project(old(currentId), now, true, ImportedProject(d, now, code).data)])
    }

    /** The report upsert of the import, as written: a same-week report of the payload's
        project submitted on the same day is overwritten with the payload and the summary
        fields; otherwise the payload is created as a new report whose AI fields
        `createWeeklyStatusReport` leaves empty. */
    method UpsertExcelReport(payload: ReportData, aiStatus: string, aiDescription: string, now: int)
      returns (r: WeeklyStatusReport)
      requires Valid()
      modifies this
      ensures Valid()
      ensures var prior := PriorReport(old(weeklyStatusReports), payload, now);
              (prior.Some? ==>
                 r == WeeklyStatusReport(prior.value.id, prior.value.createdAt,
                                         payload.(ragStatus := prior.value.data.ragStatus), aiStatus, aiDescription)
                 && weeklyStatusReports == SetById(old(weeklyStatusReports), ReportKey, r)
                 && currentId == old(currentId))
              && (prior.None? ==>
                    r == WeeklyStatusReport(old(currentId), now, payload, "", "")
                    && weeklyStatusReports == old(weeklyStatusReports) + [r]
                    && currentId == old(currentId) + 1)
      ensures Lookup(weeklyStatusReports, ReportKey, r.id) == Some(r)
      ensures users == old(users) && projects == old(projects) && technicalReviews == old(technicalReviews)
      ensures llmConfigurations == old(llmConfigurations) && portfolioAnalyses == old(portfolioAnalyses)
    {
      var existing := PriorReport(weeklyStatusReports, payload, now);
      if existing.Some? {
        var prior := existing.value;
        StoredReportFound(weeklyStatusReports, prior);
        PayloadPatchEffect(prior, payload, aiStatus, aiDescription);
        var updated := UpdateWeeklyStatusReport(prior.id, PayloadPatch(payload, aiStatus, aiDescription));
        r := updated.value;
        SetByIdLookup(old(weeklyStatusReports), ReportKey, currentId, r, r.id);
      } else {
        AppendLookup(weeklyStatusReports, ReportKey, currentId, WeeklyStatusReport(currentId, now, payload, "", ""), currentId);
        r := CreateWeeklyStatusReport(payload, now);
      }
    }

    /** The report upsert as evidently intended: a newly created report carries the summary
        fields too. */
    method UpsertExcelReportKeepingSummary(payload: ReportData, aiStatus: string, aiDescription: string, now: int)
      returns (r: WeeklyStatusReport)
      requires Valid()
      modifies this
      ensures Valid()
      ensures var prior := PriorReport(old(weeklyStatusReports), payload, now);
              (prior.Some? ==>
                 r == WeeklyStatusReport(prior.value.id, prior.value.createdAt,
                                         payload.(ragStatus := prior.value.data.ragStatus), aiStatus, aiDescription)
                 && weeklyStatusReports == SetById(old(weeklyStatusReports), ReportKey, r)
                 && currentId == old(currentId))
              && (prior.None? ==>
                    r == WeeklyStatusReport(old(currentId), now, payload, aiStatus, aiDescription)
                    && weeklyStatusReports == old(weeklyStatusReports) + [r]
                    && currentId == old(currentId) + 1)
      ensures Lookup(weeklyStatusReports, ReportKey, r.id) == Some(r)
      ensures users == old(users) && projects == old(projects) && technicalReviews == old(technicalReviews)
      ensures llmConfigurations == old(llmConfigurations) && portfolioAnalyses == old(portfolioAnalyses)
    {
      var existing := PriorReport(weeklyStatusReports, payload, now);
      if existing.Some? {
        var prior := existing.value;
        StoredReportFound(weeklyStatusReports, prior);
        PayloadPatchEffect(prior, payload, aiStatus, aiDescription);
        var updated := UpdateWeeklyStatusReport(prior.id, PayloadPatch(payload, aiStatus, aiDescription));
        r := updated.value;
        SetByIdLookup(old(weeklyStatusReports), ReportKey, currentId, r, r.id);
      } else {
        AppendLookup(weeklyStatusReports, ReportKey, currentId,
                     WeeklyStatusReport(currentId, now, payload, aiStatus, aiDescription), currentId);
        r := CreateAnalyzedWeeklyStatusReport(payload, aiStatus, aiDescription, now);
      }
    }

    /** `createOrUpdateWeeklyReportFromExcel`, as written: find or create the project, then
        upsert the report of this week and day, losing the summary when the report is new. */
    method CreateOrUpdateWeeklyReportFromExcel(d: ExcelParser.ExcelReportData,
                                               summary: OpenAIService.ProjectSummary, now: int, code: nat)
      returns (r: WeeklyStatusReport)
      requires Valid() && code < 1000
      modifies this
      ensures Valid()
      ensures ImportedProjectStored(d, now, code, r.data.projectId)
      ensures var payload := ImportPayload(r.data.projectId, d, now);
              var prior := PriorReport(old(weeklyStatusReports), payload, now);
              (prior.Some? ==>
                 r == WeeklyStatusReport(prior.value.id, prior.value.createdAt,
                                         payload.(ragStatus := prior.value.data.ragStatus),
                                         summary.overallHealth, summary.summary)
                 && weeklyStatusReports == SetById(old(weeklyStatusReports), ReportKey, r))
              && (prior.None? ==> r.data == payload && r.createdAt == now
                                  && r.aiStatus == "" && r.aiAssessmentDescription == ""
                                  && weeklyStatusReports == old(weeklyStatusReports) + [r])
      ensures users == old(users) && technicalReviews == old(technicalReviews)
      ensures llmConfigurations == old(llmConfigurations) && portfolioAnalyses == old(portfolioAnalyses)
    {
      var p := ProjectForImport(d, now, code);
      r := UpsertExcelReport(ImportPayload(p.id, d, now), summary.overallHealth, summary.summary, now);
    }

    /** The import as evidently intended: the same, but a new report keeps the summary. It is
        the corrected reading only; the Excel batch, like the program, calls the import as
        written. */
    method ImportWeeklyReportFromExcel(d: ExcelParser.ExcelReportData,
                                       summary: OpenAIService.ProjectSummary, now: int, code: nat)
      returns (r: WeeklyStatusReport)
      requires Valid() && code < 1000
      modifies this
      ensures Valid()
      ensures ImportedProjectStored(d, now, code, r.data.projectId)
      ensures var payload := ImportPayload(r.data.projectId, d, now);
              var prior := PriorReport(old(weeklyStatusReports), payload, now);
              (prior.Some? ==>
                 r == WeeklyStatusReport(prior.value.id, prior.value.createdAt,
                                         payload.(ragStatus := prior.value.data.ragStatus),
                                         summary.overallHealth, summary.summary)
                 && weeklyStatusReports == SetById(old(weeklyStatusReports), ReportKey, r))
              && (prior.None? ==> r.data == payload && r.createdAt == now
                                  && r.aiStatus == summary.overallHealth
                                  && r.aiAssessmentDescription == summary.summary
                                  && weeklyStatusReports == old(weeklyStatusReports) + [r])
      ensures users == old(users) && technicalReviews == old(technicalReviews)
      ensures llmConfigurations == old(llmConfigurations) && portfolioAnalyses == old(portfolioAnalyses)
    {
      var p := ProjectForImport(d, now, code);
      r := UpsertExcelReportKeepingSummary(ImportPayload(p.id, d, now), summary.overallHealth, summary.summary, now);
    }
  }

  /** The module-level `excelReportsData` array and its setter. */
  class ExcelReportsStore {
    var items: seq<ExcelParser.ExcelReportData>

    constructor()
      ensures items == []
    {
      items := [];
    }

    /** `length = 0; push(...data)`: the contents become exactly `data`. */
    method SetExcelReportsData(data: seq<ExcelParser.ExcelReportData>)
      modifies this
      ensures items == data
    {
      items := [];
      items := items + data;
    }
  }
}
