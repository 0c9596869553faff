/** The dashboard page's own list logic. The page works on a fixed list of projects and one
    simulated report per project; over those it filters by search, status and importance and
    picks at most six priority projects. */
module DashboardPage {
  import opened Outcomes
  import Js
  import Seqs

  /** A project of the page's fixed list. */
  datatype CardProject = CardProject(
    id: int, name: string, pm: string, customer: string,
    ragStatus: string, projectImportance: string, clientEscalation: bool)

  /** A simulated report: copied from its project, created when the page is drawn. */
  datatype SimReport = SimReport(
    id: int, projectId: int, ragStatus: string, projectImportance: string,
    clientEscalation: bool, createdAt: int)

  /** `projects.map((p, idx) => ({id: idx + 1, projectId: p.id, ...}))`. */
  function SimulatedReports(ps: seq<CardProject>, now: int): (rs: seq<SimReport>)
    ensures |rs| == |ps|
    ensures forall i :: 0 <= i < |ps| ==>
              rs[i] == SimReport(i + 1, ps[i].id, ps[i].ragStatus, ps[i].projectImportance, ps[i].clientEscalation, now)
  {
    seq(|ps|, (i: int) requires 0 <= i < |ps| =>
      SimReport(i + 1, ps[i].id, ps[i].ragStatus, ps[i].projectImportance, ps[i].clientEscalation, now))
  }

  function ReportOf(projectId: int): SimReport -> bool {
    (r: SimReport) => r.projectId == projectId
  }

  /** `weeklyReports.find(r => r.projectId === projectId)`: the first report of the project. */
  function LatestReportFor(rs: seq<SimReport>, projectId: int): Option<SimReport> {
    Seqs.Find(rs, ReportOf(projectId))
  }

  /** The report found is the first of the project's reports; `None` when it has none. */
  lemma {:induction false} LatestReportForFacts(rs: seq<SimReport>, projectId: int)
    ensures LatestReportFor(rs, projectId).None? <==> forall i :: 0 <= i < |rs| ==> rs[i].projectId != projectId
    ensures LatestReportFor(rs, projectId).Some? ==>
              exists i :: 0 <= i < |rs| && rs[i] == LatestReportFor(rs, projectId).value && rs[i].projectId == projectId
                          && forall j :: 0 <= j < i ==> rs[j].projectId != projectId
  {
  }

  /** With the simulated reports, each project's report is the one copied from it, provided
      no earlier project shares its id. */
  lemma {:induction false} SimulatedReportOfProject(ps: seq<CardProject>, now: int, k: nat)
    requires k < |ps| && forall j :: 0 <= j < k ==> ps[j].id != ps[k].id
    ensures LatestReportFor(SimulatedReports(ps, now), ps[k].id)
            == Some(SimReport(k + 1, ps[k].id, ps[k].ragStatus, ps[k].projectImportance, ps[k].clientEscalation, now))
  {
    var rs := SimulatedReports(ps, now);
    var r := LatestReportFor(rs, ps[k].id);
    assert rs[k].projectId == ps[k].id;
    var i :| 0 <= i < |rs| && rs[i] == r.value && rs[i].projectId == ps[k].id
             && forall j :: 0 <= j < i ==> rs[j].projectId != ps[k].id;
    assert i == k;
  }

  // ---------------------------------------------------------------------------------------
  // filteredProjects

  const All := "all"

  /** An empty query keeps everything; otherwise the name or the customer must contain it,
      ignoring case. */
  predicate MatchesSearch(p: CardProject, query: string) {
    query == "" || Js.IncludesIgnoreCase(p.name, query) || Js.IncludesIgnoreCase(p.customer, query)
  }

  /** Unless "all", a select filter needs the project's report and compares its lower-cased
      field with the selection. */
  predicate MatchesSelects(latest: Option<SimReport>, statusFilter: string, importanceFilter: string) {
    (statusFilter == All || (latest.Some? && Js.LowerStr(latest.value.ragStatus) == statusFilter))
    && (importanceFilter == All || (latest.Some? && Js.LowerStr(latest.value.projectImportance) == importanceFilter))
  }

  predicate Keep(p: CardProject, rs: seq<SimReport>, query: string, statusFilter: string, importanceFilter: string) {
    MatchesSearch(p, query) && MatchesSelects(LatestReportFor(rs, p.id), statusFilter, importanceFilter)
  }

  function FilteredProjects(ps: seq<CardProject>, rs: seq<SimReport>, query: string, statusFilter: string,
                            importanceFilter: string): (r: seq<CardProject>)
    ensures forall p :: p in r <==> p in ps && Keep(p, rs, query, statusFilter, importanceFilter)
  {
    Seqs.Filter(ps, (p: CardProject) => Keep(p, rs, query, statusFilter, importanceFilter))
  }

  /** A project without a report passes only when both select filters are "all". */
  lemma {:induction false} NoReportNeedsAll(p: CardProject, rs: seq<SimReport>, query: string,
                                           statusFilter: string, importanceFilter: string)
    requires forall i :: 0 <= i < |rs| ==> rs[i].projectId != p.id
    ensures Keep(p, rs, query, statusFilter, importanceFilter)
            <==> MatchesSearch(p, query) && statusFilter == All && importanceFilter == All
  {
    LatestReportForFacts(rs, p.id);
  }

  // ---------------------------------------------------------------------------------------
  // getDashboardProjects

  datatype WithReport = WithReport(project: CardProject, latestReport: Option<SimReport>)

  /** Red beats escalation beats high importance; 0 for a project that is none of these. */
  function Priority(w: WithReport): int {
    if w.latestReport.None? then 0
    else if w.latestReport.value.ragStatus == "Red" then 3
    else if w.latestReport.value.clientEscalation then 2
    else if w.latestReport.value.projectImportance == "High" then 1
    else 0
  }

  /** A project qualifies when its report exists and is red, escalated or of high importance. */
  predicate Qualifies(w: WithReport) {
    w.latestReport.Some?
    && (w.latestReport.value.ragStatus == "Red" || w.latestReport.value.clientEscalation
        || w.latestReport.value.projectImportance == "High")
  }

  function Attach(rs: seq<SimReport>): CardProject -> WithReport {
    (p: CardProject) => WithReport(p, LatestReportFor(rs, p.id))
  }

  function QualifiesFn(): WithReport -> bool {
    (w: WithReport) => Qualifies(w)
  }

  function Candidates(ps: seq<CardProject>, rs: seq<SimReport>): seq<WithReport> {
    Seqs.Filter(Seqs.Map(ps, Attach(rs)), QualifiesFn())
  }

  const MaxPriorityProjects := 6

  /** The candidates ordered by priority, highest first, ties in list order. */
  function Ranked(ps: seq<CardProject>, rs: seq<SimReport>): seq<WithReport> {
    Seqs.SortDesc(Candidates(ps, rs), Priority)
  }

  /** `map`, `filter`, stable `sort` by priority, `slice(0, 6)`. */
  function DashboardProjects(ps: seq<CardProject>, rs: seq<SimReport>): seq<WithReport> {
    Js.Slice(Ranked(ps, rs), 0, MaxPriorityProjects)
  }

  /** A qualifying project has priority at least 1, and only those do. */
  lemma {:induction false} QualifiesIffPriority(w: WithReport)
    ensures Qualifies(w) <==> Priority(w) >= 1
  {
  }

  /** The page shows the first six ranked candidates, or all of them when there are fewer. */
  lemma {:induction false} DashboardProjectsPrefix(ps: seq<CardProject>, rs: seq<SimReport>)
    ensures |DashboardProjects(ps, rs)| <= MaxPriorityProjects
    ensures |DashboardProjects(ps, rs)| == if |Candidates(ps, rs)| < MaxPriorityProjects then |Candidates(ps, rs)| else MaxPriorityProjects
    ensures DashboardProjects(ps, rs) == Ranked(ps, rs)[..|DashboardProjects(ps, rs)|]
  {
    Js.SliceFromStart(Ranked(ps, rs), MaxPriorityProjects);
  }

  /** The ranking holds the candidates and nothing else. */
  lemma {:induction false} RankedMembers(ps: seq<CardProject>, rs: seq<SimReport>)
    ensures forall w :: w in Ranked(ps, rs) <==> w in Candidates(ps, rs)
  {
    var c := Candidates(ps, rs);
    var sorted := Ranked(ps, rs);
    forall w ensures w in sorted <==> w in c {
      assert w in sorted <==> w in multiset(sorted);
      assert w in c <==> w in multiset(c);
    }
  }

  /** Every project shown is one of the page's projects, with its report, and qualifies. */
  lemma {:induction false} DashboardProjectsQualify(ps: seq<CardProject>, rs: seq<SimReport>)
    ensures forall w :: w in DashboardProjects(ps, rs) ==>
              Qualifies(w) && w.project in ps && w.latestReport == LatestReportFor(rs, w.project.id)
  {
    DashboardProjectsPrefix(ps, rs);
    RankedMembers(ps, rs);
    var m := Seqs.Map(ps, Attach(rs));
    forall w | w in DashboardProjects(ps, rs)
      ensures Qualifies(w) && w.project in ps && w.latestReport == LatestReportFor(rs, w.project.id)
    {
      assert w in Ranked(ps, rs);
      assert w in m;
      var i :| 0 <= i < |m| && m[i] == w;
      assert w == WithReport(ps[i], LatestReportFor(rs, ps[i].id));
    }
  }

  /** The projects shown are ordered by priority, highest first. */
  lemma {:induction false} DashboardProjectsSorted(ps: seq<CardProject>, rs: seq<SimReport>)
    ensures Seqs.SortedDesc(DashboardProjects(ps, rs), Priority)
  {
    DashboardProjectsPrefix(ps, rs);
    Seqs.SortDescSorted(Candidates(ps, rs), Priority);
  }

  /** A qualifying project left out has no higher priority than any project shown. */
  lemma {:induction false} DashboardProjectsTop(ps: seq<CardProject>, rs: seq<SimReport>, w: WithReport, v: WithReport)
    requires w in Candidates(ps, rs) && w !in DashboardProjects(ps, rs) && v in DashboardProjects(ps, rs)
    ensures Priority(w) <= Priority(v)
  {
    var sorted := Ranked(ps, rs);
    var r := DashboardProjects(ps, rs);
    DashboardProjectsPrefix(ps, rs);
    RankedMembers(ps, rs);
    Seqs.SortDescSorted(Candidates(ps, rs), Priority);
    var j :| 0 <= j < |sorted| && sorted[j] == w;
    var i :| 0 <= i < |r| && r[i] == v;
    assert sorted[i] == v;
    assert j >= |r|;
  }

  /** The projects of one priority that are shown are the first candidates of that priority,
      in list order; with six candidates or fewer they are all of them. */
  lemma {:induction false} DashboardProjectsStable(ps: seq<CardProject>, rs: seq<SimReport>, k: int)
    ensures var shown := Seqs.WithKey(DashboardProjects(ps, rs), Priority, k);
            var all := Seqs.WithKey(Candidates(ps, rs), Priority, k);
            |shown| <= |all| && shown == all[..|shown|]
    ensures |Candidates(ps, rs)| <= MaxPriorityProjects
            ==> Seqs.WithKey(DashboardProjects(ps, rs), Priority, k) == Seqs.WithKey(Candidates(ps, rs), Priority, k)
  {
    DashboardProjectsPrefix(ps, rs);
    Seqs.SortDescPrefixStable(Candidates(ps, rs), Priority, |DashboardProjects(ps, rs)|, k, DashboardProjects(ps, rs));
  }

  // ---------------------------------------------------------------------------------------
  // The page's fixed data

  /** The page's ten projects. */
  const StaticProjects: seq<CardProject> := [
    CardProject(1, "KAV", "Vijo Jacob", "KAV", "Red", "High", true),
    CardProject(2, "BOSCH", "Rajeev Kallumpurath", "BOSCH", "Amber", "Medium", false),
    CardProject(3, "Ashwathy Project", "Ashwathy Nair", "Ashwathy Customer", "Amber", "Medium", false),
    CardProject(4, "Srinivasan Project", "Srinivasan K R", "Srinivasan Customer", "Amber", "Medium", false),
    CardProject(5, "Project X", "Rajakrishnan S", "X Customer", "Green", "Low", false),
    CardProject(6, "Project Y", "Yamunaa Rani", "Y Customer", "Green", "Low", false),
    CardProject(7, "Project Z", "Amitha M N", "Z Customer", "Green", "Low", false),
    CardProject(8, "Prakash Project", "Prakash S", "Prakash Customer", "Green", "Low", false),
    CardProject(9, "Umesh Project", "Umesh Choudhary", "Umesh Customer", "Green", "Low", false),
    CardProject(10, "Shanavaz Project", "Shanavaz", "Shanavaz Customer", "Green", "Low", false)
  ]

  /** The ids run from 1, and only the first project is red, escalated or of high importance. */
  lemma StaticData()
    ensures forall i :: 0 <= i < |StaticProjects| ==> StaticProjects[i].id == i + 1
    ensures forall i :: 1 <= i < |StaticProjects| ==>
              StaticProjects[i].ragStatus != "Red" && !StaticProjects[i].clientEscalation
              && StaticProjects[i].projectImportance != "High"
  {
  }

  /** Apart from KAV, no project of the fixed data qualifies with its simulated report. */
  lemma {:induction false} StaticOthersRejected(now: int)
    ensures forall k :: 1 <= k < |StaticProjects| ==>
              !Qualifies(Seqs.Map(StaticProjects, Attach(SimulatedReports(StaticProjects, now)))[k])
  {
    var ps := StaticProjects;
    var rs := SimulatedReports(ps, now);
    var m := Seqs.Map(ps, Attach(rs));
    StaticData();
    forall k | 1 <= k < |ps| ensures !Qualifies(m[k]) {
      SimulatedReportOfProject(ps, now, k);
    }
  }

  /** A list whose first entry alone qualifies filters down to that entry. */
  lemma {:induction false} OnlyHeadQualifies(m: seq<WithReport>)
    requires |m| > 0 && Qualifies(m[0])
    requires forall k :: 1 <= k < |m| ==> !Qualifies(m[k])
    ensures Seqs.Filter(m, QualifiesFn()) == [m[0]]
  {
    var tail := m[1..];
    forall k | 0 <= k < |tail| ensures !QualifiesFn()(tail[k]) {
      assert tail[k] == m[k + 1];
    }
    Seqs.FilterNone(tail, QualifiesFn());
    assert [m[0]][..0] == [];
    assert Seqs.Filter([m[0]], QualifiesFn()) == [m[0]];
    Seqs.FilterAppend([m[0]], tail, QualifiesFn());
    assert m == [m[0]] + tail;
  }

  /** On its fixed data KAV is the one candidate. */
  lemma {:induction false} StaticCandidates(now: int)
    ensures Candidates(StaticProjects, SimulatedReports(StaticProjects, now))
            == [WithReport(StaticProjects[0], Some(SimReport(1, 1, "Red", "High", true, now)))]
  {
    var ps := StaticProjects;
    var m := Seqs.Map(ps, Attach(SimulatedReports(ps, now)));
    SimulatedReportOfProject(ps, now, 0);
    StaticOthersRejected(now);
    OnlyHeadQualifies(m);
  }

  /** On its fixed data the page shows one priority project: KAV, with its own report. */
  lemma {:induction false} StaticDashboard(now: int)
    ensures DashboardProjects(StaticProjects, SimulatedReports(StaticProjects, now))
            == [WithReport(StaticProjects[0], Some(SimReport(1, 1, "Red", "High", true, now)))]
  {
    var w := WithReport(StaticProjects[0], Some(SimReport(1, 1, "Red", "High", true, now)));
    StaticCandidates(now);
    assert Ranked(StaticProjects, SimulatedReports(StaticProjects, now)) == [w];
    Js.SliceFromStart([w], MaxPriorityProjects);
  }
}
