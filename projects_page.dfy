/** The list logic of the projects page: the latest report of a project, the search, status,
    importance, manager and escalation filters, and pagination by twelve with its window of
    page buttons. */
module ProjectsPage {
  import opened Outcomes
  import Js
  import Seqs
  import opened Schema
  import Storage

  // ---------------------------------------------------------------------------------------
  // The latest report of a project

  /** `weeklyReports.filter(r => r.projectId === id).sort(newest first)[0]`; `None` when the
      reports are not loaded or none belongs to the project. The sort is stable, so among
      reports created at the same instant the first stored wins. */
  function LatestReportForProject(rs: Option<seq<WeeklyStatusReport>>, projectId: int): Option<WeeklyStatusReport> {
    if rs.None? then None
    else Seqs.First(Seqs.SortDesc(Seqs.Filter(rs.value, Storage.OfProject(projectId)), Storage.CreatedAtOf))
  }

  /** The report found belongs to the project and no report of the project is newer; `None`
      exactly when there is none. */
  lemma {:induction false} LatestReportForProjectFacts(rs: seq<WeeklyStatusReport>, projectId: int)
    ensures (LatestReportForProject(Some(rs), projectId).None?)
              <==> (forall i :: 0 <= i < |rs| ==> rs[i].data.projectId != projectId)
    ensures LatestReportForProject(Some(rs), projectId).Some? ==>
              var r := LatestReportForProject(Some(rs), projectId).value;
              r in rs && r.data.projectId == projectId
              && (forall x :: x in rs && x.data.projectId == projectId ==> x.createdAt <= r.createdAt)
    ensures LatestReportForProject(None, projectId).None?
  {
    var own := Seqs.Filter(rs, Storage.OfProject(projectId));
    if |own| > 0 {
      Seqs.SortDescFirst(own, Storage.CreatedAtOf);
      var r := Seqs.SortDesc(own, Storage.CreatedAtOf)[0];
      assert r in own;
      forall x | x in rs && x.data.projectId == projectId
        ensures x.createdAt <= r.createdAt
      {
        assert x in own;
      }
    } else {
      assert forall i :: 0 <= i < |rs| ==> rs[i] in rs;
    }
  }

  /** Among the project's reports of the latest instant, the first stored is the one found:
      no earlier stored report of the project is as new. */
  lemma {:induction false} LatestReportFirstStored(rs: seq<WeeklyStatusReport>, projectId: int)
    ensures LatestReportForProject(Some(rs), projectId).Some? ==>
              exists i :: 0 <= i < |rs| && rs[i] == LatestReportForProject(Some(rs), projectId).value
                && forall j :: 0 <= j < i && rs[j].data.projectId == projectId ==> rs[j].createdAt < rs[i].createdAt
  {
    if |Seqs.Filter(rs, Storage.OfProject(projectId))| > 0 {
      Seqs.SortDescFilterHead(rs, Storage.OfProject(projectId), Storage.CreatedAtOf);
    }
  }

  // ---------------------------------------------------------------------------------------
  // Filters

  /** The page's filter state; "all" switches a select filter off. */
  datatype ProjectFilters = ProjectFilters(
    searchTerm: string, statusFilter: string, importanceFilter: string,
    managerFilter: string, escalationFilter: string)

  const All := "all"
  const Escalated := "escalated"
  const NotEscalated := "not_escalated"

  /** The search box: an empty term keeps everything; otherwise the term must occur, ignoring
      case, in the name, the customer or the code. */
  predicate MatchesSearch(p: Project, term: string) {
    term == "" || Js.IncludesIgnoreCase(p.data.name, term) || Js.IncludesIgnoreCase(p.data.customer, term)
    || Js.IncludesIgnoreCase(p.data.codeId, term)
  }

  /** The select filters compare the lower-cased project field with the selection. */
  predicate MatchesSelects(p: Project, f: ProjectFilters) {
    (f.statusFilter == All || Js.LowerStr(p.data.ragStatus) == f.statusFilter)
    && (f.importanceFilter == All || Js.LowerStr(p.data.projectImportance) == f.importanceFilter)
    && (f.managerFilter == All
        || (p.data.projectManagerId.Some? && Js.IntToString(p.data.projectManagerId.value) == f.managerFilter))
  }

  /** "escalated" keeps projects whose latest report carries an escalation text,
      "not_escalated" the others; any other value keeps everything. */
  predicate MatchesEscalation(latest: Option<WeeklyStatusReport>, escalationFilter: string) {
    var escalated := latest.Some? && latest.value.data.clientEscalation != "";
    (escalationFilter == Escalated ==> escalated) && (escalationFilter == NotEscalated ==> !escalated)
  }

  predicate Keep(p: Project, rs: Option<seq<WeeklyStatusReport>>, f: ProjectFilters) {
    MatchesSearch(p, f.searchTerm) && MatchesSelects(p, f)
    && MatchesEscalation(LatestReportForProject(rs, p.id), f.escalationFilter)
  }

  /** `projects?.filter(...) || []`. */
  function FilteredProjects(ps: Option<seq<Project>>, rs: Option<seq<WeeklyStatusReport>>, f: ProjectFilters)
    : (r: seq<Project>)
    ensures ps.None? ==> r == []
    ensures ps.Some? ==> forall p :: p in r <==> p in ps.value && Keep(p, rs, f)
  {
    if ps.None? then [] else Seqs.Filter(ps.value, (p: Project) => Keep(p, rs, f))
  }

  /** Filtering keeps the projects' relative order: filtering two lists one after the other
      gives the two results one after the other. */
  lemma {:induction false} FilteredProjectsOrder(a: seq<Project>, b: seq<Project>, rs: Option<seq<WeeklyStatusReport>>,
                                                 f: ProjectFilters)
    ensures FilteredProjects(Some(a + b), rs, f) == FilteredProjects(Some(a), rs, f) + FilteredProjects(Some(b), rs, f)
  {
    Seqs.FilterAppend(a, b, (p: Project) => Keep(p, rs, f));
  }

  /** With every filter at its default, the whole list is shown. */
  lemma {:induction false} DefaultFiltersKeepAll(ps: seq<Project>, rs: Option<seq<WeeklyStatusReport>>)
    ensures FilteredProjects(Some(ps), rs, ProjectFilters("", All, All, All, All)) == ps
  {
    Seqs.FilterAll(ps, (p: Project) => Keep(p, rs, ProjectFilters("", All, All, All, All)));
  }

  // ---------------------------------------------------------------------------------------
  // Pagination

  const ItemsPerPage := 12

  /** `Math.ceil(n / 12)`. */
  function TotalPages(n: nat): (t: nat)
    ensures t * ItemsPerPage >= n
    ensures t > 0 ==> (t - 1) * ItemsPerPage < n
    ensures t == 0 <==> n == 0
  {
    (n + ItemsPerPage - 1) / ItemsPerPage
  }

  /** `filtered.slice((page - 1) * 12, (page - 1) * 12 + 12)`. */
  function PageItems<T>(items: seq<T>, page: int): (r: seq<T>)
    ensures page >= 1 ==>
              var start := (page - 1) * ItemsPerPage;
              r == if start >= |items| then [] else items[start..if start + ItemsPerPage <= |items| then start + ItemsPerPage else |items|]
    ensures |r| <= ItemsPerPage
  {
    var start := (page - 1) * ItemsPerPage;
    Js.Slice(items, start, start + ItemsPerPage)
  }

  /** Every item appears on exactly one page from 1 to the page count. */
  lemma {:induction false} ItemOnOnePage<T>(items: seq<T>, k: nat)
    requires k < |items|
    ensures var page := k / ItemsPerPage + 1;
            1 <= page <= TotalPages(|items|) && PageItems(items, page)[k % ItemsPerPage] == items[k]
  {
  }

  /** A page button and whether an ellipsis is drawn before it. */
  datatype PageButton = PageButton(page: int, ellipsisBefore: bool)

  /** The pages that get a button: the first, the last, and those within two of the current. */
  predicate Visible(page: int, totalPages: int, current: int) {
    page == 1 || page == totalPages || (current - 2 <= page && page <= current + 2)
  }

  predicate Ascending(s: seq<int>) {
    forall i, j :: 0 <= i < j < |s| ==> s[i] < s[j]
  }

  /** `Array.from({length: totalPages}, (_, i) => i + 1).filter(...)` restricted to the pages
      up to `k`: exactly the visible pages among `1..k`, in ascending order. */
  function VisibleUpTo(k: nat, totalPages: nat, current: int): (r: seq<int>)
    ensures forall page :: page in r <==> 1 <= page <= k && Visible(page, totalPages, current)
    ensures forall i :: 0 <= i < |r| ==> 1 <= r[i] <= k
    ensures Ascending(r)
  {
    if k == 0 then []
    else
      var r := VisibleUpTo(k - 1, totalPages, current) + (if Visible(k, totalPages, current) then [k] else []);
      assert forall i :: 0 <= i < |r| - 1 ==> r[i] == VisibleUpTo(k - 1, totalPages, current)[i];
      r
  }

  function VisiblePages(totalPages: nat, current: int): seq<int> {
    VisibleUpTo(totalPages, totalPages, current)
  }

  /** The buttons in ascending page order, each with an ellipsis when the previous visible
      page is more than one below it. */
  function PageButtons(totalPages: nat, current: int): (r: seq<PageButton>)
    ensures |r| == |VisiblePages(totalPages, current)|
    ensures forall i :: 0 <= i < |r| ==> r[i].page == VisiblePages(totalPages, current)[i]
  {
    var pages := VisiblePages(totalPages, current);
    seq(|pages|, i requires 0 <= i < |pages| => PageButton(pages[i], i > 0 && pages[i] - pages[i - 1] > 1))
  }

  /** The buttons are exactly the visible pages from 1 to the page count, in ascending order. */
  lemma {:induction false} PageButtonsCover(totalPages: nat, current: int)
    ensures var r := PageButtons(totalPages, current);
            forall page :: (exists i :: 0 <= i < |r| && r[i].page == page)
                           <==> 1 <= page <= totalPages && Visible(page, totalPages, current)
    ensures var r := PageButtons(totalPages, current);
            forall i, j :: 0 <= i < j < |r| ==> r[i].page < r[j].page
  {
    var pages := VisiblePages(totalPages, current);
    var r := PageButtons(totalPages, current);
    forall page ensures (exists i :: 0 <= i < |r| && r[i].page == page)
                        <==> 1 <= page <= totalPages && Visible(page, totalPages, current)
    {
      if page in pages {
        var i :| 0 <= i < |pages| && pages[i] == page;
        assert r[i].page == page;
      }
      if exists i :: 0 <= i < |r| && r[i].page == page {
        var i :| 0 <= i < |r| && r[i].page == page;
        assert pages[i] in pages;
      }
    }
  }

  /** An ellipsis precedes exactly the buttons that follow a gap of more than one page. */
  lemma {:induction false} PageButtonsEllipsis(totalPages: nat, current: int, i: nat)
    requires i < |PageButtons(totalPages, current)|
    ensures var r := PageButtons(totalPages, current);
            r[i].ellipsisBefore <==> i > 0 && r[i].page - r[i - 1].page > 1
  {
  }

  /** Previous and Next: `Math.max(1, page - 1)` and `Math.min(totalPages, page + 1)`. */
  function PreviousPage(current: int): int {
    if current - 1 > 1 then current - 1 else 1
  }

  function NextPage(current: int, totalPages: int): int {
    if current + 1 < totalPages then current + 1 else totalPages
  }

  /** From a page within range, Previous and Next stay within range and move by at most one. */
  lemma {:induction false} PagingStaysInRange(current: int, totalPages: int)
    requires 1 <= current <= totalPages
    ensures 1 <= PreviousPage(current) <= current && PreviousPage(current) >= current - 1
    ensures current <= NextPage(current, totalPages) <= totalPages && NextPage(current, totalPages) <= current + 1
    ensures PreviousPage(current) == current <==> current == 1
    ensures NextPage(current, totalPages) == current <==> current == totalPages
  {
  }
}
