/** The list logic of the weekly reports page: the search, status, project and manager
    filters over the enriched reports, the newest-first order, and the filter panel's state
    with its toggles and its reset. */
module WeeklyReportsPage {
  import opened Outcomes
  import Js
  import Seqs
  import opened Schema

  /** A report as the list endpoint sends it: with its project and its submitter, when found. */
  datatype EnrichedReport = EnrichedReport(report: WeeklyStatusReport, project: Option<Project>, submittedBy: Option<User>)

  const All := "all"

  /** The page's filter state. */
  datatype ReportFilters = ReportFilters(
    searchTerm: string, statusFilter: string, projectFilter: string,
    selectedStatuses: seq<string>, selectedPMs: seq<string>)

  const Cleared := ReportFilters("", All, All, [], [])

  /** The search box: an empty term keeps everything; otherwise it must occur, ignoring case,
      in the project's name (a report without a project has none) or in the week's update. */
  predicate MatchesSearch(e: EnrichedReport, term: string) {
    term == ""
    || (e.project.Some? && Js.IncludesIgnoreCase(e.project.value.data.name, term))
    || Js.IncludesIgnoreCase(e.report.data.updateForCurrentWeek, term)
  }

  /** A non-empty status selection keeps the reports whose lower-cased current health is in it. */
  predicate MatchesStatus(e: EnrichedReport, selected: seq<string>) {
    |selected| == 0 || Js.LowerStr(e.report.data.healthCurrentWeek) in selected
  }

  /** The project select compares the project id, as a string, with the selection. */
  predicate MatchesProject(e: EnrichedReport, projectFilter: string) {
    projectFilter == All || Js.IntToString(e.report.data.projectId) == projectFilter
  }

  /** A non-empty manager selection keeps the reports whose submitter's name is in it; a
      report without a submitter counts as the name `""`. */
  function SubmitterName(e: EnrichedReport): string {
    if e.submittedBy.Some? then e.submittedBy.value.name else ""
  }

  predicate MatchesManager(e: EnrichedReport, pms: seq<string>) {
    |pms| == 0 || SubmitterName(e) in pms
  }

  /** The status select (`statusFilter`) takes no part in the filter. */
  predicate Keep(e: EnrichedReport, f: ReportFilters) {
    MatchesSearch(e, f.searchTerm) && MatchesStatus(e, f.selectedStatuses)
    && MatchesProject(e, f.projectFilter) && MatchesManager(e, f.selectedPMs)
  }

  function Keeps(f: ReportFilters): EnrichedReport -> bool {
    (e: EnrichedReport) => Keep(e, f)
  }

  /** `reports?.filter(...) || []`. */
  function FilteredReports(reports: Option<seq<EnrichedReport>>, f: ReportFilters): (r: seq<EnrichedReport>)
    ensures reports.None? ==> r == []
    ensures reports.Some? ==> forall e :: e in r <==> e in reports.value && Keep(e, f)
  {
    if reports.None? then [] else Seqs.Filter(reports.value, Keeps(f))
  }

  function CreatedAt(e: EnrichedReport): int { e.report.createdAt }

  /** `filteredReports.sort(newest first)`. */
  function SortedReports(reports: Option<seq<EnrichedReport>>, f: ReportFilters): seq<EnrichedReport> {
    Seqs.SortDesc(FilteredReports(reports, f), CreatedAt)
  }

  /** The list shown: exactly the reports the filters keep, each as often as it was fetched,
      newest first, and reports created at the same instant in the order they came. */
  lemma {:induction false} SortedReportsFacts(reports: seq<EnrichedReport>, f: ReportFilters, t: int)
    ensures var r := SortedReports(Some(reports), f);
            multiset(r) == multiset(Seqs.Filter(reports, Keeps(f)))
            && (forall e :: e in r <==> e in reports && Keep(e, f))
            && Seqs.SortedDesc(r, CreatedAt)
            && Seqs.WithKey(r, CreatedAt, t) == Seqs.WithKey(Seqs.Filter(reports, Keeps(f)), CreatedAt, t)
  {
    var r := SortedReports(Some(reports), f);
    var kept := Seqs.Filter(reports, Keeps(f));
    Seqs.SortDescSorted(kept, CreatedAt);
    Seqs.SortDescStable(kept, CreatedAt, t);
    forall e ensures e in r <==> e in reports && Keep(e, f) {
      assert e in r <==> e in multiset(r);
      assert e in kept <==> e in multiset(kept);
    }
  }

  /** With the filters cleared, every fetched report is listed. */
  lemma {:induction false} ClearedKeepsAll(reports: seq<EnrichedReport>)
    ensures FilteredReports(Some(reports), Cleared) == reports
  {
    Seqs.FilterAll(reports, Keeps(Cleared));
  }

  /** Selecting a status that was not selected lets every report with that health through
      the status filter. */
  lemma {:induction false} ToggledStatusPasses(e: EnrichedReport, selected: seq<string>)
    requires Js.LowerStr(e.report.data.healthCurrentWeek) !in selected
    ensures MatchesStatus(e, Seqs.Toggle(selected, Js.LowerStr(e.report.data.healthCurrentWeek)))
  {
  }

  /** The filter panel: the `useState` variables of the page's filters. */
  class ReportFilterPanel {
    var searchTerm: string
    var statusFilter: string
    var projectFilter: string
    var selectedStatuses: seq<string>
    var selectedPMs: seq<string>

    function Filters(): ReportFilters
      reads this
    {
      ReportFilters(searchTerm, statusFilter, projectFilter, selectedStatuses, selectedPMs)
    }

    /** Every selection holds each entry once. */
    ghost predicate Valid()
      reads this
    {
      Seqs.NoDuplicates(selectedStatuses) && Seqs.NoDuplicates(selectedPMs)
    }

    constructor()
      ensures Filters() == Cleared && Valid()
    {
      searchTerm, statusFilter, projectFilter := "", All, All;
      selectedStatuses, selectedPMs := [], [];
    }

    /** `setSearchTerm(e.target.value)`. */
    method SetSearchTerm(term: string)
      modifies this
      ensures Filters() == old(Filters()).(searchTerm := term)
      ensures Valid() <==> old(Valid())
    {
      searchTerm := term;
    }

    /** `setProjectFilter(value)`. */
    method SetProjectFilter(value: string)
      modifies this
      ensures Filters() == old(Filters()).(projectFilter := value)
      ensures Valid() <==> old(Valid())
    {
      projectFilter := value;
    }

    /** `toggleStatus`: drop the status if selected, add it at the end otherwise. */
    method ToggleStatus(status: string)
      requires Valid()
      modifies this
      ensures Valid()
      ensures Filters() == old(Filters()).(selectedStatuses := Seqs.Toggle(old(selectedStatuses), status))
      ensures status in selectedStatuses <==> status !in old(selectedStatuses)
    {
      Seqs.ToggleFlips(selectedStatuses, status);
      Seqs.ToggleKeepsDistinct(selectedStatuses, status);
      selectedStatuses := Seqs.Toggle(selectedStatuses, status);
    }

    /** `togglePM`: the same toggle on the manager selection. */
    method TogglePM(pm: string)
      requires Valid()
      modifies this
      ensures Valid()
      ensures Filters() == old(Filters()).(selectedPMs := Seqs.Toggle(old(selectedPMs), pm))
      ensures pm in selectedPMs <==> pm !in old(selectedPMs)
    {
      Seqs.ToggleFlips(selectedPMs, pm);
      Seqs.ToggleKeepsDistinct(selectedPMs, pm);
      selectedPMs := Seqs.Toggle(selectedPMs, pm);
    }

    /** `clearAllFilters`: the search, both selects and both selections back to their start. */
    method ClearAllFilters()
      modifies this
      ensures Filters() == Cleared && Valid()
    {
      searchTerm := "";
      statusFilter := All;
      projectFilter := All;
      selectedStatuses := [];
      selectedPMs := [];
    }
  }
}
