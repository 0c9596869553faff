/** The weekly trend panel of the dashboard: eight weeks of report counts, each report counted
    under the current status of its project, and the summary totals over the eight weeks. */
module AnalyticsOverview {
  import opened Outcomes
  import Js
  import Seqs
  import opened Schema
  import Analytics

  datatype Tally = Tally(green: nat, amber: nat, red: nat)

  datatype TrendPoint = TrendPoint(week: string, counts: Tally)

  function HasId(id: int): Project -> bool {
    (p: Project) => p.id == id
  }

  /** `projects.find(p => p.id === report.projectId)`, then its status if it has one. */
  function ProjectStatus(ps: seq<Project>, report: WeeklyStatusReport): (r: Option<string>)
    ensures r.Some? ==> r.value != ""
                        && exists i :: 0 <= i < |ps| && ps[i].id == report.data.projectId && ps[i].data.ragStatus == r.value
    ensures (forall i :: 0 <= i < |ps| ==> ps[i].id != report.data.projectId) ==> r.None?
  {
    var p := Seqs.Find(ps, HasId(report.data.projectId));
    if p.Some? && p.value.data.ragStatus != "" then Some(p.value.data.ragStatus) else None
  }

  /** The report falls in the week starting at `start` and its project's status is `colour`. */
  predicate Counted(ps: seq<Project>, x: WeeklyStatusReport, start: int, colour: string) {
    Analytics.InWeek(x.createdAt, start) && ProjectStatus(ps, x) == Some(colour)
  }

  function TrendCount(ps: seq<Project>, rs: seq<WeeklyStatusReport>, start: int, colour: string): nat {
    if |rs| == 0 then 0
    else TrendCount(ps, rs[..|rs| - 1], start, colour) + (if Counted(ps, rs[|rs| - 1], start, colour) then 1 else 0)
  }

  function WeekTally(ps: seq<Project>, rs: seq<WeeklyStatusReport>, start: int): Tally {
    Tally(TrendCount(ps, rs, start, "Green"), TrendCount(ps, rs, start, "Amber"), TrendCount(ps, rs, start, "Red"))
  }

  /** The point labelled `W(k + 1)`, for the week `7 - k` weeks back. */
  function TrendWeek(ps: seq<Project>, rs: seq<WeeklyStatusReport>, now: int, k: nat): TrendPoint {
    TrendPoint("W" + Js.NatToString(k + 1), WeekTally(ps, rs, Analytics.WeekStart(now, 7 - k)))
  }

  /** The `forEach` over one week's reports. */
  method CountTrendWeek(ps: seq<Project>, rs: seq<WeeklyStatusReport>, start: int) returns (t: Tally)
    ensures t == WeekTally(ps, rs, start)
  {
    var g, a, r := 0, 0, 0;
    var j := 0;
    while j < |rs|
      invariant 0 <= j <= |rs|
      invariant g == TrendCount(ps, rs[..j], start, "Green")
      invariant a == TrendCount(ps, rs[..j], start, "Amber")
      invariant r == TrendCount(ps, rs[..j], start, "Red")
    {
      assert rs[..j + 1][..j] == rs[..j];
      var report := rs[j];
      if Analytics.InWeek(report.createdAt, start) {
        var status := ProjectStatus(ps, report);
        g := g + (if status == Some("Green") then 1 else 0);
        a := a + (if status == Some("Amber") then 1 else 0);
        r := r + (if status == Some("Red") then 1 else 0);
      }
      j := j + 1;
    }
    assert rs[..|rs|] == rs;
    t := Tally(g, a, r);
  }

  /** `for (let i = 7; i >= 0; i--)`: eight points, oldest first; nothing until both lists
      are loaded. */
  method WeeklyTrend(projects: Option<seq<Project>>, reports: Option<seq<WeeklyStatusReport>>, now: int)
    returns (points: seq<TrendPoint>)
    ensures projects.None? || reports.None? ==> points == []
    ensures projects.Some? && reports.Some? ==>
              |points| == 8 && forall k :: 0 <= k < 8 ==> points[k] == TrendWeek(projects.value, reports.value, now, k)
  {
    if projects.None? || reports.None? {
      return [];
    }
    var ps, rs := projects.value, reports.value;
    points := [];
    var i := 7;
    while i >= 0
      invariant -1 <= i <= 7
      invariant |points| == 7 - i
      invariant forall k :: 0 <= k < |points| ==> points[k] == TrendWeek(ps, rs, now, k)
    {
      var start := Analytics.WeekStart(now, i);
      var t := CountTrendWeek(ps, rs, start);
      TrendWeekOf(ps, rs, now, i, t);
      points := points + [TrendPoint("W" + Js.NatToString(8 - i), t)];
      i := i - 1;
    }
  }

  lemma {:induction false} TrendWeekOf(ps: seq<Project>, rs: seq<WeeklyStatusReport>, now: int, i: nat, t: Tally)
    requires i <= 7 && t == WeekTally(ps, rs, Analytics.WeekStart(now, i))
    ensures TrendPoint("W" + Js.NatToString(8 - i), t) == TrendWeek(ps, rs, now, 7 - i)
  {
    assert 7 - (7 - i) == i && (7 - i) + 1 == 8 - i;
  }

  // ---------------------------------------------------------------------------------------
  // The summary

  function Add(a: Tally, b: Tally): Tally {
    Tally(a.green + b.green, a.amber + b.amber, a.red + b.red)
  }

  /** `trendData.reduce((acc, week) => acc + week, {Green: 0, Amber: 0, Red: 0})`. */
  function Summary(points: seq<TrendPoint>): Tally {
    if |points| == 0 then Tally(0, 0, 0) else Add(Summary(points[..|points| - 1]), points[|points| - 1].counts)
  }

  function Pick(t: Tally, colour: string): nat {
    if colour == "Green" then t.green else if colour == "Amber" then t.amber else t.red
  }

  /** The eight weeks together: from the start of the week seven weeks back to the end of the
      current one. */
  predicate InWindow(t: int, now: int) {
    Analytics.WeekStart(now, 7) <= t <= Analytics.WeekStart(now, 0) + Analytics.WeekMs - 1
  }

  /** The reports in the eight weeks whose project has status `colour`. */
  function WindowCount(ps: seq<Project>, rs: seq<WeeklyStatusReport>, now: int, colour: string): nat {
    if |rs| == 0 then 0
    else
      var x := rs[|rs| - 1];
      WindowCount(ps, rs[..|rs| - 1], now, colour)
      + (if InWindow(x.createdAt, now) && ProjectStatus(ps, x) == Some(colour) then 1 else 0)
  }

  /** The eight weekly counts, oldest week first. */
  function EightWeeks(ps: seq<Project>, rs: seq<WeeklyStatusReport>, now: int, c: string): nat {
    var s := (i: nat) => TrendCount(ps, rs, Analytics.WeekStart(now, i), c);
    s(7) + s(6) + s(5) + s(4) + s(3) + s(2) + s(1) + s(0)
  }

  /** A report lies in one of the eight weeks exactly when it lies in the window, and then in
      only one. */
  lemma {:induction false} EightWeeksOfOne(now: int, t: int)
    ensures (if InWindow(t, now) then 1 else 0)
            == (if Analytics.InWeek(t, Analytics.WeekStart(now, 7)) then 1 else 0)
               + (if Analytics.InWeek(t, Analytics.WeekStart(now, 6)) then 1 else 0)
               + (if Analytics.InWeek(t, Analytics.WeekStart(now, 5)) then 1 else 0)
               + (if Analytics.InWeek(t, Analytics.WeekStart(now, 4)) then 1 else 0)
               + (if Analytics.InWeek(t, Analytics.WeekStart(now, 3)) then 1 else 0)
               + (if Analytics.InWeek(t, Analytics.WeekStart(now, 2)) then 1 else 0)
               + (if Analytics.InWeek(t, Analytics.WeekStart(now, 1)) then 1 else 0)
               + (if Analytics.InWeek(t, Analytics.WeekStart(now, 0)) then 1 else 0)
  {
  }

  /** Counting week by week and counting over the window agree. */
  lemma {:induction false} EightWeeksCount(ps: seq<Project>, rs: seq<WeeklyStatusReport>, now: int, c: string)
    ensures EightWeeks(ps, rs, now, c) == WindowCount(ps, rs, now, c)
    decreases |rs|
  {
    if |rs| > 0 {
      var init := rs[..|rs| - 1];
      EightWeeksCount(ps, init, now, c);
      EightWeeksOfOne(now, rs[|rs| - 1].createdAt);
    }
  }

  lemma {:induction false} SummaryPrefix(points: seq<TrendPoint>, k: nat, c: string)
    requires k < |points|
    ensures Pick(Summary(points[..k + 1]), c) == Pick(Summary(points[..k]), c) + Pick(points[k].counts, c)
  {
    assert points[..k + 1][..k] == points[..k];
  }

  /** The reduce of eight points adds up their counts. */
  lemma {:induction false} SummaryOfEight(points: seq<TrendPoint>, c: string)
    requires |points| == 8
    ensures Pick(Summary(points), c)
            == Pick(points[0].counts, c) + Pick(points[1].counts, c) + Pick(points[2].counts, c) + Pick(points[3].counts, c)
               + Pick(points[4].counts, c) + Pick(points[5].counts, c) + Pick(points[6].counts, c) + Pick(points[7].counts, c)
  {
    assert points[..0] == [];
    SummaryPrefix(points, 0, c); SummaryPrefix(points, 1, c); SummaryPrefix(points, 2, c); SummaryPrefix(points, 3, c);
    SummaryPrefix(points, 4, c); SummaryPrefix(points, 5, c); SummaryPrefix(points, 6, c); SummaryPrefix(points, 7, c);
    assert points[..8] == points;
  }

  /** The summary of the trend counts, for each colour, the reports of the last eight weeks
      whose project has that status. */
  lemma {:induction false} SummaryCountsWindow(ps: seq<Project>, rs: seq<WeeklyStatusReport>, now: int, c: string)
    requires c in {"Green", "Amber", "Red"}
    ensures Pick(Summary(seq(8, (k: int) requires 0 <= k < 8 => TrendWeek(ps, rs, now, k))), c)
            == WindowCount(ps, rs, now, c)
  {
    var points := seq(8, (k: int) requires 0 <= k < 8 => TrendWeek(ps, rs, now, k));
    SummaryOfEight(points, c);
    EightWeeksCount(ps, rs, now, c);
    forall k | 0 <= k < 8
      ensures Pick(points[k].counts, c) == TrendCount(ps, rs, Analytics.WeekStart(now, 7 - k), c)
    {
      assert points[k] == TrendWeek(ps, rs, now, k);
    }
  }
}
