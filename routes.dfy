/** The logic inside the HTTP handlers of `server/routes.ts`: the role guard, the dashboard
    statistics and trends, the LLM configuration switch, the Excel batch and the single-project
    analysis. Requests and responses are values; the store is the `MemStorage` object. */
module Routes {
  import opened Outcomes
  import Js
  import Seqs
  import opened Schema
  import ExcelParser
  import OpenAIService
  import Storage

  // ---------------------------------------------------------------------------------------
  // requireRole

  const InsufficientPermissions := "Insufficient permissions"

  /** `requireRole(roles)`: `None` passes the request on; otherwise the 403 reply. `role` is
      `None` when there is no user or the user has no role. */
  function RequireRole(roles: seq<string>, role: Option<string>): (r: Option<(int, string)>)
    ensures r.None? <==> role.Some? && role.value in roles
    ensures r.Some? ==> r.value == (403, InsufficientPermissions)
  {
    if role.Some? && role.value in roles then None else Some((403, InsufficientPermissions))
  }

  /** The guard of the LLM configuration endpoints turns project managers away. */
  lemma {:induction false} ProjectManagerCannotConfigureLlm()
    ensures RequireRole([DeliveryManager, Admin], Some(ProjectManager)) == Some((403, InsufficientPermissions))
    ensures RequireRole([DeliveryManager, Admin], Some(Admin)).None?
  {
    assert ProjectManager != DeliveryManager && ProjectManager != Admin;
    assert Admin in [DeliveryManager, Admin];
  }

  // ---------------------------------------------------------------------------------------
  // GET /api/dashboard/stats

  function ProjectOf(r: WeeklyStatusReport): int { r.data.projectId }

  /** One `forEach` step: an entry whose key is not in the map yet is added at the end; one
      strictly newer than the entry kept for its key replaces it in place. */
  function LatestStep<T>(acc: seq<T>, r: T, key: T -> int, time: T -> int): seq<T> {
    match Storage.IndexOfId(acc, key, key(r))
    case None => acc + [r]
    case Some(i) => if time(r) > time(acc[i]) then acc[i := r] else acc
  }

  /** The values of the map after the `forEach` over `rs`. */
  function LatestPerKey<T>(rs: seq<T>, key: T -> int, time: T -> int): seq<T> {
    if |rs| == 0 then [] else LatestStep(LatestPerKey(rs[..|rs| - 1], key, time), rs[|rs| - 1], key, time)
  }

  /** `latestReports`: per project, its latest report by creation time. */
  function LatestPerProject(rs: seq<WeeklyStatusReport>): seq<WeeklyStatusReport> {
    LatestPerKey(rs, ProjectOf, Storage.CreatedAtOf)
  }

  /** The loop of the stats handler. */
  method LatestReports(rs: seq<WeeklyStatusReport>) returns (latest: seq<WeeklyStatusReport>)
    ensures latest == LatestPerProject(rs)
  {
    latest := [];
    for i := 0 to |rs|
      invariant latest == LatestPerKey(rs[..i], ProjectOf, Storage.CreatedAtOf)
    {
      assert rs[..i + 1][..i] == rs[..i];
      var r := rs[i];
      var k := Storage.IndexOfId(latest, ProjectOf, r.data.projectId);
      if k.None? {
        latest := latest + [r];
      } else if r.createdAt > latest[k.value].createdAt {
        latest := latest[k.value := r];
      }
    }
    assert rs[..|rs|] == rs;
  }

  ghost predicate KeysDistinct<T>(acc: seq<T>, key: T -> int) {
    forall i, j :: 0 <= i < j < |acc| ==> key(acc[i]) != key(acc[j])
  }

  ghost predicate KeysCovered<T>(rs: seq<T>, acc: seq<T>, key: T -> int) {
    forall j :: 0 <= j < |rs| ==> key(rs[j]) in Seqs.Map(acc, key)
  }

  /** `rs[k]` is the entry kept for its key: every earlier entry of the key is strictly older,
      and no later one is newer. */
  ghost predicate LatestAt<T>(rs: seq<T>, k: nat, key: T -> int, time: T -> int)
    requires k < |rs|
  {
    (forall j :: 0 <= j < k && key(rs[j]) == key(rs[k]) ==> time(rs[j]) < time(rs[k]))
    && (forall j :: k < j < |rs| && key(rs[j]) == key(rs[k]) ==> time(rs[j]) <= time(rs[k]))
  }

  ghost predicate AllLatest<T>(rs: seq<T>, acc: seq<T>, key: T -> int, time: T -> int) {
    forall p :: 0 <= p < |acc| ==> exists k :: 0 <= k < |rs| && rs[k] == acc[p] && LatestAt(rs, k, key, time)
  }

  lemma {:induction false} StepKeepsKeys<T>(acc: seq<T>, x: T, key: T -> int, time: T -> int)
    ensures |LatestStep(acc, x, key, time)| >= |acc|
    ensures forall p :: 0 <= p < |acc| ==> key(LatestStep(acc, x, key, time)[p]) == key(acc[p])
    ensures key(x) in Seqs.Map(LatestStep(acc, x, key, time), key)
  {
    var res := LatestStep(acc, x, key, time);
    match Storage.IndexOfId(acc, key, key(x))
    case None => assert Seqs.Map(res, key)[|acc|] == key(x);
    case Some(i) => assert Seqs.Map(res, key)[i] == key(x);
  }

  lemma {:induction false} StepDistinct<T>(acc: seq<T>, x: T, key: T -> int, time: T -> int)
    requires KeysDistinct(acc, key)
    ensures KeysDistinct(LatestStep(acc, x, key, time), key)
  {
    if Storage.IndexOfId(acc, key, key(x)).None? {
      assert forall j :: 0 <= j < |acc| ==> key(acc[j]) != key(x);
    }
  }

  lemma {:induction false} StepCovered<T>(init: seq<T>, acc: seq<T>, x: T, key: T -> int, time: T -> int)
    requires KeysCovered(init, acc, key)
    ensures KeysCovered(init + [x], LatestStep(acc, x, key, time), key)
  {
    var res := LatestStep(acc, x, key, time);
    var rs := init + [x];
    StepKeepsKeys(acc, x, key, time);
    forall j | 0 <= j < |rs| ensures key(rs[j]) in Seqs.Map(res, key) {
      if j < |init| {
        assert rs[j] == init[j];
        var p :| 0 <= p < |acc| && Seqs.Map(acc, key)[p] == key(init[j]);
        assert Seqs.Map(res, key)[p] == key(rs[j]);
      }
    }
  }

  lemma {:induction false} LatestAtExtends<T>(init: seq<T>, k: nat, x: T, key: T -> int, time: T -> int)
    requires k < |init| && LatestAt(init, k, key, time)
    requires key(x) == key(init[k]) ==> time(x) <= time(init[k])
    ensures LatestAt(init + [x], k, key, time)
  {
    assert forall j :: 0 <= j < |init| ==> (init + [x])[j] == init[j];
  }

  lemma {:induction false} LatestAtLast<T>(init: seq<T>, x: T, key: T -> int, time: T -> int)
    requires forall j :: 0 <= j < |init| && key(init[j]) == key(x) ==> time(init[j]) < time(x)
    ensures LatestAt(init + [x], |init|, key, time)
  {
    assert forall j :: 0 <= j < |init| ==> (init + [x])[j] == init[j];
  }

  /** An entry of a new key: appended, and the newest of its key so far. */
  lemma {:induction false} StepLatestNewKey<T>(init: seq<T>, acc: seq<T>, x: T, key: T -> int, time: T -> int)
    requires AllLatest(init, acc, key, time) && KeysCovered(init, acc, key)
    requires forall q :: 0 <= q < |acc| ==> key(acc[q]) != key(x)
    ensures AllLatest(init + [x], acc + [x], key, time)
  {
    var rs := init + [x];
    var res := acc + [x];
    forall j | 0 <= j < |init| ensures key(init[j]) != key(x) {
      var q :| 0 <= q < |acc| && Seqs.Map(acc, key)[q] == key(init[j]);
    }
    LatestAtLast(init, x, key, time);
    forall p | 0 <= p < |res| ensures exists k :: 0 <= k < |rs| && rs[k] == res[p] && LatestAt(rs, k, key, time) {
      if p == |acc| {
        assert rs[|init|] == res[p];
      } else {
        var k :| 0 <= k < |init| && init[k] == acc[p] && LatestAt(init, k, key, time);
        LatestAtExtends(init, k, x, key, time);
        assert rs[k] == res[p];
      }
    }
  }

  /** An entry newer than the one kept for its key, at position `i`: it takes that place. */
  lemma {:induction false} StepLatestNewer<T>(init: seq<T>, acc: seq<T>, x: T, i: nat, key: T -> int, time: T -> int)
    requires AllLatest(init, acc, key, time) && KeysDistinct(acc, key)
    requires i < |acc| && key(acc[i]) == key(x) && time(x) > time(acc[i])
    ensures AllLatest(init + [x], acc[i := x], key, time)
  {
    var rs := init + [x];
    var res := acc[i := x];
    var k0 :| 0 <= k0 < |init| && init[k0] == acc[i] && LatestAt(init, k0, key, time);
    forall j | 0 <= j < |init| && key(init[j]) == key(x) ensures time(init[j]) < time(x) {
      assert key(init[j]) == key(init[k0]);
    }
    LatestAtLast(init, x, key, time);
    forall p | 0 <= p < |res| ensures exists k :: 0 <= k < |rs| && rs[k] == res[p] && LatestAt(rs, k, key, time) {
      if p == i {
        assert rs[|init|] == res[p];
      } else {
        var k :| 0 <= k < |init| && init[k] == acc[p] && LatestAt(init, k, key, time);
        LatestAtExtends(init, k, x, key, time);
        assert rs[k] == res[p];
      }
    }
  }

  /** An entry no newer than the one kept for its key, at position `i`: nothing changes. */
  lemma {:induction false} StepLatestOlder<T>(init: seq<T>, acc: seq<T>, x: T, i: nat, key: T -> int, time: T -> int)
    requires AllLatest(init, acc, key, time) && KeysDistinct(acc, key)
    requires i < |acc| && key(acc[i]) == key(x) && time(x) <= time(acc[i])
    ensures AllLatest(init + [x], acc, key, time)
  {
    var rs := init + [x];
    forall p | 0 <= p < |acc| ensures exists k :: 0 <= k < |rs| && rs[k] == acc[p] && LatestAt(rs, k, key, time) {
      var k :| 0 <= k < |init| && init[k] == acc[p] && LatestAt(init, k, key, time);
      assert key(acc[p]) == key(x) ==> p == i;
      LatestAtExtends(init, k, x, key, time);
      assert rs[k] == acc[p];
    }
  }

  lemma {:induction false} StepLatest<T>(init: seq<T>, acc: seq<T>, x: T, key: T -> int, time: T -> int)
    requires AllLatest(init, acc, key, time) && KeysDistinct(acc, key) && KeysCovered(init, acc, key)
    ensures AllLatest(init + [x], LatestStep(acc, x, key, time), key, time)
  {
    var idx := Storage.IndexOfId(acc, key, key(x));
    if idx.None? {
      assert LatestStep(acc, x, key, time) == acc + [x];
      StepLatestNewKey(init, acc, x, key, time);
    } else if time(x) > time(acc[idx.value]) {
      assert LatestStep(acc, x, key, time) == acc[idx.value := x];
      StepLatestNewer(init, acc, x, idx.value, key, time);
    } else {
      assert LatestStep(acc, x, key, time) == acc;
      StepLatestOlder(init, acc, x, idx.value, key, time);
    }
  }

  /** The kept entries are one per key that occurs, each the newest of its key and, among
      equally new ones, the first seen. */
  lemma {:induction false} LatestPerKeyFacts<T>(rs: seq<T>, key: T -> int, time: T -> int)
    ensures KeysDistinct(LatestPerKey(rs, key, time), key)
    ensures KeysCovered(rs, LatestPerKey(rs, key, time), key)
    ensures AllLatest(rs, LatestPerKey(rs, key, time), key, time)
    decreases |rs|
  {
    if |rs| > 0 {
      var init := rs[..|rs| - 1];
      var x := rs[|rs| - 1];
      assert rs == init + [x];
      LatestPerKeyFacts(init, key, time);
      var acc := LatestPerKey(init, key, time);
      StepDistinct(acc, x, key, time);
      StepCovered(init, acc, x, key, time);
      StepLatest(init, acc, x, key, time);
    }
  }

  /** The stats handler keeps exactly one report per project that has reports: the newest,
      and among reports created at the same time the first in store order. */
  lemma {:induction false} LatestPerProjectFacts(rs: seq<WeeklyStatusReport>)
    ensures forall i, j :: 0 <= i < j < |LatestPerProject(rs)| ==>
              LatestPerProject(rs)[i].data.projectId != LatestPerProject(rs)[j].data.projectId
    ensures forall j :: 0 <= j < |rs| ==> rs[j].data.projectId in Seqs.Map(LatestPerProject(rs), ProjectOf)
    ensures forall p :: 0 <= p < |LatestPerProject(rs)| ==>
              exists k :: 0 <= k < |rs| && rs[k] == LatestPerProject(rs)[p] && LatestAt(rs, k, ProjectOf, Storage.CreatedAtOf)
  {
    LatestPerKeyFacts(rs, ProjectOf, Storage.CreatedAtOf);
    var res := LatestPerProject(rs);
    assert forall p :: 0 <= p < |res| ==> ProjectOf(res[p]) == res[p].data.projectId;
  }

  datatype DashboardStats = DashboardStats(
    greenProjects: nat, amberProjects: nat, redProjects: nat, escalations: nat, totalProjects: nat)

  predicate IsGreenReport(r: WeeklyStatusReport) { r.data.ragStatus == Some("Green") }
  predicate IsAmberReport(r: WeeklyStatusReport) { r.data.ragStatus == Some("Amber") }
  predicate IsRedReport(r: WeeklyStatusReport) { r.data.ragStatus == Some("Red") }
  /** A truthy `clientEscalation`. */
  predicate IsEscalated(r: WeeklyStatusReport) { r.data.clientEscalation != "" }

  function StatsOf(latest: seq<WeeklyStatusReport>): DashboardStats {
    DashboardStats(Seqs.Count(latest, IsGreenReport), Seqs.Count(latest, IsAmberReport),
                   Seqs.Count(latest, IsRedReport), Seqs.Count(latest, IsEscalated), |latest|)
  }

  /** The three colour counts never add up to more than the reports counted. */
  lemma {:induction false} ColourCountsBound(s: seq<WeeklyStatusReport>)
    ensures Seqs.Count(s, IsGreenReport) + Seqs.Count(s, IsAmberReport) + Seqs.Count(s, IsRedReport) <= |s|
    decreases |s|
  {
    if |s| > 0 {
      ColourCountsBound(s[..|s| - 1]);
    }
  }

  /** The stats handler: counts over the latest report of each project. */
  method GetDashboardStats(store: Storage.MemStorage) returns (stats: DashboardStats)
    ensures stats == StatsOf(LatestPerProject(store.weeklyStatusReports))
    ensures stats.greenProjects + stats.amberProjects + stats.redProjects <= stats.totalProjects
    ensures stats.escalations <= stats.totalProjects
  {
    var latest := LatestReports(store.GetWeeklyStatusReports(None));
    stats := StatsOf(latest);
    ColourCountsBound(latest);
  }

  // ---------------------------------------------------------------------------------------
  // GET /api/dashboard/trends

  /** One group of the trend: a calendar day (the `YYYY-MM-DD` key of `toISOString`, here the
      day number since the epoch) and its colour counts. */
  datatype TrendPoint = TrendPoint(day: int, green: nat, amber: nat, red: nat)

  function PointDay(g: TrendPoint): int { g.day }
  function NegDay(g: TrendPoint): int { -g.day }

  function DayKey(r: WeeklyStatusReport): int { r.data.reportingDate / Storage.DayMs }

  /** The `if … else if …` on the report's own `ragStatus`: at most one counter moves. */
  function CountInto(g: TrendPoint, r: WeeklyStatusReport): TrendPoint {
    if r.data.ragStatus == Some("Green") then g.(green := g.green + 1)
    else if r.data.ragStatus == Some("Amber") then g.(amber := g.amber + 1)
    else if r.data.ragStatus == Some("Red") then g.(red := g.red + 1)
    else g
  }

  /** One `forEach` step: the report's day gets a zeroed group at the end of the map if it
      has none yet, and then the report is counted into that group. */
  function TrendStep(groups: seq<TrendPoint>, r: WeeklyStatusReport): seq<TrendPoint> {
    match Storage.IndexOfId(groups, PointDay, DayKey(r))
    case None => groups + [CountInto(TrendPoint(DayKey(r), 0, 0, 0), r)]
    case Some(i) => groups[i := CountInto(groups[i], r)]
  }

  /** The entries of `trendData` after the `forEach` over `rs`. */
  function TrendGroups(rs: seq<WeeklyStatusReport>): seq<TrendPoint> {
    if |rs| == 0 then [] else TrendStep(TrendGroups(rs[..|rs| - 1]), rs[|rs| - 1])
  }

  /** The reports of day `d` whose own status is `colour`. */
  function ColourOn(rs: seq<WeeklyStatusReport>, d: int, colour: string): nat {
    Seqs.Count(rs, (r: WeeklyStatusReport) => DayKey(r) == d && r.data.ragStatus == Some(colour))
  }

  ghost predicate DaysCovered(rs: seq<WeeklyStatusReport>, groups: seq<TrendPoint>) {
    forall j :: 0 <= j < |rs| ==> DayKey(rs[j]) in Seqs.Map(groups, PointDay)
  }

  ghost predicate GroupCounts(rs: seq<WeeklyStatusReport>, groups: seq<TrendPoint>) {
    forall p :: 0 <= p < |groups| ==>
      groups[p].green == ColourOn(rs, groups[p].day, "Green")
      && groups[p].amber == ColourOn(rs, groups[p].day, "Amber")
      && groups[p].red == ColourOn(rs, groups[p].day, "Red")
  }

  lemma {:induction false} ColourOnSnoc(rs: seq<WeeklyStatusReport>, x: WeeklyStatusReport, d: int, colour: string)
    ensures ColourOn(rs + [x], d, colour)
         == ColourOn(rs, d, colour) + if DayKey(x) == d && x.data.ragStatus == Some(colour) then 1 else 0
  {
    assert (rs + [x])[..|rs|] == rs;
  }

  lemma {:induction false} ColourOnNone(rs: seq<WeeklyStatusReport>, d: int, colour: string)
    requires forall j :: 0 <= j < |rs| ==> DayKey(rs[j]) != d
    ensures ColourOn(rs, d, colour) == 0
  {
  }

  lemma {:induction false} TrendStepShape(groups: seq<TrendPoint>, x: WeeklyStatusReport)
    ensures |TrendStep(groups, x)| >= |groups|
    ensures forall p :: 0 <= p < |groups| ==> TrendStep(groups, x)[p].day == groups[p].day
    ensures DayKey(x) in Seqs.Map(TrendStep(groups, x), PointDay)
    ensures forall p :: |groups| <= p < |TrendStep(groups, x)| ==> TrendStep(groups, x)[p].day == DayKey(x)
  {
    var res := TrendStep(groups, x);
    match Storage.IndexOfId(groups, PointDay, DayKey(x))
    case None => assert Seqs.Map(res, PointDay)[|groups|] == DayKey(x);
    case Some(i) => assert Seqs.Map(res, PointDay)[i] == DayKey(x);
  }

  lemma {:induction false} TrendStepDistinct(groups: seq<TrendPoint>, x: WeeklyStatusReport)
    requires KeysDistinct(groups, PointDay)
    ensures KeysDistinct(TrendStep(groups, x), PointDay)
  {
    if Storage.IndexOfId(groups, PointDay, DayKey(x)).None? {
      assert forall q :: 0 <= q < |groups| ==> PointDay(groups[q]) != DayKey(x);
    }
  }

  lemma {:induction false} TrendStepCovered(rs: seq<WeeklyStatusReport>, groups: seq<TrendPoint>, x: WeeklyStatusReport)
    requires DaysCovered(rs, groups)
    ensures DaysCovered(rs + [x], TrendStep(groups, x))
  {
    var res := TrendStep(groups, x);
    var rs' := rs + [x];
    TrendStepShape(groups, x);
    forall j | 0 <= j < |rs'| ensures DayKey(rs'[j]) in Seqs.Map(res, PointDay) {
      if j < |rs| {
        assert rs'[j] == rs[j];
        var q :| 0 <= q < |groups| && Seqs.Map(groups, PointDay)[q] == DayKey(rs[j]);
        assert Seqs.Map(res, PointDay)[q] == DayKey(rs[j]);
      }
    }
  }

  /** Every group's day is the day of some report. */
  ghost predicate DaysFromReports(rs: seq<WeeklyStatusReport>, groups: seq<TrendPoint>) {
    forall p :: 0 <= p < |groups| ==> groups[p].day in Seqs.Map(rs, DayKey)
  }

  lemma {:induction false} TrendStepFromReports(rs: seq<WeeklyStatusReport>, groups: seq<TrendPoint>, x: WeeklyStatusReport)
    requires DaysFromReports(rs, groups)
    ensures DaysFromReports(rs + [x], TrendStep(groups, x))
  {
    var rs' := rs + [x];
    TrendStepShape(groups, x);
    assert Seqs.Map(rs', DayKey) == Seqs.Map(rs, DayKey) + [DayKey(x)];
  }

  /** A day no group has yet has no report counted. */
  lemma {:induction false} NewDayUncounted(rs: seq<WeeklyStatusReport>, groups: seq<TrendPoint>, d: int)
    requires DaysCovered(rs, groups) && Storage.IndexOfId(groups, PointDay, d).None?
    ensures ColourOn(rs, d, "Green") == 0 && ColourOn(rs, d, "Amber") == 0 && ColourOn(rs, d, "Red") == 0
  {
    forall j | 0 <= j < |rs| ensures DayKey(rs[j]) != d {
      var q :| 0 <= q < |groups| && Seqs.Map(groups, PointDay)[q] == DayKey(rs[j]);
    }
    ColourOnNone(rs, d, "Green");
    ColourOnNone(rs, d, "Amber");
    ColourOnNone(rs, d, "Red");
  }

  /** The group a step opens for a new day counts just the new report. */
  lemma {:induction false} NewGroupCounts(rs: seq<WeeklyStatusReport>, groups: seq<TrendPoint>, x: WeeklyStatusReport)
    requires DaysCovered(rs, groups) && Storage.IndexOfId(groups, PointDay, DayKey(x)).None?
    ensures |TrendStep(groups, x)| == |groups| + 1
    ensures var g := TrendStep(groups, x)[|groups|];
            g.green == ColourOn(rs + [x], g.day, "Green")
            && g.amber == ColourOn(rs + [x], g.day, "Amber")
            && g.red == ColourOn(rs + [x], g.day, "Red")
  {
    var d := DayKey(x);
    var g := CountInto(TrendPoint(d, 0, 0, 0), x);
    assert TrendStep(groups, x) == groups + [g];
    assert (groups + [g])[|groups|] == g;
    NewDayUncounted(rs, groups, d);
    ColourOnSnoc(rs, x, d, "Green");
    ColourOnSnoc(rs, x, d, "Amber");
    ColourOnSnoc(rs, x, d, "Red");
  }

  /** A group that was there before a step counts the new report exactly when it is the
      report's day. */
  lemma {:induction false} OldGroupCounts(rs: seq<WeeklyStatusReport>, groups: seq<TrendPoint>, x: WeeklyStatusReport, p: nat)
    requires GroupCounts(rs, groups) && KeysDistinct(groups, PointDay) && p < |groups|
    ensures p < |TrendStep(groups, x)|
    ensures var g := TrendStep(groups, x)[p];
            g.green == ColourOn(rs + [x], g.day, "Green")
            && g.amber == ColourOn(rs + [x], g.day, "Amber")
            && g.red == ColourOn(rs + [x], g.day, "Red")
  {
    var res := TrendStep(groups, x);
    var d := DayKey(x);
    var idx := Storage.IndexOfId(groups, PointDay, d);
    var day := groups[p].day;
    ColourOnSnoc(rs, x, day, "Green");
    ColourOnSnoc(rs, x, day, "Amber");
    ColourOnSnoc(rs, x, day, "Red");
    if idx.Some? && p == idx.value {
      assert res[p] == CountInto(groups[p], x);
    } else {
      assert res[p] == groups[p];
      assert day != d;
    }
  }

  /** The counts of one group after a step. */
  lemma {:induction false} TrendStepCountsAt(rs: seq<WeeklyStatusReport>, groups: seq<TrendPoint>, x: WeeklyStatusReport, p: nat)
    requires DaysCovered(rs, groups) && GroupCounts(rs, groups) && KeysDistinct(groups, PointDay)
    requires p < |TrendStep(groups, x)|
    ensures var g := TrendStep(groups, x)[p];
            g.green == ColourOn(rs + [x], g.day, "Green")
            && g.amber == ColourOn(rs + [x], g.day, "Amber")
            && g.red == ColourOn(rs + [x], g.day, "Red")
  {
    if p < |groups| {
      OldGroupCounts(rs, groups, x, p);
    } else {
      assert Storage.IndexOfId(groups, PointDay, DayKey(x)).None?;
      NewGroupCounts(rs, groups, x);
    }
  }

  lemma {:induction false} TrendStepCounts(rs: seq<WeeklyStatusReport>, groups: seq<TrendPoint>, x: WeeklyStatusReport)
    requires DaysCovered(rs, groups) && GroupCounts(rs, groups) && KeysDistinct(groups, PointDay)
    ensures GroupCounts(rs + [x], TrendStep(groups, x))
  {
    var res := TrendStep(groups, x);
    forall p | 0 <= p < |res|
      ensures res[p].green == ColourOn(rs + [x], res[p].day, "Green")
      ensures res[p].amber == ColourOn(rs + [x], res[p].day, "Amber")
      ensures res[p].red == ColourOn(rs + [x], res[p].day, "Red")
    {
      TrendStepCountsAt(rs, groups, x, p);
    }
  }

  /** The days of the groups are distinct and are exactly the days of the reports, and each
      group counts the reports of its day by their own status. */
  lemma {:induction false} TrendGroupsFacts(rs: seq<WeeklyStatusReport>)
    ensures KeysDistinct(TrendGroups(rs), PointDay)
    ensures DaysCovered(rs, TrendGroups(rs))
    ensures DaysFromReports(rs, TrendGroups(rs))
    ensures GroupCounts(rs, TrendGroups(rs))
    decreases |rs|
  {
    if |rs| > 0 {
      var init := rs[..|rs| - 1];
      var x := rs[|rs| - 1];
      assert rs == init + [x];
      TrendGroupsFacts(init);
      var g := TrendGroups(init);
      TrendStepDistinct(g, x);
      TrendStepCovered(init, g, x);
      TrendStepFromReports(init, g, x);
      TrendStepCounts(init, g, x);
    }
  }

  /** Sorted by day (ascending: the `localeCompare` of `YYYY-MM-DD` keys) and cut to the last
      eight groups. */
  function TrendData(groups: seq<TrendPoint>): seq<TrendPoint> {
    var sorted := Seqs.SortDesc(groups, NegDay);
    Js.Slice(sorted, -8, |sorted|)
  }

  /** At most eight groups, oldest first, each one of the groups. */
  lemma {:induction false} TrendDataFacts(groups: seq<TrendPoint>)
    ensures |TrendData(groups)| == if |groups| <= 8 then |groups| else 8
    ensures forall i, j :: 0 <= i < j < |TrendData(groups)| ==> TrendData(groups)[i].day <= TrendData(groups)[j].day
    ensures forall g :: g in TrendData(groups) ==> g in groups
  {
    TrendDataOrdered(groups);
    TrendDataMembers(groups);
  }

  lemma {:induction false} TrendDataOrdered(groups: seq<TrendPoint>)
    ensures |TrendData(groups)| == if |groups| <= 8 then |groups| else 8
    ensures forall i, j :: 0 <= i < j < |TrendData(groups)| ==> TrendData(groups)[i].day <= TrendData(groups)[j].day
  {
    var sorted := Seqs.SortDesc(groups, NegDay);
    Seqs.SortDescSorted(groups, NegDay);
    Js.SliceLast(sorted, 8);
    var out := TrendData(groups);
    var m := |sorted| - |out|;
    assert out == sorted[m..];
    forall i, j | 0 <= i < j < |out| ensures out[i].day <= out[j].day {
      assert out[i] == sorted[m + i] && out[j] == sorted[m + j];
      assert NegDay(sorted[m + i]) >= NegDay(sorted[m + j]);
    }
  }

  lemma {:induction false} TrendDataMembers(groups: seq<TrendPoint>)
    ensures forall g :: g in TrendData(groups) ==> g in groups
  {
    var sorted := Seqs.SortDesc(groups, NegDay);
    Js.SliceLast(sorted, 8);
    var out := TrendData(groups);
    assert out == sorted[|sorted| - |out|..];
    forall g | g in out ensures g in groups {
      assert g in sorted;
      assert g in multiset(sorted);
    }
  }

  /** The groups cut off are no later than any group kept. */
  lemma {:induction false} TrendDataKeepsLatest(groups: seq<TrendPoint>)
    ensures forall g, h :: g in groups && g !in TrendData(groups) && h in TrendData(groups) ==> g.day <= h.day
  {
    var sorted := Seqs.SortDesc(groups, NegDay);
    Seqs.SortDescSorted(groups, NegDay);
    Js.SliceLast(sorted, 8);
    var out := TrendData(groups);
    var m := |sorted| - |out|;
    assert out == sorted[m..];
    forall g, h | g in groups && g !in out && h in out ensures g.day <= h.day {
      assert g in multiset(groups);
      var q :| 0 <= q < |sorted| && sorted[q] == g;
      var t :| 0 <= t < |out| && out[t] == h;
      assert sorted[m + t] == h;
      assert q < m;
      assert NegDay(sorted[q]) >= NegDay(sorted[m + t]);
    }
  }

  /** The trends handler: the grouping loop, then the sort and the cut. */
  method GetDashboardTrends(store: Storage.MemStorage) returns (trend: seq<TrendPoint>)
    ensures trend == TrendData(TrendGroups(store.weeklyStatusReports))
  {
    var rs := store.GetWeeklyStatusReports(None);
    var groups: seq<TrendPoint> := [];
    for i := 0 to |rs|
      invariant groups == TrendGroups(rs[..i])
    {
      assert rs[..i + 1][..i] == rs[..i];
      var r := rs[i];
      var key := r.data.reportingDate / Storage.DayMs;
      var k := Storage.IndexOfId(groups, PointDay, key);
      var at: nat;
      if k.None? {
        groups := groups + [TrendPoint(key, 0, 0, 0)];
        at := |groups| - 1;
      } else {
        at := k.value;
      }
      var counts := groups[at];
      if r.data.ragStatus == Some("Green") {
        counts := counts.(green := counts.green + 1);
      } else if r.data.ragStatus == Some("Amber") {
        counts := counts.(amber := counts.amber + 1);
      } else if r.data.ragStatus == Some("Red") {
        counts := counts.(red := counts.red + 1);
      }
      groups := groups[at := counts];
    }
    assert rs[..|rs|] == rs;
    trend := Js.Slice(Seqs.SortDesc(groups, NegDay), -8, |groups|);
  }

  // ---------------------------------------------------------------------------------------
  // POST /api/llm-config

  /** Every configuration after `updateLlmConfiguration(id, { isActive: false })`. */
  function DeactivateAll(cs: seq<LlmConfiguration>, now: int): (r: seq<LlmConfiguration>)
    ensures |r| == |cs|
    ensures forall i :: 0 <= i < |cs| ==> r[i] == cs[i].(isActive := false, lastUpdatedDate := now)
  {
    Seqs.Map(cs, (c: LlmConfiguration) => ApplyLlmPatch(c, Deactivate, now))
  }

  /** After the switch the new configuration is the active one, unless it was itself sent in
      as inactive, in which case none is. */
  lemma {:induction false} SwitchLeavesOneActive(cs: seq<LlmConfiguration>, now: int, x: LlmConfiguration)
    ensures Seqs.Find(DeactivateAll(cs, now) + [x], Storage.IsActiveConfig) == if x.isActive then Some(x) else None
  {
    var all := DeactivateAll(cs, now) + [x];
    assert forall i :: 0 <= i < |cs| ==> !Storage.IsActiveConfig(all[i]);
    assert all[|cs|] == x;
  }

  lemma {:induction false} DeactivateStep(cs: seq<LlmConfiguration>, i: nat, now: int)
    requires i < |cs|
    ensures (DeactivateAll(cs[..i], now) + cs[i..])[i := ApplyLlmPatch(cs[i], Deactivate, now)]
         == DeactivateAll(cs[..i + 1], now) + cs[i + 1..]
  {
  }

  /** Midway through the loop, the next configuration is still stored unchanged at its
      position, and deactivating it there extends the deactivated prefix by one. */
  lemma {:induction false} DeactivateAt(existing: seq<LlmConfiguration>, cur: seq<LlmConfiguration>,
                                        i: nat, bound: int, now: int)
    requires i < |existing| && cur == DeactivateAll(existing[..i], now) + existing[i..]
    requires Storage.IdsBelow(cur, Storage.LlmKey, bound)
    ensures Storage.Lookup(cur, Storage.LlmKey, existing[i].id) == Some(existing[i])
    ensures Storage.SetById(cur, Storage.LlmKey, ApplyLlmPatch(existing[i], Deactivate, now))
            == DeactivateAll(existing[..i + 1], now) + existing[i + 1..]
  {
    assert cur[i] == existing[i];
    Storage.IndexOfStored(cur, Storage.LlmKey, bound, i);
    DeactivateStep(existing, i, now);
  }

  /** The `Promise.all` over `updateLlmConfiguration(config.id, { isActive: false })`. */
  method DeactivateConfigs(store: Storage.MemStorage, now: int)
    requires store.Valid()
    modifies store
    ensures store.Valid()
    ensures store.llmConfigurations == DeactivateAll(old(store.llmConfigurations), now)
    ensures store.currentId == old(store.currentId)
    ensures store.users == old(store.users) && store.projects == old(store.projects)
    ensures store.weeklyStatusReports == old(store.weeklyStatusReports)
    ensures store.technicalReviews == old(store.technicalReviews)
    ensures store.portfolioAnalyses == old(store.portfolioAnalyses)
  {
    var existing := store.GetLlmConfigurations();
    for i := 0 to |existing|
      invariant store.Valid()
      invariant store.llmConfigurations == DeactivateAll(existing[..i], now) + existing[i..]
      invariant store.currentId == old(store.currentId)
      invariant store.users == old(store.users) && store.projects == old(store.projects)
      invariant store.weeklyStatusReports == old(store.weeklyStatusReports)
      invariant store.technicalReviews == old(store.technicalReviews)
      invariant store.portfolioAnalyses == old(store.portfolioAnalyses)
    {
      DeactivateAt(existing, store.llmConfigurations, i, store.currentId, now);
      var _ := store.UpdateLlmConfiguration(existing[i].id, Deactivate, now);
    }
    assert existing[..|existing|] == existing;
  }

  /** The handler, after validation: deactivate every stored configuration, then store the
      new one, recorded as updated by the requesting user. */
  method CreateLlmConfig(store: Storage.MemStorage, c: NewLlmConfiguration, userId: int, now: int)
    returns (config: LlmConfiguration)
    requires store.Valid()
    modifies store
    ensures store.Valid()
    ensures config == LlmConfiguration(old(store.currentId), c.providerName, c.modelName, c.apiKey,
                                       c.isActive.GetOr(true), Some(userId), now)
    ensures store.llmConfigurations == DeactivateAll(old(store.llmConfigurations), now) + [config]
    ensures store.GetActiveLlmConfiguration() == if config.isActive then Some(config) else None
    ensures store.users == old(store.users) && store.projects == old(store.projects)
    ensures store.weeklyStatusReports == old(store.weeklyStatusReports)
    ensures store.technicalReviews == old(store.technicalReviews)
    ensures store.portfolioAnalyses == old(store.portfolioAnalyses)
  {
    DeactivateConfigs(store, now);
    config := store.CreateLlmConfiguration(c.(lastUpdatedBy := Some(userId)), now);
    SwitchLeavesOneActive(old(store.llmConfigurations), now, config);
  }

  // ---------------------------------------------------------------------------------------
  // POST /api/excel/parse

  const NoExcelFiles := "No Excel files found in public/excels directory"
  const ProcessedMessage := "Excel files processed successfully"

  type Sheet = Result<seq<seq<ExcelParser.Cell>>, string>

  datatype BatchResponse =
    | BatchNotFound(message: string)
    | BatchProcessed(message: string, projectsProcessed: nat, portfolioSummary: OpenAIService.PortfolioSummary,
                     projectSummaries: seq<OpenAIService.ProjectSummary>, rawData: seq<ExcelParser.ExcelReportData>)

  /** The summary of one parsed project, or nothing when `generateProjectSummary` throws. */
  function SummaryOrSkip(d: ExcelParser.ExcelReportData, apiKey: string, reply: ExcelParser.ExcelReportData -> Option<string>,
                         parseJson: string -> Option<OpenAIService.AiFields>): seq<OpenAIService.ProjectSummary> {
    match OpenAIService.GenerateProjectSummary(apiKey, reply(d), parseJson, d)
    case Ok(r) => [r]
    case Err(_) => []
  }

  /** The projects of one file that got a summary, in order. */
  function SummarisedRows(rows: seq<ExcelParser.ExcelReportData>, apiKey: string,
                          reply: ExcelParser.ExcelReportData -> Option<string>,
                          parseJson: string -> Option<OpenAIService.AiFields>): seq<ExcelParser.ExcelReportData> {
    if |rows| == 0 then []
    else SummarisedRows(rows[..|rows| - 1], apiKey, reply, parseJson)
         + (if |SummaryOrSkip(rows[|rows| - 1], apiKey, reply, parseJson)| == 1 then [rows[|rows| - 1]] else [])
  }

  /** The rows of the files that parse, in file order; a file that fails contributes none. */
  function ParsedRows(files: seq<Sheet>): seq<ExcelParser.ExcelReportData> {
    if |files| == 0 then []
    else ParsedRows(files[..|files| - 1])
         + match ExcelParser.ParseSheet(files[|files| - 1]) { case Ok(rows) => rows case Err(_) => [] }
  }

  /** `rawData`: the projects that parsed and got a summary, in processing order. */
  function BatchData(files: seq<Sheet>, apiKey: string, reply: ExcelParser.ExcelReportData -> Option<string>,
                     parseJson: string -> Option<OpenAIService.AiFields>): seq<ExcelParser.ExcelReportData> {
    if |files| == 0 then []
    else BatchData(files[..|files| - 1], apiKey, reply, parseJson)
         + match ExcelParser.ParseSheet(files[|files| - 1]) {
             case Ok(rows) => SummarisedRows(rows, apiKey, reply, parseJson)
             case Err(_) => []
           }
  }

  /** `projectSummaries`: the summary of each project of `rawData`, which never throws for
      those. */
  function SummaryOfProcessed(d: ExcelParser.ExcelReportData, apiKey: string,
                              reply: ExcelParser.ExcelReportData -> Option<string>,
                              parseJson: string -> Option<OpenAIService.AiFields>): OpenAIService.ProjectSummary {
    match OpenAIService.GenerateProjectSummary(apiKey, reply(d), parseJson, d)
    case Ok(r) => r
    case Err(_) => OpenAIService.FallbackSummary(d)
  }

  /** With a key every project of every readable file is processed: a file that fails to
      parse is skipped and the others are processed in full. */
  lemma {:induction false} BatchWithKey(files: seq<Sheet>, apiKey: string,
                                        reply: ExcelParser.ExcelReportData -> Option<string>,
                                        parseJson: string -> Option<OpenAIService.AiFields>)
    requires apiKey != ""
    ensures BatchData(files, apiKey, reply, parseJson) == ParsedRows(files)
    decreases |files|
  {
    if |files| > 0 {
      BatchWithKey(files[..|files| - 1], apiKey, reply, parseJson);
      match ExcelParser.ParseSheet(files[|files| - 1]) {
        case Ok(rows) => AllSummarised(rows, apiKey, reply, parseJson);
        case Err(_) =>
      }
    }
  }

  lemma {:induction false} AllSummarised(rows: seq<ExcelParser.ExcelReportData>, apiKey: string,
                                         reply: ExcelParser.ExcelReportData -> Option<string>,
                                         parseJson: string -> Option<OpenAIService.AiFields>)
    requires apiKey != ""
    ensures SummarisedRows(rows, apiKey, reply, parseJson) == rows
    decreases |rows|
  {
    if |rows| > 0 {
      AllSummarised(rows[..|rows| - 1], apiKey, reply, parseJson);
      LastSummarised(rows, apiKey, reply, parseJson);
    }
  }

  /** With a key the last row is kept after the rows before it. */
  lemma LastSummarised(rows: seq<ExcelParser.ExcelReportData>, apiKey: string,
                       reply: ExcelParser.ExcelReportData -> Option<string>,
                       parseJson: string -> Option<OpenAIService.AiFields>)
    requires apiKey != "" && |rows| > 0
    requires SummarisedRows(rows[..|rows| - 1], apiKey, reply, parseJson) == rows[..|rows| - 1]
    ensures SummarisedRows(rows, apiKey, reply, parseJson) == rows
  {
    var last := rows[|rows| - 1];
    var kept := |SummaryOrSkip(last, apiKey, reply, parseJson)| == 1;
    assert kept by {
      assert OpenAIService.GenerateProjectSummary(apiKey, reply(last), parseJson, last).Ok?;
    }
    Seqs.KeepLast(rows, SummarisedRows(rows[..|rows| - 1], apiKey, reply, parseJson),
                  SummarisedRows(rows, apiKey, reply, parseJson), kept);
  }

  /** Without a key every summary call throws, so nothing is processed. */
  lemma {:induction false} BatchWithoutKey(files: seq<Sheet>, reply: ExcelParser.ExcelReportData -> Option<string>,
                                           parseJson: string -> Option<OpenAIService.AiFields>)
    ensures BatchData(files, "", reply, parseJson) == []
    decreases |files|
  {
    if |files| > 0 {
      BatchWithoutKey(files[..|files| - 1], reply, parseJson);
      match ExcelParser.ParseSheet(files[|files| - 1]) {
        case Ok(rows) => NoneSummarised(rows, reply, parseJson);
        case Err(_) =>
      }
    }
  }

  lemma {:induction false} NoneSummarised(rows: seq<ExcelParser.ExcelReportData>,
                                          reply: ExcelParser.ExcelReportData -> Option<string>,
                                          parseJson: string -> Option<OpenAIService.AiFields>)
    ensures SummarisedRows(rows, "", reply, parseJson) == []
    decreases |rows|
  {
    if |rows| > 0 {
      NoneSummarised(rows[..|rows| - 1], reply, parseJson);
    }
  }

  /** `projectSummaries` for a given `rawData`. */
  function SummariesOf(raw: seq<ExcelParser.ExcelReportData>, apiKey: string,
                       reply: ExcelParser.ExcelReportData -> Option<string>,
                       parseJson: string -> Option<OpenAIService.AiFields>): (r: seq<OpenAIService.ProjectSummary>)
    ensures |r| == |raw|
  {
    if |raw| == 0 then []
    else SummariesOf(raw[..|raw| - 1], apiKey, reply, parseJson) + [SummaryOfProcessed(raw[|raw| - 1], apiKey, reply, parseJson)]
  }

  lemma {:induction false} SummarisedStep(rows: seq<ExcelParser.ExcelReportData>, j: nat, apiKey: string,
                                          reply: ExcelParser.ExcelReportData -> Option<string>,
                                          parseJson: string -> Option<OpenAIService.AiFields>,
                                          raw: seq<ExcelParser.ExcelReportData>)
    requires j < |rows|
    ensures var g := OpenAIService.GenerateProjectSummary(apiKey, reply(rows[j]), parseJson, rows[j]);
            SummarisedRows(rows[..j + 1], apiKey, reply, parseJson)
              == SummarisedRows(rows[..j], apiKey, reply, parseJson) + (if g.Ok? then [rows[j]] else [])
            && (g.Ok? ==> SummariesOf(raw + [rows[j]], apiKey, reply, parseJson)
                          == SummariesOf(raw, apiKey, reply, parseJson) + [g.value])
  {
    assert rows[..j + 1][..j] == rows[..j];
    assert (raw + [rows[j]])[..|raw|] == raw;
  }

  /** One step of the inner loop: a summarised project is appended to the processed rows and
      its summary to the summaries; a failed one changes neither. */
  lemma {:induction false} ProcessStep(rows: seq<ExcelParser.ExcelReportData>, j: nat, apiKey: string,
                                       reply: ExcelParser.ExcelReportData -> Option<string>,
                                       parseJson: string -> Option<OpenAIService.AiFields>,
                                       raw0: seq<ExcelParser.ExcelReportData>, raw: seq<ExcelParser.ExcelReportData>)
    requires j < |rows| && raw == raw0 + SummarisedRows(rows[..j], apiKey, reply, parseJson)
    ensures var g := OpenAIService.GenerateProjectSummary(apiKey, reply(rows[j]), parseJson, rows[j]);
            (g.Ok? ==> raw + [rows[j]] == raw0 + SummarisedRows(rows[..j + 1], apiKey, reply, parseJson)
                       && SummariesOf(raw + [rows[j]], apiKey, reply, parseJson)
                          == SummariesOf(raw, apiKey, reply, parseJson) + [g.value])
            && (!g.Ok? ==> raw == raw0 + SummarisedRows(rows[..j + 1], apiKey, reply, parseJson))
  {
    SummarisedStep(rows, j, apiKey, reply, parseJson, raw);
    var g := OpenAIService.GenerateProjectSummary(apiKey, reply(rows[j]), parseJson, rows[j]);
    Seqs.AppendStep(raw0, SummarisedRows(rows[..j], apiKey, reply, parseJson),
                    SummarisedRows(rows[..j + 1], apiKey, reply, parseJson), rows[j], g.Ok?);
  }

  /** `storage.createOrUpdateWeeklyReportFromExcel(reportData, summary)` inside the batch, the
      import as written (a project's first report is stored without its summary). The batch
      relies only on the store staying consistent and on the tables the import does not
      touch. */
  method StoreProcessed(store: Storage.MemStorage, d: ExcelParser.ExcelReportData,
                        summary: OpenAIService.ProjectSummary, now: int, code: nat)
    requires store.Valid() && code < 1000
    modifies store
    ensures store.Valid()
    ensures store.users == old(store.users) && store.technicalReviews == old(store.technicalReviews)
    ensures store.llmConfigurations == old(store.llmConfigurations)
    ensures store.portfolioAnalyses == old(store.portfolioAnalyses)
  {
    var _ := store.CreateOrUpdateWeeklyReportFromExcel(d, summary, now, code);
  }

  /** The inner loop over the projects of one parsed file. */
  method ProcessRows(store: Storage.MemStorage, rows: seq<ExcelParser.ExcelReportData>, apiKey: string,
                     reply: ExcelParser.ExcelReportData -> Option<string>,
                     parseJson: string -> Option<OpenAIService.AiFields>, now: int, draw: nat -> nat,
                     raw0: seq<ExcelParser.ExcelReportData>)
    returns (raw: seq<ExcelParser.ExcelReportData>, summaries: seq<OpenAIService.ProjectSummary>)
    requires store.Valid()
    modifies store
    ensures store.Valid()
    ensures raw == raw0 + SummarisedRows(rows, apiKey, reply, parseJson)
    ensures summaries == SummariesOf(raw, apiKey, reply, parseJson)
    ensures store.users == old(store.users) && store.technicalReviews == old(store.technicalReviews)
    ensures store.llmConfigurations == old(store.llmConfigurations)
    ensures store.portfolioAnalyses == old(store.portfolioAnalyses)
  {
    raw := raw0;
    summaries := SummariesOf(raw0, apiKey, reply, parseJson);
    for j := 0 to |rows|
      invariant store.Valid()
      invariant raw == raw0 + SummarisedRows(rows[..j], apiKey, reply, parseJson)
      invariant summaries == SummariesOf(raw, apiKey, reply, parseJson)
      invariant store.users == old(store.users) && store.technicalReviews == old(store.technicalReviews)
      invariant store.llmConfigurations == old(store.llmConfigurations)
      invariant store.portfolioAnalyses == old(store.portfolioAnalyses)
    {
      ProcessStep(rows, j, apiKey, reply, parseJson, raw0, raw);
      var d := rows[j];
      var summary := OpenAIService.GenerateProjectSummary(apiKey, reply(d), parseJson, d);
      if summary.Ok? {
        summaries := summaries + [summary.value];
        raw := raw + [d];
        StoreProcessed(store, d, summary.value, now, draw(|raw| - 1) % 1000);
      }
    }
    assert rows[..|rows|] == rows;
  }

  /** One pass of the loop over the files: a file that fails to parse adds nothing, the
      projects of one that parses go through the inner loop. */
  method ProcessFile(store: Storage.MemStorage, files: seq<Sheet>, i: nat, apiKey: string,
                     reply: ExcelParser.ExcelReportData -> Option<string>,
                     parseJson: string -> Option<OpenAIService.AiFields>, now: int, draw: nat -> nat,
                     raw0: seq<ExcelParser.ExcelReportData>)
    returns (raw: seq<ExcelParser.ExcelReportData>, summaries: seq<OpenAIService.ProjectSummary>)
    requires store.Valid() && i < |files| && raw0 == BatchData(files[..i], apiKey, reply, parseJson)
    modifies store
    ensures store.Valid()
    ensures raw == BatchData(files[..i + 1], apiKey, reply, parseJson)
    ensures summaries == SummariesOf(raw, apiKey, reply, parseJson)
    ensures store.users == old(store.users) && store.technicalReviews == old(store.technicalReviews)
    ensures store.llmConfigurations == old(store.llmConfigurations)
    ensures store.portfolioAnalyses == old(store.portfolioAnalyses)
  {
    assert files[..i + 1][..i] == files[..i];
    var parsed := ExcelParser.ParseWeeklyStatusReport(files[i]);
    if parsed.Ok? {
      raw, summaries := ProcessRows(store, parsed.value, apiKey, reply, parseJson, now, draw, raw0);
    } else {
      raw, summaries := raw0, SummariesOf(raw0, apiKey, reply, parseJson);
    }
  }

  /** The batch handler. `files` are the workbooks found (each as its first sheet's cells, or
      the error reading it gave); `reply` answers the AI request for a project; `draw(k)` is
      the random draw behind the code of the `k`-th imported project. Every processed
      project is stored through the import as written, `createOrUpdateWeeklyReportFromExcel`. */
  method ProcessExcelFiles(store: Storage.MemStorage, files: seq<Sheet>, apiKey: string,
                           reply: ExcelParser.ExcelReportData -> Option<string>,
                           parseJson: string -> Option<OpenAIService.AiFields>, now: int, draw: nat -> nat)
    returns (resp: BatchResponse)
    requires store.Valid()
    modifies store
    ensures store.Valid()
    ensures |files| == 0 <==> resp.BatchNotFound?
    ensures resp.BatchNotFound? ==> resp.message == NoExcelFiles && store.weeklyStatusReports == old(store.weeklyStatusReports)
    ensures resp.BatchProcessed? ==>
              var raw := BatchData(files, apiKey, reply, parseJson);
              var summaries := SummariesOf(raw, apiKey, reply, parseJson);
              resp == BatchProcessed(ProcessedMessage, |raw|, OpenAIService.GeneratePortfolioSummary(summaries), summaries, raw)
    ensures store.users == old(store.users) && store.technicalReviews == old(store.technicalReviews)
    ensures store.llmConfigurations == old(store.llmConfigurations)
    ensures store.portfolioAnalyses == old(store.portfolioAnalyses)
  {
    if |files| == 0 {
      return BatchNotFound(NoExcelFiles);
    }
    var allReportsData: seq<ExcelParser.ExcelReportData> := [];
    var allSummaries: seq<OpenAIService.ProjectSummary> := [];
    for i := 0 to |files|
      invariant store.Valid()
      invariant allReportsData == BatchData(files[..i], apiKey, reply, parseJson)
      invariant allSummaries == SummariesOf(allReportsData, apiKey, reply, parseJson)
      invariant store.users == old(store.users) && store.technicalReviews == old(store.technicalReviews)
      invariant store.llmConfigurations == old(store.llmConfigurations)
      invariant store.portfolioAnalyses == old(store.portfolioAnalyses)
    {
      allReportsData, allSummaries := ProcessFile(store, files, i, apiKey, reply, parseJson, now, draw, allReportsData);
    }
    assert files[..|files|] == files;
    var portfolioSummary := OpenAIService.GeneratePortfolioSummary(allSummaries);
    resp := BatchProcessed(ProcessedMessage, |allSummaries|, portfolioSummary, allSummaries, allReportsData);
  }

  // ---------------------------------------------------------------------------------------
  // POST /api/excel/analyze-project/:projectId

  const ProjectNotFound := "Project not found"
  const NoReportsFound := "No reports found for this project"
  const AnalyzeFailure := "Failed to analyze project"

  datatype AnalyzeResponse =
    | AnalyzeNotFound(message: string)
    | AnalyzeFailed(message: string, error: string)
    | AnalyzeDone(projectName: string, summary: OpenAIService.ProjectSummary, updatedReport: int)

  /** The report converted to the spreadsheet shape the AI service takes, with the handler's
      `||` defaults. */
  function AnalysisInput(p: Project, r: WeeklyStatusReport): ExcelParser.ExcelReportData {
    var d := r.data;
    ExcelParser.ExcelReportData(
      projectName := p.data.name,
      weekNumber := if d.weekNumber.None? || d.weekNumber == Some(0) then Some(1) else d.weekNumber,
      healthPreviousWeek := OpenAIService.Or(d.healthPreviousWeek, "Green"),
      healthCurrentWeek := d.healthCurrentWeek,
      updateForCurrentWeek := d.updateForCurrentWeek,
      planForNextWeek := d.planForNextWeek,
      issuesChallenges := d.issuesChallenges,
      pathToGreen := d.pathToGreen,
      resourcingStatus := d.resourcingStatus,
      clientEscalation := OpenAIService.Or(d.clientEscalation, "None"),
      tower := d.tower,
      billingModel := d.billingModel,
      fte := d.fte,
      revenue := d.revenue)
  }

  /** The defaults: week 1 for a missing or zero week, "Green" for a missing previous health,
      "None" for a missing escalation; the name is the project's; the rest is copied as is. */
  lemma {:induction false} AnalysisInputDefaults(p: Project, r: WeeklyStatusReport)
    ensures AnalysisInput(p, r).projectName == p.data.name
    ensures AnalysisInput(p, r).weekNumber.Some? && AnalysisInput(p, r).weekNumber.value != 0
    ensures r.data.weekNumber.Some? && r.data.weekNumber.value != 0 ==> AnalysisInput(p, r).weekNumber == r.data.weekNumber
    ensures AnalysisInput(p, r).healthPreviousWeek == if r.data.healthPreviousWeek == "" then "Green" else r.data.healthPreviousWeek
    ensures AnalysisInput(p, r).clientEscalation == if r.data.clientEscalation == "" then "None" else r.data.clientEscalation
    ensures AnalysisInput(p, r).healthCurrentWeek == r.data.healthCurrentWeek
  {
  }

  /** The reply for a project and its last report: the summary, or the failure to make one. */
  function AnalyzeLatest(p: Project, latest: WeeklyStatusReport, apiKey: string,
                         reply: ExcelParser.ExcelReportData -> Option<string>,
                         parseJson: string -> Option<OpenAIService.AiFields>): (r: AnalyzeResponse)
    ensures !r.AnalyzeNotFound?
    ensures r.AnalyzeFailed? <==> apiKey == ""
    ensures r.AnalyzeFailed? ==> r.message == AnalyzeFailure
    ensures r.AnalyzeDone? ==>
              r.projectName == p.data.name && r.summary.projectName == p.data.name && r.updatedReport == latest.id
  {
    var input := AnalysisInput(p, latest);
    match OpenAIService.GenerateProjectSummary(apiKey, reply(input), parseJson, input)
    case Err(e) => AnalyzeFailed(AnalyzeFailure, e)
    case Ok(s) => AnalyzeDone(p.data.name, s, latest.id)
  }

  /** The reply of the handler for the state it finds. */
  function AnalyzeOutcome(projects: seq<Project>, reports: seq<WeeklyStatusReport>, id: Option<int>, apiKey: string,
                          reply: ExcelParser.ExcelReportData -> Option<string>,
                          parseJson: string -> Option<OpenAIService.AiFields>): AnalyzeResponse {
    var project := if id.None? then None else Storage.Lookup(projects, Storage.ProjectKey, id.value);
    if project.None? then AnalyzeNotFound(ProjectNotFound)
    else
      var own := Storage.ReportsOfProject(reports, id);
      if |own| == 0 then AnalyzeNotFound(NoReportsFound)
      else AnalyzeLatest(project.value, own[|own| - 1], apiKey, reply, parseJson)
  }

  /** 404 'Project not found' exactly when the parameter does not parse (`id` is None) or names
      no project. */
  lemma {:induction false} AnalyzeUnknownProject(projects: seq<Project>, reports: seq<WeeklyStatusReport>,
                                                 id: Option<int>, apiKey: string,
                                                 reply: ExcelParser.ExcelReportData -> Option<string>,
                                                 parseJson: string -> Option<OpenAIService.AiFields>)
    ensures (AnalyzeOutcome(projects, reports, id, apiKey, reply, parseJson) == AnalyzeNotFound(ProjectNotFound))
      <==> (id.None? || forall i :: 0 <= i < |projects| ==> projects[i].id != id.value)
  {
    if id.Some? {
      var found := Storage.Lookup(projects, Storage.ProjectKey, id.value);
      if found.Some? {
        assert found.value in projects;
      }
    }
  }

  /** 404 'No reports found for this project' exactly when the project exists and no stored
      report belongs to it. */
  lemma {:induction false} AnalyzeProjectWithoutReports(projects: seq<Project>, reports: seq<WeeklyStatusReport>, bound: int,
                                                        id: Option<int>, apiKey: string,
                                                        reply: ExcelParser.ExcelReportData -> Option<string>,
                                                        parseJson: string -> Option<OpenAIService.AiFields>)
    requires Storage.IdsBelow(projects, Storage.ProjectKey, bound)
    ensures (AnalyzeOutcome(projects, reports, id, apiKey, reply, parseJson) == AnalyzeNotFound(NoReportsFound))
      <==> (id.Some? && Storage.Lookup(projects, Storage.ProjectKey, id.value).Some?
            && forall j :: 0 <= j < |reports| ==> reports[j].data.projectId != id.value)
  {
    if id.Some? && Storage.Lookup(projects, Storage.ProjectKey, id.value).Some? {
      var p := Storage.Lookup(projects, Storage.ProjectKey, id.value).value;
      assert p in projects;
      assert id.value != 0;
      var own := Storage.ReportsOfProject(reports, id);
      if |own| > 0 {
        assert own[0] in own;
      }
      forall j | 0 <= j < |reports| && reports[j].data.projectId == id.value ensures |own| > 0 {
        assert reports[j] in own;
      }
    }
  }

  /** 500 exactly when the project and a report exist and no API key is configured. */
  lemma {:induction false} AnalyzeFailsWithoutKey(projects: seq<Project>, reports: seq<WeeklyStatusReport>,
                                                  id: Option<int>, apiKey: string,
                                                  reply: ExcelParser.ExcelReportData -> Option<string>,
                                                  parseJson: string -> Option<OpenAIService.AiFields>)
    ensures var r := AnalyzeOutcome(projects, reports, id, apiKey, reply, parseJson);
            r.AnalyzeFailed? <==> !r.AnalyzeNotFound? && apiKey == ""
    ensures var r := AnalyzeOutcome(projects, reports, id, apiKey, reply, parseJson);
            r.AnalyzeFailed? ==> r.message == AnalyzeFailure
  {
  }

  /** A successful analysis names the project and the id of its last stored report. */
  lemma {:induction false} AnalyzeUsesLastReport(projects: seq<Project>, reports: seq<WeeklyStatusReport>, bound: int,
                                                 id: Option<int>, apiKey: string,
                                                 reply: ExcelParser.ExcelReportData -> Option<string>,
                                                 parseJson: string -> Option<OpenAIService.AiFields>)
    requires Storage.IdsBelow(projects, Storage.ProjectKey, bound)
    ensures var r := AnalyzeOutcome(projects, reports, id, apiKey, reply, parseJson);
            r.AnalyzeDone? ==>
              id.Some? && apiKey != ""
              && Storage.Lookup(projects, Storage.ProjectKey, id.value).Some?
              && r.projectName == Storage.Lookup(projects, Storage.ProjectKey, id.value).value.data.name
              && r.summary.projectName == r.projectName
              && exists j :: 0 <= j < |reports| && reports[j].id == r.updatedReport
                   && reports[j].data.projectId == id.value
                   && forall k :: j < k < |reports| ==> reports[k].data.projectId != id.value
  {
    if id.Some? && Storage.Lookup(projects, Storage.ProjectKey, id.value).Some? {
      var p := Storage.Lookup(projects, Storage.ProjectKey, id.value).value;
      Storage.StoredIdPositive(projects, Storage.ProjectKey, bound, p);
      var keep := Storage.OfProject(id.value);
      var own := Storage.ReportsOfProject(reports, id);
      assert own == Seqs.Filter(reports, keep);
      if |own| > 0 {
        var j := Seqs.FilterLast(reports, keep);
        assert AnalyzeOutcome(projects, reports, id, apiKey, reply, parseJson) == AnalyzeLatest(p, reports[j], apiKey, reply, parseJson);
      }
    }
  }

  /** The handler: look the project up, take its last report, ask for the summary and
      store the two AI fields on that report. */
  method AnalyzeProject(store: Storage.MemStorage, param: string, apiKey: string,
                        reply: ExcelParser.ExcelReportData -> Option<string>,
                        parseJson: string -> Option<OpenAIService.AiFields>)
    returns (resp: AnalyzeResponse)
    requires store.Valid()
    modifies store
    ensures store.Valid()
    ensures resp == AnalyzeOutcome(old(store.projects), old(store.weeklyStatusReports), Js.ParseInt(param), apiKey, reply, parseJson)
    ensures !resp.AnalyzeDone? ==> store.weeklyStatusReports == old(store.weeklyStatusReports)
    ensures resp.AnalyzeDone? ==>
              var before := Storage.Lookup(old(store.weeklyStatusReports), Storage.ReportKey, resp.updatedReport);
              before.Some?
              && store.weeklyStatusReports
                 == Storage.SetById(old(store.weeklyStatusReports), Storage.ReportKey,
                                    before.value.(aiStatus := resp.summary.overallHealth,
                                                  aiAssessmentDescription := resp.summary.summary))
    ensures store.users == old(store.users) && store.projects == old(store.projects)
    ensures store.technicalReviews == old(store.technicalReviews)
    ensures store.llmConfigurations == old(store.llmConfigurations)
    ensures store.portfolioAnalyses == old(store.portfolioAnalyses)
  {
    var latest;
    resp, latest := SummariseLatest(store, Js.ParseInt(param), apiKey, reply, parseJson);
    if resp.AnalyzeDone? {
      StoreAiFields(store, latest.value, resp.summary.overallHealth, resp.summary.summary);
    }
  }

  /** The handler up to the update: the two lookups with their 404s and the summary call with
      its 500. On success `latest` is the stored report the summary is about. */
  method SummariseLatest(store: Storage.MemStorage, id: Option<int>, apiKey: string,
                         reply: ExcelParser.ExcelReportData -> Option<string>,
                         parseJson: string -> Option<OpenAIService.AiFields>)
    returns (resp: AnalyzeResponse, latest: Option<WeeklyStatusReport>)
    ensures resp == AnalyzeOutcome(store.projects, store.weeklyStatusReports, id, apiKey, reply, parseJson)
    ensures resp.AnalyzeDone? ==> latest.Some? && latest.value in store.weeklyStatusReports && latest.value.id == resp.updatedReport
  {
    var project := if id.None? then None else store.GetProject(id.value);
    if project.None? {
      return AnalyzeNotFound(ProjectNotFound), None;
    }
    var reports := store.GetWeeklyStatusReports(id);
    if |reports| == 0 {
      return AnalyzeNotFound(NoReportsFound), None;
    }
    var last := reports[|reports| - 1];
    latest := Some(last);
    var input := AnalysisInput(project.value, last);
    var summary := OpenAIService.GenerateProjectSummary(apiKey, reply(input), parseJson, input);
    if summary.Err? {
      return AnalyzeFailed(AnalyzeFailure, summary.error), latest;
    }
    assert last in reports;
    resp := AnalyzeDone(project.value.data.name, summary.value, last.id);
  }

  /** `storage.updateWeeklyStatusReport(latestReport.id, { aiStatus, aiAssessmentDescription })`
      for a report that is stored. */
  method StoreAiFields(store: Storage.MemStorage, latest: WeeklyStatusReport, status: string, description: string)
    requires store.Valid() && latest in store.weeklyStatusReports
    modifies store
    ensures store.Valid()
    ensures Storage.Lookup(old(store.weeklyStatusReports), Storage.ReportKey, latest.id) == Some(latest)
    ensures store.weeklyStatusReports
            == Storage.SetById(old(store.weeklyStatusReports), Storage.ReportKey,
                               latest.(aiStatus := status, aiAssessmentDescription := description))
    ensures store.users == old(store.users) && store.projects == old(store.projects)
    ensures store.technicalReviews == old(store.technicalReviews)
    ensures store.llmConfigurations == old(store.llmConfigurations)
    ensures store.portfolioAnalyses == old(store.portfolioAnalyses)
  {
    Storage.StoredReportFound(store.weeklyStatusReports, latest);
    AiPatchEffect(latest, status, description);
    var _ := store.UpdateWeeklyStatusReport(latest.id, AiPatch(status, description));
  }
}
