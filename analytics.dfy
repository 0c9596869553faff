/** The data preparation of the analytics page: the recommendation and the risk areas read
    out of the portfolio analysis text, the twelve-week status trend, the per-tower tally and
    the headline metrics. */
module Analytics {
  import opened Outcomes
  import Js
  import Seqs
  import Regex
  import opened Schema
  import Storage
  import ProjectsPage

  // ---------------------------------------------------------------------------------------
  // getPrimaryRecommendation

  const DefaultRecommendation := "Review portfolio and address critical issues immediately"
  const RecommendWord := "Recommend "
  const FocusWord := "focus"
  const AttentionWord := "attention"
  const AddressWord := "address"

  /** An explicit "Recommend ..." sentence is returned as captured; otherwise the first of the
      "focus", "attention", "address" patterns that matches gives "Focus on" and its trimmed
      capture; otherwise, and for an empty text, the fixed fallback. */
  function PrimaryRecommendation(reason: string): string {
    if reason == "" then DefaultRecommendation
    else
      match Regex.SearchLazy(reason, RecommendWord, 0)
      case Some(c) => c
      case None =>
        var action :=
          match Regex.SearchLazy(reason, FocusWord, 0)
          case Some(c) => Some(c)
          case None =>
            match Regex.SearchLazy(reason, AttentionWord, 0)
            case Some(c) => Some(c)
            case None => Regex.SearchLazy(reason, AddressWord, 0);
        if action.Some? then "Focus on " + Js.Trim(action.value) else DefaultRecommendation
  }

  /** An explicit "Recommend" sentence wins: its capture is the recommendation. */
  lemma {:induction false} RecommendationExplicit(reason: string, i: int)
    requires reason != "" && Regex.FirstLazyMatch(reason, RecommendWord, i)
    ensures PrimaryRecommendation(reason) == Regex.LazyToStop(reason, i + |RecommendWord|).value
  {
    Regex.SearchLazyFinds(reason, RecommendWord, i);
  }

  /** Without one, a "focus" phrase gives "Focus on" and its trimmed capture. */
  lemma {:induction false} RecommendationFocus(reason: string, i: int)
    requires reason != "" && !Regex.HasLazyMatch(reason, RecommendWord)
    requires Regex.FirstLazyMatch(reason, FocusWord, i)
    ensures PrimaryRecommendation(reason) == "Focus on " + Js.Trim(Regex.LazyToStop(reason, i + |FocusWord|).value)
  {
    Regex.SearchLazyMisses(reason, RecommendWord);
    Regex.SearchLazyFinds(reason, FocusWord, i);
  }

  /** Without "Recommend" or "focus", an "attention" phrase does the same. */
  lemma {:induction false} RecommendationAttention(reason: string, i: int)
    requires reason != "" && !Regex.HasLazyMatch(reason, RecommendWord) && !Regex.HasLazyMatch(reason, FocusWord)
    requires Regex.FirstLazyMatch(reason, AttentionWord, i)
    ensures PrimaryRecommendation(reason) == "Focus on " + Js.Trim(Regex.LazyToStop(reason, i + |AttentionWord|).value)
  {
    Regex.SearchLazyMisses(reason, RecommendWord);
    Regex.SearchLazyMisses(reason, FocusWord);
    Regex.SearchLazyFinds(reason, AttentionWord, i);
  }

  /** Failing the three, an "address" phrase does the same. */
  lemma {:induction false} RecommendationAddress(reason: string, i: int)
    requires reason != "" && !Regex.HasLazyMatch(reason, RecommendWord) && !Regex.HasLazyMatch(reason, FocusWord)
    requires !Regex.HasLazyMatch(reason, AttentionWord) && Regex.FirstLazyMatch(reason, AddressWord, i)
    ensures PrimaryRecommendation(reason) == "Focus on " + Js.Trim(Regex.LazyToStop(reason, i + |AddressWord|).value)
  {
    Regex.SearchLazyMisses(reason, RecommendWord);
    Regex.SearchLazyMisses(reason, FocusWord);
    Regex.SearchLazyMisses(reason, AttentionWord);
    Regex.SearchLazyFinds(reason, AddressWord, i);
  }

  /** An empty text, or one matching none of the four expressions, gets the fallback. */
  lemma {:induction false} RecommendationDefault(reason: string)
    requires reason == ""
             || (!Regex.HasLazyMatch(reason, RecommendWord) && !Regex.HasLazyMatch(reason, FocusWord)
                 && !Regex.HasLazyMatch(reason, AttentionWord) && !Regex.HasLazyMatch(reason, AddressWord))
    ensures PrimaryRecommendation(reason) == DefaultRecommendation
  {
    if reason != "" {
      Regex.SearchLazyMisses(reason, RecommendWord);
      Regex.SearchLazyMisses(reason, FocusWord);
      Regex.SearchLazyMisses(reason, AttentionWord);
      Regex.SearchLazyMisses(reason, AddressWord);
    }
  }

  /** The recommendation is never empty. */
  lemma {:induction false} PrimaryRecommendationNonEmpty(reason: string)
    ensures |PrimaryRecommendation(reason)| >= 1
  {
    Regex.SearchLazyNonEmpty(reason, RecommendWord);
  }

  /** An explicit recommendation is a non-empty stretch of the text on one line that ends just
      before a full stop or at the end of the text. */
  lemma {:induction false} ExplicitRecommendationShape(reason: string, i: int)
    requires reason != "" && Regex.FirstLazyMatch(reason, RecommendWord, i)
    ensures var r := PrimaryRecommendation(reason);
            var p := i + |RecommendWord|;
            |r| >= 1 && p + |r| <= |reason| && r == reason[p..p + |r|]
            && (forall k :: 0 <= k < |r| ==> !Js.IsLineTerminator(r[k]))
            && (p + |r| == |reason| || reason[p + |r|] == '.')
            && (forall k :: 1 <= k < |r| ==> r[k] != '.')
  {
    RecommendationExplicit(reason, i);
    var p := i + |RecommendWord|;
    var r := PrimaryRecommendation(reason);
    assert Regex.StopMatch(reason, p, |r|);
    forall k | 1 <= k < |r| ensures r[k] != '.' {
      assert !Regex.StopMatch(reason, p, k);
      assert reason[p + k] == r[k];
      forall m | p <= m < p + k ensures !Js.IsLineTerminator(reason[m]) {
        assert reason[m] == r[m - p];
      }
    }
    forall k | 0 <= k < |r| ensures !Js.IsLineTerminator(r[k]) {
      assert r[k] == reason[p + k];
    }
  }

  // ---------------------------------------------------------------------------------------
  // getKeyRiskAreas

  const LegacyPhrase := "legacy system integrations"
  const ResourcePhrase := "resource allocation"
  const DependencyPhrase := "third-party dependency"
  const LegacyLabel := "Legacy system integrations"
  const ResourceLabel := "Resource allocation"
  const DependencyLabel := "Third-party dependencies"
  const MultipleRisks := "Multiple risk factors identified"

  /** The label of each phrase the text contains (case-sensitively), in the fixed order; the
      generic label when it contains none; nothing for an empty text. */
  function KeyRiskAreas(reason: string): (r: seq<string>)
    ensures reason == "" <==> r == []
  {
    if reason == "" then []
    else PickLabels(Js.Includes(reason, LegacyPhrase), Js.Includes(reason, ResourcePhrase),
                    Js.Includes(reason, DependencyPhrase), LegacyLabel, ResourceLabel, DependencyLabel, MultipleRisks)
  }

  /** The labels of the phrases found, in the fixed order, or the generic label alone. */
  function PickLabels<T>(b0: bool, b1: bool, b2: bool, l0: T, l1: T, l2: T, none: T): seq<T> {
    var areas := (if b0 then [l0] else []) + (if b1 then [l1] else []) + (if b2 then [l2] else []);
    if |areas| > 0 then areas else [none]
  }

  lemma {:induction false} PickLabelsFacts<T>(b0: bool, b1: bool, b2: bool, l0: T, l1: T, l2: T, none: T)
    requires l0 != l1 && l0 != l2 && l1 != l2 && none != l0 && none != l1 && none != l2
    ensures var r := PickLabels(b0, b1, b2, l0, l1, l2, none);
            (l0 in r <==> b0) && (l1 in r <==> b1) && (l2 in r <==> b2)
            && (r == [none] <==> !b0 && !b1 && !b2)
            && (forall i, j :: 0 <= i < j < |r| ==> (r[i] == l0 && (r[j] == l1 || r[j] == l2)) || (r[i] == l1 && r[j] == l2))
  {
  }

  /** The four labels are distinct. */
  lemma {:induction false} RiskLabelsDistinct()
    ensures LegacyLabel != ResourceLabel && LegacyLabel != DependencyLabel && ResourceLabel != DependencyLabel
    ensures MultipleRisks != LegacyLabel && MultipleRisks != ResourceLabel && MultipleRisks != DependencyLabel
  {
    assert |LegacyLabel| == 26 && |ResourceLabel| == 19 && |DependencyLabel| == 24 && |MultipleRisks| == 32;
  }

  /** The labels listed are those of the phrases found, in the fixed order, and the generic
      label stands alone exactly when a non-empty text contains none of the phrases. */
  lemma {:induction false} KeyRiskAreasFacts(reason: string)
    ensures var r := KeyRiskAreas(reason);
            reason != "" ==>
              (LegacyLabel in r <==> Js.Includes(reason, LegacyPhrase))
              && (ResourceLabel in r <==> Js.Includes(reason, ResourcePhrase))
              && (DependencyLabel in r <==> Js.Includes(reason, DependencyPhrase))
    ensures KeyRiskAreas(reason) == [MultipleRisks] <==>
              reason != "" && !Js.Includes(reason, LegacyPhrase) && !Js.Includes(reason, ResourcePhrase)
              && !Js.Includes(reason, DependencyPhrase)
    ensures var r := KeyRiskAreas(reason);
            forall i, j :: 0 <= i < j < |r| ==>
              (r[i] == LegacyLabel && (r[j] == ResourceLabel || r[j] == DependencyLabel))
              || (r[i] == ResourceLabel && r[j] == DependencyLabel)
  {
    if reason != "" {
      RiskLabelsDistinct();
      PickLabelsFacts(Js.Includes(reason, LegacyPhrase), Js.Includes(reason, ResourcePhrase),
                      Js.Includes(reason, DependencyPhrase), LegacyLabel, ResourceLabel, DependencyLabel, MultipleRisks);
    }
  }

  // ---------------------------------------------------------------------------------------
  // Weeks

  const WeekMs := 7 * Storage.DayMs

  /** Midnight of the day of `t` (local time is taken to be UTC). */
  function Midnight(t: int): int {
    t - t % Storage.DayMs
  }

  /** The first millisecond of the week `weeksBack` weeks before the current one: `setDate`
      back by seven days per week, then `setHours(0, 0, 0, 0)`. */
  function WeekStart(now: int, weeksBack: int): int {
    Midnight(now) - weeksBack * WeekMs
  }

  /** `t` lies between the week's start and six days later at 23:59:59.999, both included. */
  predicate InWeek(t: int, start: int) {
    start <= t <= start + WeekMs - 1
  }

  /** Each week begins just after the one before it ends. */
  lemma {:induction false} WeeksContiguous(now: int, weeksBack: int)
    ensures WeekStart(now, weeksBack - 1) == WeekStart(now, weeksBack) + WeekMs
  {
    assert (weeksBack - 1) * WeekMs == weeksBack * WeekMs - WeekMs;
  }

  /** No instant lies in two different weeks. */
  lemma {:induction false} WeeksDisjoint(now: int, a: int, b: int, t: int)
    requires a < b
    ensures !(InWeek(t, WeekStart(now, a)) && InWeek(t, WeekStart(now, b)))
  {
    assert b * WeekMs - a * WeekMs == (b - a) * WeekMs;
    assert (b - a) * WeekMs >= WeekMs;
  }

  /** The current week contains `now`. */
  lemma {:induction false} NowInCurrentWeek(now: int)
    ensures InWeek(now, WeekStart(now, 0))
  {
  }

  // ---------------------------------------------------------------------------------------
  // getRagTrendData

  datatype WeekPoint = WeekPoint(week: string, weekStart: int, green: nat, amber: nat, red: nat, total: nat)

  /** The report was created in the week starting at `start` and carries the status `colour`. */
  predicate CreatedInWeekWith(r: WeeklyStatusReport, start: int, colour: string) {
    InWeek(r.createdAt, start) && r.data.ragStatus == Some(colour)
  }

  /** The number of reports created in the week with the given status. */
  function WeekCount(rs: seq<WeeklyStatusReport>, start: int, colour: string): nat {
    if |rs| == 0 then 0
    else WeekCount(rs[..|rs| - 1], start, colour) + (if CreatedInWeekWith(rs[|rs| - 1], start, colour) then 1 else 0)
  }

  /** The point labelled `W(k + 1)`, for the week `11 - k` weeks back. */
  function RagWeek(rs: seq<WeeklyStatusReport>, now: int, k: nat): WeekPoint {
    var start := WeekStart(now, 11 - k);
    var g := WeekCount(rs, start, "Green");
    var a := WeekCount(rs, start, "Amber");
    var r := WeekCount(rs, start, "Red");
    WeekPoint("W" + Js.NatToString(k + 1), start, g, a, r, g + a + r)
  }

  /** The `forEach` over one week's reports: `ragCounts[report.ragStatus]++`; a status other
      than the three colours raises no colour count. */
  method CountWeek(rs: seq<WeeklyStatusReport>, start: int) returns (g: nat, a: nat, r: nat)
    ensures g == WeekCount(rs, start, "Green")
    ensures a == WeekCount(rs, start, "Amber")
    ensures r == WeekCount(rs, start, "Red")
  {
    g, a, r := 0, 0, 0;
    var j := 0;
    while j < |rs|
      invariant 0 <= j <= |rs|
      invariant g == WeekCount(rs[..j], start, "Green")
      invariant a == WeekCount(rs[..j], start, "Amber")
      invariant r == WeekCount(rs[..j], start, "Red")
    {
      assert rs[..j + 1][..j] == rs[..j];
      var report := rs[j];
      if InWeek(report.createdAt, start) {
        var status := report.data.ragStatus;
        g := g + (if status == Some("Green") then 1 else 0);
        a := a + (if status == Some("Amber") then 1 else 0);
        r := r + (if status == Some("Red") then 1 else 0);
      }
      j := j + 1;
    }
    assert rs[..|rs|] == rs;
  }

  /** `for (let i = 11; i >= 0; i--)`: twelve points, oldest first. */
  method RagTrendData(reports: Option<seq<WeeklyStatusReport>>, now: int) returns (points: seq<WeekPoint>)
    ensures reports.None? ==> points == []
    ensures reports.Some? ==> |points| == 12 && forall k :: 0 <= k < 12 ==> points[k] == RagWeek(reports.value, now, k)
  {
    if reports.None? {
      return [];
    }
    var rs := reports.value;
    points := [];
    var i := 11;
    while i >= 0
      invariant -1 <= i <= 11
      invariant |points| == 11 - i
      invariant forall k :: 0 <= k < |points| ==> points[k] == RagWeek(rs, now, k)
    {
      var start := WeekStart(now, i);
      var g, a, r := CountWeek(rs, start);
      var point := WeekPoint("W" + Js.NatToString(12 - i), start, g, a, r, g + a + r);
      RagWeekOfCounts(rs, now, i, g, a, r);
      points := points + [point];
      i := i - 1;
    }
  }

  lemma {:induction false} RagWeekOfCounts(rs: seq<WeeklyStatusReport>, now: int, i: nat, g: nat, a: nat, r: nat)
    requires i <= 11
    requires g == WeekCount(rs, WeekStart(now, i), "Green")
    requires a == WeekCount(rs, WeekStart(now, i), "Amber")
    requires r == WeekCount(rs, WeekStart(now, i), "Red")
    ensures WeekPoint("W" + Js.NatToString(12 - i), WeekStart(now, i), g, a, r, g + a + r) == RagWeek(rs, now, 11 - i)
  {
    assert 11 - (11 - i) == i && (11 - i) + 1 == 12 - i;
  }

  /** Point `k` is labelled `W(k + 1)`, and its total is the sum of its colours. */
  lemma {:induction false} RagWeekLabel(rs: seq<WeeklyStatusReport>, now: int, k: nat)
    ensures RagWeek(rs, now, k).week == "W" + Js.NatToString(k + 1)
    ensures RagWeek(rs, now, k).total == RagWeek(rs, now, k).green + RagWeek(rs, now, k).amber + RagWeek(rs, now, k).red
    ensures RagWeek(rs, now, k).weekStart == WeekStart(now, 11 - k)
  {
  }

  /** The points' weeks follow one another up to the current one. */
  lemma {:induction false} RagTrendContiguous(rs: seq<WeeklyStatusReport>, now: int, k: nat)
    requires k < 11
    ensures RagWeek(rs, now, k + 1).weekStart == RagWeek(rs, now, k).weekStart + WeekMs
    ensures RagWeek(rs, now, 11).weekStart == WeekStart(now, 0)
  {
    RagWeekLabel(rs, now, k);
    RagWeekLabel(rs, now, k + 1);
    RagWeekLabel(rs, now, 11);
    WeeksContiguous(now, 11 - k);
  }

  /** A report counted in one point is counted in no other. */
  lemma {:induction false} RagTrendDisjoint(rs: seq<WeeklyStatusReport>, now: int, k: nat, m: nat, x: WeeklyStatusReport)
    requires k < m < 12
    ensures !(InWeek(x.createdAt, RagWeek(rs, now, k).weekStart) && InWeek(x.createdAt, RagWeek(rs, now, m).weekStart))
  {
    RagWeekLabel(rs, now, k);
    RagWeekLabel(rs, now, m);
    WeeksDisjoint(now, 11 - m, 11 - k, x.createdAt);
  }

  // ---------------------------------------------------------------------------------------
  // getTowerPerformanceData (the counts)

  datatype TowerRow = TowerRow(tower: string, totalProjects: nat, green: nat, amber: nat, red: nat, totalReports: nat)

  function Coloured(row: TowerRow): nat {
    row.green + row.amber + row.red
  }

  /** `towerData[tower]`: the position of the tower's entry. */
  function TowerIndex(rows: seq<TowerRow>, tower: string): (r: Option<nat>)
    ensures r.None? <==> forall i :: 0 <= i < |rows| ==> rows[i].tower != tower
    ensures r.Some? ==> r.value < |rows| && rows[r.value].tower == tower
  {
    if |rows| == 0 then None
    else if rows[0].tower == tower then Some(0)
    else
      match TowerIndex(rows[1..], tower)
      case None => None
      case Some(i) => Some(i + 1)
  }

  /** The status of the project's latest report, if it has one. */
  function LatestStatus(rs: seq<WeeklyStatusReport>, projectId: int): Option<string> {
    var latest := ProjectsPage.LatestReportForProject(Some(rs), projectId);
    if latest.Some? then latest.value.data.ragStatus else None
  }

  /** The tally of one project: its number of reports, and the one colour of its latest report
      (none when that is neither Green, Amber nor Red). */
  function AddProject(row: TowerRow, status: Option<string>, reports: nat): (r: TowerRow)
    ensures r.tower == row.tower && r.totalProjects == row.totalProjects + 1
    ensures Coloured(r) <= Coloured(row) + 1
    ensures Coloured(r) == Coloured(row) + 1 <==> status in {Some("Green"), Some("Amber"), Some("Red")}
  {
    row.(totalProjects := row.totalProjects + 1,
         totalReports := row.totalReports + reports,
         green := row.green + (if status == Some("Green") then 1 else 0),
         amber := row.amber + (if status == Some("Amber") then 1 else 0),
         red := row.red + (if status == Some("Red") then 1 else 0))
  }

  /** One `forEach` step: a project without a tower is skipped; the first project of a tower
      adds its entry at the end. */
  function TowerStep(rows: seq<TowerRow>, tower: string, status: Option<string>, reports: nat): seq<TowerRow> {
    if tower == "" then rows
    else
      match TowerIndex(rows, tower)
      case None => rows + [AddProject(TowerRow(tower, 0, 0, 0, 0, 0), status, reports)]
      case Some(i) => rows[i := AddProject(rows[i], status, reports)]
  }

  function TowerRows(ps: seq<Project>, rs: seq<WeeklyStatusReport>): seq<TowerRow>
    decreases |ps|
  {
    if |ps| == 0 then []
    else
      var p := ps[|ps| - 1];
      TowerStep(TowerRows(ps[..|ps| - 1], rs), p.data.tower, LatestStatus(rs, p.id), Seqs.Count(rs, Storage.OfProject(p.id)))
  }

  /** `towerData` filled by the `forEach`, then `Object.values`. */
  method TowerPerformanceData(projects: Option<seq<Project>>, reports: Option<seq<WeeklyStatusReport>>)
    returns (rows: seq<TowerRow>)
    ensures projects.None? || reports.None? ==> rows == []
    ensures projects.Some? && reports.Some? ==> rows == TowerRows(projects.value, reports.value)
  {
    if projects.None? || reports.None? {
      return [];
    }
    var ps, rs := projects.value, reports.value;
    rows := [];
    for i := 0 to |ps|
      invariant rows == TowerRows(ps[..i], rs)
    {
      var p := ps[i];
      TowerRowsPrefix(ps, i, rs);
      if p.data.tower != "" {
        var k := TowerIndex(rows, p.data.tower);
        var status := LatestStatus(rs, p.id);
        var own := Seqs.Count(rs, Storage.OfProject(p.id));
        if k.None? {
          rows := rows + [AddProject(TowerRow(p.data.tower, 0, 0, 0, 0, 0), status, own)];
        } else {
          rows := rows[k.value := AddProject(rows[k.value], status, own)];
        }
      }
    }
    assert ps[..|ps|] == ps;
  }

  lemma {:induction false} TowerRowsPrefix(ps: seq<Project>, i: nat, rs: seq<WeeklyStatusReport>)
    requires i < |ps|
    ensures TowerRows(ps[..i + 1], rs)
            == TowerStep(TowerRows(ps[..i], rs), ps[i].data.tower, LatestStatus(rs, ps[i].id),
                         Seqs.Count(rs, Storage.OfProject(ps[i].id)))
  {
    assert ps[..i + 1][..i] == ps[..i];
  }

  /** The number of projects that name the tower. */
  function ProjectsIn(ps: seq<Project>, tower: string): nat {
    if |ps| == 0 then 0
    else ProjectsIn(ps[..|ps| - 1], tower) + (if ps[|ps| - 1].data.tower == tower then 1 else 0)
  }

  /** What the tally keeps, part by part. */
  ghost predicate DistinctTowers(rows: seq<TowerRow>) {
    forall i, j :: 0 <= i < j < |rows| ==> rows[i].tower != rows[j].tower
  }

  ghost predicate RowsCountProjects(ps: seq<Project>, rows: seq<TowerRow>) {
    forall i :: 0 <= i < |rows| ==>
      rows[i].tower != "" && rows[i].totalProjects >= 1
      && rows[i].totalProjects == ProjectsIn(ps, rows[i].tower)
      && Coloured(rows[i]) <= rows[i].totalProjects
  }

  ghost predicate CoversTowers(ps: seq<Project>, rows: seq<TowerRow>) {
    forall k :: 0 <= k < |ps| && ps[k].data.tower != "" ==> exists i :: 0 <= i < |rows| && rows[i].tower == ps[k].data.tower
  }

  /** What one step does to the table: entries stay in place, the project's tower gains one
      project and at most one colour, and an entry is added only for a tower not yet listed. */
  ghost predicate StepRelation(rows: seq<TowerRow>, t: string, rows': seq<TowerRow>) {
    (t == "" ==> rows' == rows)
    && |rows| <= |rows'| <= |rows| + 1
    && (forall i :: 0 <= i < |rows| ==> rows'[i].tower == rows[i].tower)
    && (t != "" ==> forall i :: 0 <= i < |rows| ==>
          rows'[i].totalProjects == rows[i].totalProjects + (if rows[i].tower == t then 1 else 0)
          && Coloured(rows'[i]) <= Coloured(rows[i]) + (if rows[i].tower == t then 1 else 0))
    && (|rows'| == |rows| + 1 ==>
          t != "" && rows'[|rows|].tower == t && rows'[|rows|].totalProjects == 1 && Coloured(rows'[|rows|]) <= 1
          && forall i :: 0 <= i < |rows| ==> rows[i].tower != t)
    && (t != "" ==> exists i :: 0 <= i < |rows'| && rows'[i].tower == t)
  }

  lemma {:induction false} TowerStepShape(rows: seq<TowerRow>, t: string, status: Option<string>, reports: nat)
    requires DistinctTowers(rows)
    ensures StepRelation(rows, t, TowerStep(rows, t, status, reports))
  {
    if t != "" {
      var idx := TowerIndex(rows, t);
      if idx.Some? {
        assert TowerStep(rows, t, status, reports)[idx.value].tower == t;
      } else {
        assert TowerStep(rows, t, status, reports)[|rows|].tower == t;
      }
    }
  }

  lemma {:induction false} StepDistinct(rows: seq<TowerRow>, t: string, rows': seq<TowerRow>)
    requires DistinctTowers(rows) && StepRelation(rows, t, rows')
    ensures DistinctTowers(rows')
  {
  }

  lemma {:induction false} StepCovers(ps: seq<Project>, rows: seq<TowerRow>, p: Project, rows': seq<TowerRow>)
    requires CoversTowers(ps, rows) && StepRelation(rows, p.data.tower, rows')
    ensures CoversTowers(ps + [p], rows')
  {
    var ps' := ps + [p];
    forall k | 0 <= k < |ps'| && ps'[k].data.tower != ""
      ensures exists i :: 0 <= i < |rows'| && rows'[i].tower == ps'[k].data.tower
    {
      if k < |ps| {
        assert ps'[k] == ps[k];
        var i :| 0 <= i < |rows| && rows[i].tower == ps[k].data.tower;
        assert rows'[i].tower == rows[i].tower;
      }
    }
  }

  /** A tower no project names has no projects. */
  lemma {:induction false} ProjectsInNone(ps: seq<Project>, tower: string)
    requires forall k :: 0 <= k < |ps| ==> ps[k].data.tower != tower
    ensures ProjectsIn(ps, tower) == 0
    decreases |ps|
  {
    if |ps| > 0 {
      ProjectsInNone(ps[..|ps| - 1], tower);
    }
  }

  lemma {:induction false} StepCounts(ps: seq<Project>, rows: seq<TowerRow>, p: Project, rows': seq<TowerRow>)
    requires RowsCountProjects(ps, rows) && CoversTowers(ps, rows) && StepRelation(rows, p.data.tower, rows')
    ensures RowsCountProjects(ps + [p], rows')
  {
    var ps' := ps + [p];
    assert ps'[..|ps|] == ps;
    forall i | 0 <= i < |rows'|
      ensures rows'[i].tower != "" && rows'[i].totalProjects >= 1
              && rows'[i].totalProjects == ProjectsIn(ps', rows'[i].tower)
              && Coloured(rows'[i]) <= rows'[i].totalProjects
    {
      if i == |rows| {
        forall k | 0 <= k < |ps| ensures ps[k].data.tower != p.data.tower {
          if ps[k].data.tower != "" {
            var j :| 0 <= j < |rows| && rows[j].tower == ps[k].data.tower;
          }
        }
        ProjectsInNone(ps, p.data.tower);
      } else if p.data.tower == "" {
        assert rows'[i] == rows[i];
      }
    }
  }

  /** 1 when the status is the colour. */
  function Hit(status: Option<string>, colour: string): nat {
    if status == Some(colour) then 1 else 0
  }

  /** The number of projects of the tower whose latest report has the colour. */
  function ColourIn(ps: seq<Project>, rs: seq<WeeklyStatusReport>, tower: string, colour: string): nat {
    if |ps| == 0 then 0
    else
      var p := ps[|ps| - 1];
      ColourIn(ps[..|ps| - 1], rs, tower, colour) + (if p.data.tower == tower then Hit(LatestStatus(rs, p.id), colour) else 0)
  }

  /** The number of reports of the tower's projects. */
  function ReportsIn(ps: seq<Project>, rs: seq<WeeklyStatusReport>, tower: string): nat {
    if |ps| == 0 then 0
    else
      var p := ps[|ps| - 1];
      ReportsIn(ps[..|ps| - 1], rs, tower) + (if p.data.tower == tower then Seqs.Count(rs, Storage.OfProject(p.id)) else 0)
  }

  /** Each entry's colour counts and report total are those of its tower's projects. */
  ghost predicate RowsCountColours(ps: seq<Project>, rs: seq<WeeklyStatusReport>, rows: seq<TowerRow>) {
    forall i :: 0 <= i < |rows| ==>
      rows[i].green == ColourIn(ps, rs, rows[i].tower, "Green")
      && rows[i].amber == ColourIn(ps, rs, rows[i].tower, "Amber")
      && rows[i].red == ColourIn(ps, rs, rows[i].tower, "Red")
      && rows[i].totalReports == ReportsIn(ps, rs, rows[i].tower)
  }

  /** What one step does to the colour counts and report totals. */
  ghost predicate StepColours(rows: seq<TowerRow>, t: string, status: Option<string>, own: nat, rows': seq<TowerRow>) {
    |rows| <= |rows'|
    && (t != "" ==> forall i :: 0 <= i < |rows| ==>
          rows'[i].green == rows[i].green + (if rows[i].tower == t then Hit(status, "Green") else 0)
          && rows'[i].amber == rows[i].amber + (if rows[i].tower == t then Hit(status, "Amber") else 0)
          && rows'[i].red == rows[i].red + (if rows[i].tower == t then Hit(status, "Red") else 0)
          && rows'[i].totalReports == rows[i].totalReports + (if rows[i].tower == t then own else 0))
    && (|rows'| == |rows| + 1 ==>
          rows'[|rows|].green == Hit(status, "Green") && rows'[|rows|].amber == Hit(status, "Amber")
          && rows'[|rows|].red == Hit(status, "Red") && rows'[|rows|].totalReports == own)
  }

  lemma {:induction false} TowerStepColours(rows: seq<TowerRow>, t: string, status: Option<string>, own: nat)
    requires DistinctTowers(rows)
    ensures StepColours(rows, t, status, own, TowerStep(rows, t, status, own))
  {
    var rows' := TowerStep(rows, t, status, own);
    if t != "" {
      var idx := TowerIndex(rows, t);
      if idx.Some? {
        var j := idx.value;
        assert rows' == rows[j := AddProject(rows[j], status, own)];
        forall i | 0 <= i < |rows| && i != j ensures rows[i].tower != t {
          if i < j { assert rows[i].tower != rows[j].tower; } else { assert rows[j].tower != rows[i].tower; }
        }
      } else {
        assert rows' == rows + [AddProject(TowerRow(t, 0, 0, 0, 0, 0), status, own)];
      }
    }
  }

  /** One more project adds its latest colour and its reports to its own tower only. */
  lemma {:induction false} ColourInSnoc(ps: seq<Project>, rs: seq<WeeklyStatusReport>, p: Project, tower: string, colour: string)
    ensures ColourIn(ps + [p], rs, tower, colour)
            == ColourIn(ps, rs, tower, colour) + (if p.data.tower == tower then Hit(LatestStatus(rs, p.id), colour) else 0)
    ensures ReportsIn(ps + [p], rs, tower)
            == ReportsIn(ps, rs, tower) + (if p.data.tower == tower then Seqs.Count(rs, Storage.OfProject(p.id)) else 0)
  {
    assert (ps + [p])[..|ps|] == ps;
  }

  /** A tower no project names has no coloured projects and no reports. */
  lemma {:induction false} ColoursInNone(ps: seq<Project>, rs: seq<WeeklyStatusReport>, tower: string)
    requires forall k :: 0 <= k < |ps| ==> ps[k].data.tower != tower
    ensures ColourIn(ps, rs, tower, "Green") == 0 && ColourIn(ps, rs, tower, "Amber") == 0
    ensures ColourIn(ps, rs, tower, "Red") == 0 && ReportsIn(ps, rs, tower) == 0
    decreases |ps|
  {
    if |ps| > 0 {
      ColoursInNone(ps[..|ps| - 1], rs, tower);
    }
  }

  lemma {:induction false} StepColourCounts(ps: seq<Project>, rs: seq<WeeklyStatusReport>, rows: seq<TowerRow>,
                                            p: Project, status: Option<string>, own: nat, rows': seq<TowerRow>)
    requires RowsCountColours(ps, rs, rows) && RowsCountProjects(ps, rows) && CoversTowers(ps, rows)
    requires status == LatestStatus(rs, p.id) && own == Seqs.Count(rs, Storage.OfProject(p.id))
    requires StepRelation(rows, p.data.tower, rows') && StepColours(rows, p.data.tower, status, own, rows')
    ensures RowsCountColours(ps + [p], rs, rows')
  {
    forall i | 0 <= i < |rows'|
      ensures RowColoursOf(ps + [p], rs, rows'[i])
    {
      StepColourRow(ps, rs, rows, p, status, own, rows', i);
    }
  }

  /** An entry's colour counts and report total are those of its tower's projects. */
  ghost predicate RowColoursOf(ps: seq<Project>, rs: seq<WeeklyStatusReport>, row: TowerRow) {
    row.green == ColourIn(ps, rs, row.tower, "Green")
    && row.amber == ColourIn(ps, rs, row.tower, "Amber")
    && row.red == ColourIn(ps, rs, row.tower, "Red")
    && row.totalReports == ReportsIn(ps, rs, row.tower)
  }

  /** One entry after a step counts the colours and reports of its tower's projects. */
  lemma {:induction false} StepColourRow(ps: seq<Project>, rs: seq<WeeklyStatusReport>, rows: seq<TowerRow>,
                                         p: Project, status: Option<string>, own: nat, rows': seq<TowerRow>, i: nat)
    requires RowsCountColours(ps, rs, rows) && RowsCountProjects(ps, rows) && CoversTowers(ps, rows)
    requires status == LatestStatus(rs, p.id) && own == Seqs.Count(rs, Storage.OfProject(p.id))
    requires StepRelation(rows, p.data.tower, rows') && StepColours(rows, p.data.tower, status, own, rows')
    requires i < |rows'|
    ensures RowColoursOf(ps + [p], rs, rows'[i])
  {
    var t := p.data.tower;
    if i == |rows| {
      forall k | 0 <= k < |ps| ensures ps[k].data.tower != t {
        if ps[k].data.tower != "" {
          var j :| 0 <= j < |rows| && rows[j].tower == ps[k].data.tower;
        }
      }
      NewRowColours(ps, rs, p, rows'[i]);
    } else if t == "" {
      assert rows'[i] == rows[i] && rows[i].tower != "";
      KeptRowColours(ps, rs, p, rows[i], rows'[i]);
    } else {
      KeptRowColours(ps, rs, p, rows[i], rows'[i]);
    }
  }

  /** The entry a project's tower first gets holds that project's colour and reports only. */
  lemma {:induction false} NewRowColours(ps: seq<Project>, rs: seq<WeeklyStatusReport>, p: Project, row: TowerRow)
    requires forall k :: 0 <= k < |ps| ==> ps[k].data.tower != p.data.tower
    requires row.tower == p.data.tower
    requires row.green == Hit(LatestStatus(rs, p.id), "Green") && row.amber == Hit(LatestStatus(rs, p.id), "Amber")
    requires row.red == Hit(LatestStatus(rs, p.id), "Red") && row.totalReports == Seqs.Count(rs, Storage.OfProject(p.id))
    ensures RowColoursOf(ps + [p], rs, row)
  {
    ColoursInNone(ps, rs, row.tower);
    ColourInSnoc(ps, rs, p, row.tower, "Green");
    ColourInSnoc(ps, rs, p, row.tower, "Amber");
    ColourInSnoc(ps, rs, p, row.tower, "Red");
  }

  /** An entry already listed gains the project's colour and reports exactly when it is the
      project's tower. */
  lemma {:induction false} KeptRowColours(ps: seq<Project>, rs: seq<WeeklyStatusReport>, p: Project, row: TowerRow, row': TowerRow)
    requires RowColoursOf(ps, rs, row) && row'.tower == row.tower
    requires row'.green == row.green + (if row.tower == p.data.tower then Hit(LatestStatus(rs, p.id), "Green") else 0)
    requires row'.amber == row.amber + (if row.tower == p.data.tower then Hit(LatestStatus(rs, p.id), "Amber") else 0)
    requires row'.red == row.red + (if row.tower == p.data.tower then Hit(LatestStatus(rs, p.id), "Red") else 0)
    requires row'.totalReports
             == row.totalReports + (if row.tower == p.data.tower then Seqs.Count(rs, Storage.OfProject(p.id)) else 0)
    ensures RowColoursOf(ps + [p], rs, row')
  {
    ColourInSnoc(ps, rs, p, row.tower, "Green");
    ColourInSnoc(ps, rs, p, row.tower, "Amber");
    ColourInSnoc(ps, rs, p, row.tower, "Red");
  }

  /** The tower tally: distinct towers, an entry for every tower a project names and only
      for those, each counting that tower's projects, the projects among them whose latest
      report is Green, Amber or Red, and the reports of those projects. */
  lemma {:induction false} TowerRowsTally(ps: seq<Project>, rs: seq<WeeklyStatusReport>)
    ensures DistinctTowers(TowerRows(ps, rs))
    ensures RowsCountProjects(ps, TowerRows(ps, rs))
    ensures RowsCountColours(ps, rs, TowerRows(ps, rs))
    ensures CoversTowers(ps, TowerRows(ps, rs))
    decreases |ps|
  {
    if |ps| > 0 {
      var init, p := ps[..|ps| - 1], ps[|ps| - 1];
      TowerRowsTally(init, rs);
      Seqs.InitLast(ps);
      var rows := TowerRows(init, rs);
      var status, own := LatestStatus(rs, p.id), Seqs.Count(rs, Storage.OfProject(p.id));
      TowerStepTally(init, rows, p, status, own);
      TowerStepShape(rows, p.data.tower, status, own);
      TowerStepColours(rows, p.data.tower, status, own);
      StepColourCounts(init, rs, rows, p, status, own, TowerStep(rows, p.data.tower, status, own));
    }
  }

  /** One step of the tally keeps its three properties. */
  lemma {:induction false} TowerStepTally(ps: seq<Project>, rows: seq<TowerRow>, p: Project, status: Option<string>, own: nat)
    requires DistinctTowers(rows) && RowsCountProjects(ps, rows) && CoversTowers(ps, rows)
    ensures var rows' := TowerStep(rows, p.data.tower, status, own);
            DistinctTowers(rows') && RowsCountProjects(ps + [p], rows') && CoversTowers(ps + [p], rows')
  {
    TowerStepShape(rows, p.data.tower, status, own);
    var rows' := TowerStep(rows, p.data.tower, status, own);
    StepDistinct(rows, p.data.tower, rows');
    StepCovers(ps, rows, p, rows');
    StepCounts(ps, rows, p, rows');
  }

  // ---------------------------------------------------------------------------------------
  // getProjectMetrics

  datatype ProjectMetrics = ProjectMetrics(
    totalProjects: nat, activeProjects: nat, atRiskProjects: int,
    portfolioHealth: string, projectSummary: ProjectCounts, reason: string,
    weeklyReports: seq<WeeklyStatusReport>)

  /** `count || 0` on a count of the analysis. */
  function CountOrZero(c: Option<int>): int {
    if c.Some? then c.value else 0
  }

  /** `null` unless the projects, the reports and an analysis are all loaded; at-risk is red
      plus amber, a missing count taken as 0. */
  function GetProjectMetrics(projects: Option<seq<Project>>, reports: Option<seq<WeeklyStatusReport>>,
                             analysis: Option<PortfolioAnalysis>): (m: Option<ProjectMetrics>)
    ensures m.None? <==> projects.None? || reports.None? || analysis.None?
    ensures m.Some? ==> m.value.totalProjects == |projects.value|
                        && m.value.activeProjects == Seqs.Count(projects.value, Storage.IsActiveProject)
                        && m.value.activeProjects <= m.value.totalProjects
                        && ((m.value.activeProjects == m.value.totalProjects)
                              <==> (forall i :: 0 <= i < |projects.value| ==> projects.value[i].isActive))
    ensures m.Some? && analysis.value.projectsAnalyzed.None? ==> m.value.atRiskProjects == 0
    ensures m.Some? && analysis.value.projectsAnalyzed.Some? ==>
              m.value.atRiskProjects == CountOrZero(analysis.value.projectsAnalyzed.value.red)
                                        + CountOrZero(analysis.value.projectsAnalyzed.value.amber)
    ensures m.Some? ==> m.value.portfolioHealth == analysis.value.overallPortfolioRagStatus
                        && m.value.reason == analysis.value.reason
                        && m.value.weeklyReports == reports.value
  {
    if projects.None? || reports.None? || analysis.None? then None
    else
      var ps := projects.value;
      var a := analysis.value;
      var counts := a.projectsAnalyzed.GetOr(ProjectCounts(None, None, None, None));
      Seqs.CountAll(ps, Storage.IsActiveProject);
      Some(ProjectMetrics(
        |ps|, Seqs.Count(ps, Storage.IsActiveProject),
        counts.red.GetOr(0) + counts.amber.GetOr(0),
        a.overallPortfolioRagStatus, counts, a.reason, reports.value))
  }
}
