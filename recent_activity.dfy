/** The dashboard's recent activity feed: an entry for each of the first three reports, an
    escalation entry beside each one with a truthy escalation text, an entry for each of the
    first two reviews, newest first, at most six; and the relative time shown beside each
    entry. The feed follows the code as written; the corrected readings of the escalation
    test and of the review text are defined beside it. */
module RecentActivity {
  import opened Outcomes
  import Js
  import Seqs
  import opened Schema

  datatype Kind = Report | Escalation | Review

  /** An entry of the feed; the icon and colours follow from the kind and are left out. */
  datatype ActivityItem = ActivityItem(id: string, kind: Kind, title: string, description: string, timestamp: int)

  /** A possibly missing string inside a template literal. */
  function Rendered(o: Option<string>): (s: string)
    ensures o.Some? ==> s == o.value
    ensures o.None? ==> s == "undefined"
  {
    if o.Some? then o.value else "undefined"
  }

  function ReportItem(r: WeeklyStatusReport): ActivityItem {
    ActivityItem("report-" + Js.IntToString(r.id), Report, "Weekly Report Submitted",
                 "Project status updated to " + Rendered(r.data.ragStatus), r.createdAt)
  }

  function EscalationItem(r: WeeklyStatusReport): ActivityItem {
    ActivityItem("escalation-" + Js.IntToString(r.id), Escalation, "Client Escalation Reported",
                 "Requires immediate attention", r.createdAt)
  }

  // ---------------------------------------------------------------------------------------
  // Which reports count as escalated

  /** As written: any truthy escalation text, `"None"` included. */
  predicate TruthyEscalation(r: WeeklyStatusReport) {
    r.data.clientEscalation != ""
  }

  /** The entries of one report as written, the ones the feed shows: its own, then an
      escalation entry when the escalation text is truthy, so a `"None"` text still adds one. */
  function ReportItemsAsWritten(r: WeeklyStatusReport): (items: seq<ActivityItem>)
    ensures |items| == 1 || |items| == 2
    ensures |items| == 2 <==> r.data.clientEscalation != ""
    ensures items[0] == ReportItem(r)
    ensures |items| == 2 ==> items[1] == EscalationItem(r)
  {
    [ReportItem(r)] + (if TruthyEscalation(r) then [EscalationItem(r)] else [])
  }

  /** The project card's test: an escalation text that is present and not `"None"`. */
  predicate Escalated(r: WeeklyStatusReport) {
    r.data.clientEscalation != "" && r.data.clientEscalation != "None"
  }

  /** The entries of one report in the corrected reading: its own, then an escalation entry
      when it is escalated in the project card's sense. */
  function ReportItems(r: WeeklyStatusReport): (items: seq<ActivityItem>)
    ensures |items| == 1 || |items| == 2
    ensures |items| == 2 <==> Escalated(r)
    ensures items[0] == ReportItem(r)
    ensures |items| == 2 ==> items[1] == EscalationItem(r)
  {
    [ReportItem(r)] + (if Escalated(r) then [EscalationItem(r)] else [])
  }

  /** A report whose escalation text is the `"None"` the Excel import stores gets an escalation
      entry as written, and none once the text is compared with `"None"`. */
  lemma {:induction false} NoneEscalationFlagged(r: WeeklyStatusReport)
    requires r.data.clientEscalation == "None"
    ensures |ReportItemsAsWritten(r)| == 2 && ReportItemsAsWritten(r)[1].kind == Escalation
    ensures ReportItems(r) == [ReportItem(r)]
  {
  }

  /** Both readings agree on every other escalation text. */
  lemma {:induction false} EscalationReadingsAgree(r: WeeklyStatusReport)
    requires r.data.clientEscalation != "None"
    ensures ReportItemsAsWritten(r) == ReportItems(r)
  {
  }

  // ---------------------------------------------------------------------------------------
  // The conductor of a review

  /** As written, the entry the feed shows: the template reads `conductorId`, which no review
      has, so it renders `undefined`. */
  function ReviewItemAsWritten(v: TechnicalReview): ActivityItem {
    ActivityItem("review-" + Js.IntToString(v.id), Review, "Technical Review Completed",
                 v.data.reviewType + " review by " + Rendered(None), v.createdAt)
  }

  /** The description as written is the same whoever conducted the review. */
  lemma {:induction false} AsWrittenIgnoresConductor(v: TechnicalReview, c: Option<int>)
    ensures ReviewItemAsWritten(v).description == v.data.reviewType + " review by undefined"
    ensures ReviewItemAsWritten(v) == ReviewItemAsWritten(v.(data := v.data.(conductedBy := c)))
  {
  }

  /** `${review.conductedBy}`: the id, or `null` for a review without a conductor. */
  function ConductorText(c: Option<int>): (s: string)
    ensures c.Some? ==> Js.ParseInt(s) == c
    ensures c.None? ==> s == "null"
  {
    if c.Some? then Js.ParseIntOfIntToString(c.value); Js.IntToString(c.value) else "null"
  }

  /** `parseInt("null")` is `NaN`. */
  lemma {:induction false} NullIsNotANumber()
    ensures Js.ParseInt("null") == None
  {
    var s := "null";
    assert s[0] == 'n' && !Js.IsWhite(s[0]) && !Js.IsDigit(s[0]);
    Js.TrimStartNoWhite(s);
    assert Js.DigitPrefix(s) == "";
  }

  /** Different conductors, or a conductor and none, render differently. */
  lemma {:induction false} ConductorTextInjective(c: Option<int>, d: Option<int>)
    requires c != d
    ensures ConductorText(c) != ConductorText(d)
  {
    NullIsNotANumber();
    if c.Some? || d.Some? {
      assert Js.ParseInt(ConductorText(c)) != Js.ParseInt(ConductorText(d));
    }
  }

  /** The review entry in the corrected reading, naming `conductedBy`. */
  function ReviewItem(v: TechnicalReview): ActivityItem {
    ActivityItem("review-" + Js.IntToString(v.id), Review, "Technical Review Completed",
                 v.data.reviewType + " review by " + ConductorText(v.data.conductedBy), v.createdAt)
  }

  /** Two reviews of one type by different conductors read differently. */
  lemma {:induction false} ReviewItemNamesConductor(v: TechnicalReview, w: TechnicalReview)
    requires v.data.reviewType == w.data.reviewType && v.data.conductedBy != w.data.conductedBy
    ensures ReviewItem(v).description != ReviewItem(w).description
  {
    ConductorTextInjective(v.data.conductedBy, w.data.conductedBy);
    Seqs.PrefixCancel(v.data.reviewType + " review by ", ConductorText(v.data.conductedBy), ConductorText(w.data.conductedBy));
    assert ReviewItem(v).description == (v.data.reviewType + " review by ") + ConductorText(v.data.conductedBy);
  }

  // ---------------------------------------------------------------------------------------
  // The feed

  const RecentReports := 3
  const RecentReviews := 2
  const MaxItems := 6

  /** The entries of the reports in order, each report's own entry then its escalation, as
      the code is written. */
  function ReportActivities(rs: seq<WeeklyStatusReport>): seq<ActivityItem> {
    Seqs.FlatMap(rs, ReportItemsAsWritten)
  }

  function ReviewActivities(vs: seq<TechnicalReview>): seq<ActivityItem> {
    Seqs.Map(vs, ReviewItemAsWritten)
  }

  /** The entries before sorting: the reports' entries, then the reviews'. */
  function Collected(reports: Option<seq<WeeklyStatusReport>>, reviews: Option<seq<TechnicalReview>>): seq<ActivityItem> {
    (if reports.Some? then ReportActivities(Js.Slice(reports.value, 0, RecentReports)) else [])
    + (if reviews.Some? then ReviewActivities(Js.Slice(reviews.value, 0, RecentReviews)) else [])
  }

  function Timestamp(x: ActivityItem): int { x.timestamp }

  /** `activities.sort(newest first).slice(0, 6)`. */
  function ActivityItems(reports: Option<seq<WeeklyStatusReport>>, reviews: Option<seq<TechnicalReview>>): seq<ActivityItem> {
    Js.Slice(Seqs.SortDesc(Collected(reports, reviews), Timestamp), 0, MaxItems)
  }

  /** `reports.slice(0, 3).forEach(...)`: each report's entry, then its escalation entry. */
  method PushReportItems(activities: seq<ActivityItem>, recent: seq<WeeklyStatusReport>) returns (out: seq<ActivityItem>)
    ensures out == activities + ReportActivities(recent)
  {
    out := activities;
    var i := 0;
    while i < |recent|
      invariant 0 <= i <= |recent|
      invariant out == activities + ReportActivities(recent[..i])
    {
      var before := out;
      out := PushReport(before, recent[i]);
      PushReportStep(activities, recent, i, before, out);
      i := i + 1;
    }
    assert recent[..|recent|] == recent;
  }

  /** The body of the `forEach`: the report's entry, then its escalation entry when the
      escalation text is truthy. */
  method PushReport(activities: seq<ActivityItem>, r: WeeklyStatusReport) returns (out: seq<ActivityItem>)
    ensures out == activities + ReportItemsAsWritten(r)
  {
    out := activities + [ReportItem(r)];
    if r.data.clientEscalation != "" {
      out := out + [EscalationItem(r)];
      Seqs.AppendAssoc(activities, [ReportItem(r)], [EscalationItem(r)]);
    }
  }

  /** Pushing one report's entries extends the feed by that report. */
  lemma {:induction false} PushReportStep(activities: seq<ActivityItem>, recent: seq<WeeklyStatusReport>, i: nat,
                                          before: seq<ActivityItem>, out: seq<ActivityItem>)
    requires i < |recent| && before == activities + ReportActivities(recent[..i])
    requires out == before + ReportItemsAsWritten(recent[i])
    ensures out == activities + ReportActivities(recent[..i + 1])
  {
    Seqs.FlatMapSnoc(recent, i, ReportItemsAsWritten);
    Seqs.AppendAssoc(activities, ReportActivities(recent[..i]), ReportItemsAsWritten(recent[i]));
  }

  /** `reviews.slice(0, 2).forEach(...)`: each review's entry. */
  method PushReviewItems(activities: seq<ActivityItem>, recent: seq<TechnicalReview>) returns (out: seq<ActivityItem>)
    ensures out == activities + ReviewActivities(recent)
  {
    out := activities;
    var j := 0;
    while j < |recent|
      invariant 0 <= j <= |recent|
      invariant out == activities + ReviewActivities(recent[..j])
    {
      Seqs.MapSnoc(recent, j, ReviewItemAsWritten);
      Seqs.AppendAssoc(activities, ReviewActivities(recent[..j]), [ReviewItemAsWritten(recent[j])]);
      out := out + [ReviewItemAsWritten(recent[j])];
      j := j + 1;
    }
    assert recent[..|recent|] == recent;
  }

  /** `generateActivityItems`: the two loops pushing entries, then the sort and the slice. */
  method GenerateActivityItems(reports: Option<seq<WeeklyStatusReport>>, reviews: Option<seq<TechnicalReview>>)
    returns (items: seq<ActivityItem>)
    ensures items == ActivityItems(reports, reviews)
  {
    var fromReports: seq<ActivityItem> := [];
    if reports.Some? {
      fromReports := PushReportItems([], Js.Slice(reports.value, 0, RecentReports));
      assert [] + ReportActivities(Js.Slice(reports.value, 0, RecentReports))
             == ReportActivities(Js.Slice(reports.value, 0, RecentReports));
    }
    var fromReviews: seq<ActivityItem> := [];
    if reviews.Some? {
      fromReviews := PushReviewItems([], Js.Slice(reviews.value, 0, RecentReviews));
      assert [] + ReviewActivities(Js.Slice(reviews.value, 0, RecentReviews))
             == ReviewActivities(Js.Slice(reviews.value, 0, RecentReviews));
    }
    var activities := fromReports + fromReviews;
    items := Js.Slice(Seqs.SortDesc(activities, Timestamp), 0, MaxItems);
  }

  // ---------------------------------------------------------------------------------------
  // What the feed holds

  /** `x` is one of the entries of report `r`: its own, or the escalation entry of a report
      with a truthy escalation text. */
  predicate ItemOf(x: ActivityItem, r: WeeklyStatusReport) {
    x == ReportItem(r) || (r.data.clientEscalation != "" && x == EscalationItem(r))
  }

  /** `x` is an entry of one of the reports. */
  predicate FromReport(x: ActivityItem, rs: seq<WeeklyStatusReport>) {
    exists i :: 0 <= i < |rs| && ItemOf(x, rs[i])
  }

  function IsEscalated(): WeeklyStatusReport -> bool {
    (r: WeeklyStatusReport) => TruthyEscalation(r)
  }

  /** One entry per report and one more per report whose escalation text is truthy. */
  lemma {:induction false} ReportActivitiesCount(rs: seq<WeeklyStatusReport>)
    ensures |ReportActivities(rs)| == |rs| + Seqs.Count(rs, IsEscalated())
    decreases |rs|
  {
    if |rs| > 0 {
      ReportActivitiesCount(rs[..|rs| - 1]);
      Seqs.CountPrefix(rs, |rs| - 1, IsEscalated());
      assert rs[..|rs|] == rs;
    }
  }

  /** Each entry belongs to a report, and each report's entries are there. */
  lemma {:induction false} ReportActivitiesMembers(rs: seq<WeeklyStatusReport>, x: ActivityItem)
    ensures x in ReportActivities(rs) <==> FromReport(x, rs)
  {
    Seqs.FlatMapMembers(rs, ReportItemsAsWritten, x);
    if x in ReportActivities(rs) {
      var i :| 0 <= i < |rs| && x in ReportItemsAsWritten(rs[i]);
      ItemsOfReport(x, rs[i]);
    }
    if FromReport(x, rs) {
      var i :| 0 <= i < |rs| && ItemOf(x, rs[i]);
      ItemsOfReport(x, rs[i]);
    }
  }

  /** The entries of one report are exactly the items of that report. */
  lemma {:induction false} ItemsOfReport(x: ActivityItem, r: WeeklyStatusReport)
    ensures x in ReportItemsAsWritten(r) <==> ItemOf(x, r)
  {
    var items := ReportItemsAsWritten(r);
    assert x in items <==> x == items[0] || (|items| == 2 && x == items[1]);
  }

  /** An entry of the feed is an entry of one of the first three reports or of one of the
      first two reviews, and every such entry is in the feed. */
  lemma {:induction false} CollectedMembers(reports: seq<WeeklyStatusReport>, reviews: seq<TechnicalReview>, x: ActivityItem)
    ensures var rs := if |reports| < RecentReports then reports else reports[..RecentReports];
            var vs := if |reviews| < RecentReviews then reviews else reviews[..RecentReviews];
            x in Collected(Some(reports), Some(reviews))
            <==> FromReport(x, rs) || exists j :: 0 <= j < |vs| && x == ReviewItemAsWritten(vs[j])
  {
    Js.SliceFromStart(reports, RecentReports);
    Js.SliceFromStart(reviews, RecentReviews);
    ReportActivitiesMembers(Js.Slice(reports, 0, RecentReports), x);
  }

  /** The feed is empty exactly when there is no report and no review to show. */
  lemma {:induction false} CollectedEmpty(reports: Option<seq<WeeklyStatusReport>>, reviews: Option<seq<TechnicalReview>>)
    ensures Collected(reports, reviews) == []
            <==> (reports.None? || reports.value == []) && (reviews.None? || reviews.value == [])
  {
    if reports.Some? {
      var recent := Js.Slice(reports.value, 0, RecentReports);
      Js.SliceFromStart(reports.value, RecentReports);
      ReportActivitiesCount(recent);
    }
    if reviews.Some? {
      Js.SliceFromStart(reviews.value, RecentReviews);
    }
  }

  /** Before the slice: the first three reports' entries, one more per truthy escalation
      text, and the first two reviews'. */
  lemma {:induction false} CollectedCount(reports: seq<WeeklyStatusReport>, reviews: seq<TechnicalReview>)
    ensures var rs := if |reports| < RecentReports then reports else reports[..RecentReports];
            var vs := if |reviews| < RecentReviews then reviews else reviews[..RecentReviews];
            |Collected(Some(reports), Some(reviews))| == |rs| + Seqs.Count(rs, IsEscalated()) + |vs|
  {
    Js.SliceFromStart(reports, RecentReports);
    Js.SliceFromStart(reviews, RecentReviews);
    ReportActivitiesCount(Js.Slice(reports, 0, RecentReports));
  }

  /** The feed shows the six newest entries, or all of them when there are fewer. */
  lemma {:induction false} ActivityItemsPrefix(reports: Option<seq<WeeklyStatusReport>>, reviews: Option<seq<TechnicalReview>>)
    ensures |ActivityItems(reports, reviews)| <= MaxItems
    ensures |ActivityItems(reports, reviews)|
            == if |Collected(reports, reviews)| < MaxItems then |Collected(reports, reviews)| else MaxItems
    ensures ActivityItems(reports, reviews)
            == Seqs.SortDesc(Collected(reports, reviews), Timestamp)[..|ActivityItems(reports, reviews)|]
  {
    Js.SliceFromStart(Seqs.SortDesc(Collected(reports, reviews), Timestamp), MaxItems);
  }

  /** The entries shown are entries of the feed, newest first. */
  lemma {:induction false} ActivityItemsSorted(reports: Option<seq<WeeklyStatusReport>>, reviews: Option<seq<TechnicalReview>>)
    ensures Seqs.SortedDesc(ActivityItems(reports, reviews), Timestamp)
    ensures forall x :: x in ActivityItems(reports, reviews) ==> x in Collected(reports, reviews)
  {
    ActivityItemsPrefix(reports, reviews);
    Seqs.SortDescPrefix(Collected(reports, reviews), Timestamp, |ActivityItems(reports, reviews)|);
  }

  /** An entry left out is no newer than any entry shown. */
  lemma {:induction false} ActivityItemsNewest(reports: Option<seq<WeeklyStatusReport>>, reviews: Option<seq<TechnicalReview>>,
                                              x: ActivityItem, y: ActivityItem)
    requires x in Collected(reports, reviews) && x !in ActivityItems(reports, reviews)
    requires y in ActivityItems(reports, reviews)
    ensures x.timestamp <= y.timestamp
  {
    ActivityItemsPrefix(reports, reviews);
    Seqs.SortDescPrefixNewest(Collected(reports, reviews), Timestamp, |ActivityItems(reports, reviews)|, x, y);
  }

  /** Entries with one timestamp keep their collected order: those shown are the first
      collected entries with that timestamp, so a report's escalation entry is shown only
      after its own. With six entries or fewer all of them are shown. */
  lemma {:induction false} ActivityItemsStable(reports: Option<seq<WeeklyStatusReport>>, reviews: Option<seq<TechnicalReview>>, t: int)
    ensures var shown := Seqs.WithKey(ActivityItems(reports, reviews), Timestamp, t);
            var all := Seqs.WithKey(Collected(reports, reviews), Timestamp, t);
            |shown| <= |all| && shown == all[..|shown|]
    ensures |Collected(reports, reviews)| <= MaxItems
            ==> Seqs.WithKey(ActivityItems(reports, reviews), Timestamp, t) == Seqs.WithKey(Collected(reports, reviews), Timestamp, t)
  {
    ActivityItemsPrefix(reports, reviews);
    Seqs.SortDescPrefixStable(Collected(reports, reviews), Timestamp, |ActivityItems(reports, reviews)|, t,
                              ActivityItems(reports, reviews));
  }

  // ---------------------------------------------------------------------------------------
  // formatRelativeTime

  const MinuteMs := 60000
  const HourMs := 60 * MinuteMs
  const DayMs := 24 * HourMs

  /** Minutes below an hour, then hours below a day, then days; each count rounded down. */
  function FormatRelativeTime(now: int, t: int): (s: string)
    ensures now - t < HourMs ==> s == Js.IntToString((now - t) / MinuteMs) + "m ago"
    ensures HourMs <= now - t < DayMs ==> s == Js.IntToString((now - t) / HourMs) + "h ago"
    ensures DayMs <= now - t ==> s == Js.IntToString((now - t) / DayMs) + "d ago"
  {
    var diff := now - t;
    var minutes := diff / MinuteMs;
    var hours := diff / HourMs;
    var days := diff / DayMs;
    MinutesBelowHour(diff);
    HoursBelowDay(diff);
    if minutes < 60 then Js.IntToString(minutes) + "m ago"
    else if hours < 24 then Js.IntToString(hours) + "h ago"
    else Js.IntToString(days) + "d ago"
  }

  /** Under sixty whole minutes is exactly under an hour. */
  lemma {:induction false} MinutesBelowHour(diff: int)
    ensures diff / MinuteMs < 60 <==> diff < HourMs
  {
    var q, r := diff / MinuteMs, diff % MinuteMs;
    assert diff == q * MinuteMs + r && 0 <= r < MinuteMs;
  }

  /** Under twenty-four whole hours is exactly under a day. */
  lemma {:induction false} HoursBelowDay(diff: int)
    ensures diff / HourMs < 24 <==> diff < DayMs
  {
    var q, r := diff / HourMs, diff % HourMs;
    assert diff == q * HourMs + r && 0 <= r < HourMs;
  }

  /** The number shown lies in its unit's range: under an hour 0 to 59 minutes for an entry
      that is not in the future, 1 to 23 hours, at least one day. */
  lemma {:induction false} RelativeTimeRanges(now: int, t: int)
    ensures 0 <= now - t < HourMs ==> 0 <= (now - t) / MinuteMs < 60
    ensures HourMs <= now - t < DayMs ==> 1 <= (now - t) / HourMs < 24
    ensures DayMs <= now - t ==> (now - t) / DayMs >= 1
  {
  }
}
