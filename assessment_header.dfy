/** The AI assessment banner of the dashboard: the primary recommendation, the project counts
    read out of the analysis text, the summary line and the number of strategic projects. */
module AssessmentHeader {
  import opened Outcomes
  import Js
  import Seqs
  import Regex
  import opened Schema
  import Analytics

  /** `analysis?.reason ? getPrimaryRecommendation(analysis.reason) : ""`; the helper is the
      same as the analytics page's. */
  function HeaderRecommendation(analysis: Option<PortfolioAnalysis>): (r: string)
    ensures r == "" <==> analysis.None? || analysis.value.reason == ""
    ensures r != "" ==> r == Analytics.PrimaryRecommendation(analysis.value.reason)
  {
    if analysis.Some? && analysis.value.reason != "" then
      Analytics.PrimaryRecommendationNonEmpty(analysis.value.reason);
      Analytics.PrimaryRecommendation(analysis.value.reason)
    else ""
  }

  // ---------------------------------------------------------------------------------------
  // extractMetrics

  datatype Metrics = Metrics(green: int, amber: int, red: int)

  /** `m = reason.match(/(\d+)\s*projects.*?colour/i); m ? parseInt(m[1]) : 0`. */
  function ExtractCount(reason: string, colour: string): int {
    match Regex.SearchCount(reason, colour, 0)
    case Some(ds) => Js.ParseInt(ds).GetOr(0)
    case None => 0
  }

  /** The count is the decimal value of the digits of the leftmost match. */
  lemma {:induction false} ExtractCountFound(reason: string, colour: string, i: nat, d: nat, w: nat, e: nat)
    requires i <= |reason| && Regex.CountMatchAt(reason, colour, i, d, w, e)
    requires forall j: nat, d': nat, w': nat, e': nat :: j < i ==> !Regex.CountMatchAt(reason, colour, j, d', w', e')
    ensures forall k :: i <= k < d ==> Js.IsDigit(reason[k])
    ensures ExtractCount(reason, colour) == Js.DecimalValue(reason[i..d])
  {
    Regex.CountAtMeaning(reason, colour, i);
    forall j | 0 <= j < i ensures Regex.CountAt(reason, colour, j).None? {
      Regex.CountAtMeaning(reason, colour, j);
    }
    var r := Regex.SearchCount(reason, colour, 0);
    var i' :| 0 <= i' <= |reason| && r == Regex.CountAt(reason, colour, i')
              && forall j :: 0 <= j < i' ==> Regex.CountAt(reason, colour, j).None?;
    assert i' == i;
    Js.ParseIntOfDigits(reason[i..d]);
  }

  /** Without a match the count is zero. */
  lemma {:induction false} ExtractCountMissing(reason: string, colour: string)
    requires forall i: nat, d: nat, w: nat, e: nat :: !Regex.CountMatchAt(reason, colour, i, d, w, e)
    ensures ExtractCount(reason, colour) == 0
  {
    forall i | 0 <= i <= |reason| ensures Regex.CountAt(reason, colour, i).None? {
      Regex.CountAtMeaning(reason, colour, i);
    }
  }

  /** A count found in the text is never negative. */
  lemma {:induction false} ExtractCountNatural(reason: string, colour: string)
    ensures ExtractCount(reason, colour) >= 0
  {
    var r := Regex.SearchCount(reason, colour, 0);
    if r.Some? {
      Js.ParseIntOfDigits(r.value);
    }
  }

  /** `analysis ? extractMetrics(analysis.reason) : {green: 0, amber: 0, red: 0}`. */
  function HeaderMetrics(analysis: Option<PortfolioAnalysis>): (m: Metrics)
    ensures analysis.None? ==> m == Metrics(0, 0, 0)
    ensures analysis.Some? ==> m.green == ExtractCount(analysis.value.reason, "Green")
                               && m.amber == ExtractCount(analysis.value.reason, "Amber")
                               && m.red == ExtractCount(analysis.value.reason, "Red")
  {
    if analysis.None? then Metrics(0, 0, 0)
    else
      var reason := analysis.value.reason;
      Metrics(ExtractCount(reason, "Green"), ExtractCount(reason, "Amber"), ExtractCount(reason, "Red"))
  }

  function Total(m: Metrics): int {
    m.green + m.amber + m.red
  }

  /** The three counts, and so their total, are never negative. */
  lemma {:induction false} HeaderMetricsNatural(analysis: Option<PortfolioAnalysis>)
    ensures var m := HeaderMetrics(analysis);
            m.green >= 0 && m.amber >= 0 && m.red >= 0 && Total(m) >= 0
  {
    if analysis.Some? {
      ExtractCountNatural(analysis.value.reason, "Green");
      ExtractCountNatural(analysis.value.reason, "Amber");
      ExtractCountNatural(analysis.value.reason, "Red");
    }
  }

  // ---------------------------------------------------------------------------------------
  // getSummaryText, strategicCount

  const HighRisk := "High risk projects need immediate attention"
  const NeedsMonitoring := "Several projects require monitoring"
  const Stable := "Portfolio showing stable performance"

  /** High risk beats monitoring: more than ten red projects, then more than fifteen amber. */
  function SummaryText(m: Metrics): (t: string)
    ensures t in {HighRisk, NeedsMonitoring, Stable}
    ensures (t == HighRisk) <==> m.red > 10
    ensures (t == NeedsMonitoring) <==> m.red <= 10 && m.amber > 15
    ensures (t == Stable) <==> m.red <= 10 && m.amber <= 15
  {
    if m.red > 10 then HighRisk else if m.amber > 15 then NeedsMonitoring else Stable
  }

  /** Without an analysis the banner reads stable. */
  lemma {:induction false} NoAnalysisReadsStable()
    ensures SummaryText(HeaderMetrics(None)) == Stable
    ensures HeaderRecommendation(None) == ""
  {
  }

  function IsStrategic(): Project -> bool {
    (p: Project) => p.data.projectImportance == "Strategic"
  }

  /** `projects?.filter(p => p.projectImportance === "Strategic").length || 0`. */
  function StrategicCount(projects: Option<seq<Project>>): (n: nat)
    ensures projects.None? ==> n == 0
    ensures projects.Some? ==> n <= |projects.value|
    ensures projects.Some? ==> (n == 0 <==> forall i :: 0 <= i < |projects.value| ==> projects.value[i].data.projectImportance != "Strategic")
  {
    if projects.None? then 0 else Seqs.Count(projects.value, IsStrategic())
  }
}
