/** The AI summariser (`server/services/openaiService.ts`): a per-project summary produced
    from the chat-completion reply, or a rule-based fallback when the call or its reply fails,
    and the portfolio summary aggregated over the project summaries.

    The HTTP call is not modelled: its outcome is a parameter (`None` when the request fails
    or the reply carries no content). `JSON.parse` is a parameter too, from the extracted
    text to the fields the code reads (`None` when it throws). */
module OpenAIService {
  import opened Outcomes
  import Js
  import Seqs
  import opened ExcelParser

  datatype ProjectSummary = ProjectSummary(
    projectName: string,
    overallHealth: string,
    riskLevel: string,
    keyInsights: seq<string>,
    recommendations: seq<string>,
    summary: string,
    criticalIssues: seq<string>,
    successFactors: seq<string>)

  /** The fields `parseAIResponse` reads from the parsed JSON. A text field is `""` when it is
      absent or falsy; a list field is `None` when it is not an array. */
  datatype AiFields = AiFields(
    overallHealth: string,
    riskLevel: string,
    keyInsights: Option<seq<string>>,
    recommendations: Option<seq<string>>,
    summary: string,
    criticalIssues: Option<seq<string>>,
    successFactors: Option<seq<string>>)

  const MissingKey := "OpenAI API key is not configured"
  const ParseFailure := "Failed to parse AI analysis response"

  // ---------------------------------------------------------------------------------------
  // parseAIResponse

  /** The first index of `c` in `s`, if any. */
  function FirstIndex(s: string, c: char): (r: Option<nat>)
    ensures r.None? <==> c !in s
    ensures r.Some? ==> r.value < |s| && s[r.value] == c && forall k :: 0 <= k < r.value ==> s[k] != c
  {
    if c in s then
      var i := Js.IndexOfChar(s, c);
      assert forall k :: 0 <= k < i ==> s[k] == s[..i][k];
      Some(i)
    else None
  }

  /** The last index of `c` in `s`, if any. */
  function LastIndex(s: string, c: char): (r: Option<nat>)
    ensures r.None? <==> c !in s
    ensures r.Some? ==> r.value < |s| && s[r.value] == c && forall k :: r.value < k < |s| ==> s[k] != c
  {
    if |s| == 0 then None
    else if s[|s| - 1] == c then Some(|s| - 1)
    else
      var r := LastIndex(s[..|s| - 1], c);
      assert c in s <==> c in s[..|s| - 1] by {
        assert s == s[..|s| - 1] + [s[|s| - 1]];
      }
      assert forall k :: 0 <= k < |s| - 1 ==> s[k] == s[..|s| - 1][k];
      r
  }

  /** `s.match(/\{[\s\S]*\}/)?.[0]`: the greedy match runs from the first `{` to the last `}`
      that follows it. */
  function ExtractJson(s: string): (r: Option<string>)
    ensures r.Some? ==> |r.value| >= 2 && r.value[0] == '{' && r.value[|r.value| - 1] == '}'
    ensures r.Some? <==> exists i, j :: 0 <= i < j < |s| && s[i] == '{' && s[j] == '}'
    ensures r.Some? ==> exists i, j :: 0 <= i < j < |s| && s[i] == '{' && s[j] == '}'
                          && r.value == s[i..j + 1] && '{' !in s[..i] && '}' !in s[j + 1..]
  {
    match FirstIndex(s, '{')
    case None => None
    case Some(i) =>
      match LastIndex(s, '}')
      case None => None
      case Some(j) =>
        if i < j then
          OutsideSpan(s, i, j);
          Some(s[i..j + 1])
        else
          NoSpanAfter(s, i, j);
          None
  }

  /** Neither brace occurs outside the span from the first `{` to the last `}`. */
  lemma OutsideSpan(s: string, i: nat, j: nat)
    requires i < j < |s| && s[i] == '{' && s[j] == '}'
    requires forall k :: 0 <= k < i ==> s[k] != '{'
    requires forall k :: j < k < |s| ==> s[k] != '}'
    ensures '{' !in s[..i] && '}' !in s[j + 1..]
  {
    forall k | 0 <= k < i ensures s[..i][k] != '{' {
      assert s[..i][k] == s[k];
    }
    var after := s[j + 1..];
    forall k | 0 <= k < |after| ensures after[k] != '}' {
      assert after[k] == s[j + 1 + k];
    }
  }

  /** When the last `}` comes no later than the first `{`, no `}` follows a `{`. */
  lemma NoSpanAfter(s: string, i: nat, j: nat)
    requires j <= i < |s|
    requires forall k :: 0 <= k < i ==> s[k] != '{'
    requires forall k :: j < k < |s| ==> s[k] != '}'
    ensures !exists a, b :: 0 <= a < b < |s| && s[a] == '{' && s[b] == '}'
  {
    forall a, b | 0 <= a < b < |s| && s[a] == '{' ensures s[b] != '}' {
      assert a >= i;
    }
  }

  /** `value || dflt` on text. */
  function Or(value: string, dflt: string): string {
    if value != "" then value else dflt
  }

  /** `Array.isArray(v) ? v : []`. */
  function ListOrEmpty(v: Option<seq<string>>): seq<string> {
    match v
    case Some(l) => l
    case None => []
  }

  /** The summary built from the parsed fields: a given text or list is kept as it is, a
      falsy text becomes its default and a list that is not an array becomes empty. */
  function SummaryOf(f: AiFields, projectName: string): (r: ProjectSummary)
    ensures r.projectName == projectName
    ensures r.overallHealth != "" && r.riskLevel != "" && r.summary != ""
    ensures f.overallHealth != "" ==> r.overallHealth == f.overallHealth
    ensures f.overallHealth == "" ==> r.overallHealth == "Amber"
    ensures f.riskLevel != "" ==> r.riskLevel == f.riskLevel
    ensures f.riskLevel == "" ==> r.riskLevel == "Medium"
    ensures f.summary != "" ==> r.summary == f.summary
    ensures f.summary == "" ==> r.summary == "Analysis completed"
    ensures f.keyInsights.Some? ==> r.keyInsights == f.keyInsights.value
    ensures f.keyInsights.None? ==> r.keyInsights == []
    ensures f.recommendations.Some? ==> r.recommendations == f.recommendations.value
    ensures f.recommendations.None? ==> r.recommendations == []
    ensures f.criticalIssues.Some? ==> r.criticalIssues == f.criticalIssues.value
    ensures f.criticalIssues.None? ==> r.criticalIssues == []
    ensures f.successFactors.Some? ==> r.successFactors == f.successFactors.value
    ensures f.successFactors.None? ==> r.successFactors == []
  {
    ProjectSummary(projectName, Or(f.overallHealth, "Amber"), Or(f.riskLevel, "Medium"),
      ListOrEmpty(f.keyInsights), ListOrEmpty(f.recommendations),
      Or(f.summary, "Analysis completed"), ListOrEmpty(f.criticalIssues), ListOrEmpty(f.successFactors))
  }

  /** `parseAIResponse(reply, projectName)`: a missing JSON object and a `JSON.parse` failure
      both end in the same error. */
  function ParseAIResponse(reply: string, projectName: string, parseJson: string -> Option<AiFields>)
    : (r: Result<ProjectSummary, string>)
    ensures r.Err? ==> r.error == ParseFailure
    ensures r.Err? <==> ExtractJson(reply).None? || parseJson(ExtractJson(reply).value).None?
    ensures r.Ok? ==> r.value == SummaryOf(parseJson(ExtractJson(reply).value).value, projectName)
  {
    match ExtractJson(reply)
    case None => Err(ParseFailure)
    case Some(text) =>
      match parseJson(text)
      case None => Err(ParseFailure)
      case Some(f) => Ok(SummaryOf(f, projectName))
  }

  // ---------------------------------------------------------------------------------------
  // generateFallbackSummary

  const FallbackRecommendations: seq<string> := [
    "Review current status and adjust plans accordingly",
    "Monitor key risk factors closely",
    "Ensure adequate resource allocation"]

  /** The risk level the fallback derives from the current health. */
  function FallbackRisk(health: string): string {
    if health == "Red" then "High" else if health == "Amber" then "Medium" else "Low"
  }

  function FallbackSummary(d: ExcelReportData): ProjectSummary {
    ProjectSummary(
      d.projectName,
      d.healthCurrentWeek,
      FallbackRisk(d.healthCurrentWeek),
      ["Project health: " + d.healthCurrentWeek,
       "Resource status: " + Or(d.resourcingStatus, "Not specified"),
       "Client escalation: " + d.clientEscalation],
      FallbackRecommendations,
      d.projectName + " is currently " + d.healthCurrentWeek
        + " status with focus needed on addressing current challenges.",
      if d.issuesChallenges != "" then [d.issuesChallenges] else [],
      [])
  }

  /** The fallback keeps the reported health as the overall health, maps Red, Amber and any
      other value to the risk levels High, Medium and Low, always gives the three stock
      recommendations, lists the reported issues as the one critical issue when there are
      any, and names no success factor. */
  lemma {:induction false} FallbackSummaryFacts(d: ExcelReportData)
    ensures FallbackSummary(d).projectName == d.projectName
    ensures FallbackSummary(d).overallHealth == d.healthCurrentWeek
    ensures FallbackSummary(d).riskLevel == "High" <==> d.healthCurrentWeek == "Red"
    ensures FallbackSummary(d).riskLevel == "Medium" <==> d.healthCurrentWeek == "Amber"
    ensures FallbackSummary(d).riskLevel == "Low" <==> d.healthCurrentWeek != "Red" && d.healthCurrentWeek != "Amber"
    ensures FallbackSummary(d).riskLevel != "Critical"
    ensures |FallbackSummary(d).keyInsights| == 3
    ensures FallbackSummary(d).keyInsights[0] == "Project health: " + d.healthCurrentWeek
    ensures d.resourcingStatus != "" ==> FallbackSummary(d).keyInsights[1] == "Resource status: " + d.resourcingStatus
    ensures d.resourcingStatus == "" ==> FallbackSummary(d).keyInsights[1] == "Resource status: Not specified"
    ensures FallbackSummary(d).keyInsights[2] == "Client escalation: " + d.clientEscalation
    ensures FallbackSummary(d).recommendations == FallbackRecommendations
    ensures d.issuesChallenges != "" ==> FallbackSummary(d).criticalIssues == [d.issuesChallenges]
    ensures d.issuesChallenges == "" ==> FallbackSummary(d).criticalIssues == []
    ensures FallbackSummary(d).successFactors == []
  {
  }

  // ---------------------------------------------------------------------------------------
  // generateProjectSummary

  /** `generateProjectSummary(d)`. `apiKey` is the configured key (`""` when unset); `reply`
      is the content of the first choice of the chat completion, `None` when the request
      fails. A missing key is the only error; every failure after it ends in the fallback. */
  function GenerateProjectSummary(apiKey: string, reply: Option<string>,
                                  parseJson: string -> Option<AiFields>, d: ExcelReportData)
    : (r: Result<ProjectSummary, string>)
    ensures r.Err? <==> apiKey == ""
    ensures r.Err? ==> r.error == MissingKey
    ensures r.Ok? ==> r.value.projectName == d.projectName
    ensures r.Ok? && (reply.None? || reply.value == "") ==> r.value == FallbackSummary(d)
    ensures (apiKey != "" && reply.Some? && reply.value != ""
             && ParseAIResponse(reply.value, d.projectName, parseJson).Err?)
            ==> r == Ok(FallbackSummary(d))
    ensures (apiKey != "" && reply.Some? && reply.value != ""
             && ParseAIResponse(reply.value, d.projectName, parseJson).Ok?)
            ==> r == ParseAIResponse(reply.value, d.projectName, parseJson)
  {
    if apiKey == "" then Err(MissingKey)
    else if reply.None? || reply.value == "" then Ok(FallbackSummary(d))
    else
      match ParseAIResponse(reply.value, d.projectName, parseJson)
      case Ok(s) => Ok(s)
      case Err(_) => Ok(FallbackSummary(d))
  }

  /** A reply with no JSON object in it falls back to the rule-based summary. */
  lemma {:induction false} ReplyWithoutJsonFallsBack(apiKey: string, reply: string,
                                                     parseJson: string -> Option<AiFields>, d: ExcelReportData)
    requires apiKey != "" && forall i :: 0 <= i < |reply| ==> reply[i] != '{'
    ensures GenerateProjectSummary(apiKey, Some(reply), parseJson, d) == Ok(FallbackSummary(d))
  {
    assert ExtractJson(reply).None?;
  }

  /** A reply whose JSON object is opened but never closed, or does not parse, falls back to
      the rule-based summary as well. */
  lemma {:induction false} UnparsableReplyFallsBack(apiKey: string, reply: string,
                                                    parseJson: string -> Option<AiFields>, d: ExcelReportData)
    requires apiKey != "" && reply != ""
    requires ExtractJson(reply).None? || parseJson(ExtractJson(reply).value).None?
    ensures GenerateProjectSummary(apiKey, Some(reply), parseJson, d) == Ok(FallbackSummary(d))
  {
  }

  /** A well-formed reply is used as parsed, with the defaults for the fields it lacks. */
  lemma {:induction false} ParsedReplyIsUsed(apiKey: string, reply: string,
                                             parseJson: string -> Option<AiFields>, d: ExcelReportData)
    requires apiKey != "" && ExtractJson(reply).Some? && parseJson(ExtractJson(reply).value).Some?
    ensures GenerateProjectSummary(apiKey, Some(reply), parseJson, d)
         == Ok(SummaryOf(parseJson(ExtractJson(reply).value).value, d.projectName))
  {
    var parsed := ParseAIResponse(reply, d.projectName, parseJson);
    assert parsed == Ok(SummaryOf(parseJson(ExtractJson(reply).value).value, d.projectName));
    assert reply != "";
  }

  // ---------------------------------------------------------------------------------------
  // generatePortfolioSummary

  /** `riskDistribution`: each risk level with the number of summaries that carry it, in the
      order the levels first occur. This is the key order of the object the `reduce` builds
      for keys that are not array indices. */
  function Tally(levels: seq<string>): (t: seq<(string, nat)>)
    ensures forall i, j :: 0 <= i < j < |t| ==> t[i].0 != t[j].0
    ensures forall k :: k in levels <==> exists i :: 0 <= i < |t| && t[i].0 == k
    ensures forall i :: 0 <= i < |t| ==> t[i].1 == multiset(levels)[t[i].0]
  {
    if |levels| == 0 then []
    else
      var init := levels[..|levels| - 1];
      var x := levels[|levels| - 1];
      assert levels == init + [x];
      assert forall k :: k in levels <==> k in init || k == x;
      Bump(Tally(init), x, init)
  }

  /** The position of key `x` in a tally that holds it. */
  function KeyIndex(t: seq<(string, nat)>, x: string): (i: nat)
    requires exists i :: 0 <= i < |t| && t[i].0 == x
    ensures i < |t| && t[i].0 == x
  {
    if t[0].0 == x then 0
    else
      assert exists i :: 0 <= i < |t[1..]| && t[1..][i].0 == x by {
        var i :| 0 <= i < |t| && t[i].0 == x;
        assert t[1..][i - 1] == t[i];
      }
      KeyIndex(t[1..], x) + 1
  }

  /** `acc[x] = (acc[x] || 0) + 1`, for a tally `t` of the levels `seen`. */
  function Bump(t: seq<(string, nat)>, x: string, seen: seq<string>): (r: seq<(string, nat)>)
    requires forall i, j :: 0 <= i < j < |t| ==> t[i].0 != t[j].0
    requires forall k :: k in seen <==> exists i :: 0 <= i < |t| && t[i].0 == k
    requires forall i :: 0 <= i < |t| ==> t[i].1 == multiset(seen)[t[i].0]
    ensures forall i, j :: 0 <= i < j < |r| ==> r[i].0 != r[j].0
    ensures forall k :: k in seen + [x] <==> exists i :: 0 <= i < |r| && r[i].0 == k
    ensures forall i :: 0 <= i < |r| ==> r[i].1 == multiset(seen + [x])[r[i].0]
  {
    assert multiset(seen + [x]) == multiset(seen) + multiset{x};
    assert forall k :: k in seen + [x] <==> k in seen || k == x;
    if x in seen then
      var i := KeyIndex(t, x);
      var r := t[i := (x, t[i].1 + 1)];
      assert forall j :: 0 <= j < |t| ==> r[j].0 == t[j].0;
      r
    else
      assert multiset(seen)[x] == 0;
      var r := t + [(x, 1)];
      assert r[|t|].0 == x;
      assert forall i :: 0 <= i < |t| ==> r[i] == t[i];
      r
  }

  function SumCounts(t: seq<(string, nat)>): nat {
    if |t| == 0 then 0 else SumCounts(t[..|t| - 1]) + t[|t| - 1].1
  }

  lemma {:induction false} SumCountsUpdate(t: seq<(string, nat)>, i: nat, v: nat)
    requires i < |t|
    ensures SumCounts(t[i := (t[i].0, v)]) == SumCounts(t) - t[i].1 + v
    decreases |t|
  {
    var u := t[i := (t[i].0, v)];
    if i < |t| - 1 {
      assert u[..|u| - 1] == t[..|t| - 1][i := (t[i].0, v)];
      SumCountsUpdate(t[..|t| - 1], i, v);
    } else {
      assert u[..|u| - 1] == t[..|t| - 1];
    }
  }

  /** The counts of the risk distribution add up to the number of summaries. */
  lemma {:induction false} TallyTotal(levels: seq<string>)
    ensures SumCounts(Tally(levels)) == |levels|
  {
    if |levels| > 0 {
      var init := levels[..|levels| - 1];
      var x := levels[|levels| - 1];
      assert levels == init + [x];
      TallyTotal(init);
      BumpTotal(Tally(init), x, init);
    }
  }

  lemma {:induction false} BumpTotal(t: seq<(string, nat)>, x: string, seen: seq<string>)
    requires forall i, j :: 0 <= i < j < |t| ==> t[i].0 != t[j].0
    requires forall k :: k in seen <==> exists i :: 0 <= i < |t| && t[i].0 == k
    requires forall i :: 0 <= i < |t| ==> t[i].1 == multiset(seen)[t[i].0]
    ensures SumCounts(Bump(t, x, seen)) == SumCounts(t) + 1
  {
    if x in seen {
      var i := KeyIndex(t, x);
      SumCountsUpdate(t, i, t[i].1 + 1);
    } else {
      assert (t + [(x, 1)])[..|t|] == t;
    }
  }

  datatype PortfolioSummary = PortfolioSummary(
    overallHealth: string,
    totalProjects: nat,
    riskDistribution: seq<(string, nat)>,
    keyRecommendations: seq<string>,
    criticalAlerts: seq<string>)

  predicate IsRed(p: ProjectSummary) { p.overallHealth == "Red" }
  predicate IsAmber(p: ProjectSummary) { p.overallHealth == "Amber" }
  function RecommendationsOf(p: ProjectSummary): seq<string> { p.recommendations }
  function RiskOf(p: ProjectSummary): string { p.riskLevel }

  /** `red > 0 ? 'Red' : amber > total / 2 ? 'Amber' : 'Green'` (a real division). */
  function PortfolioHealth(red: nat, amber: nat, total: nat): string {
    if red > 0 then "Red" else if 2 * amber > total then "Amber" else "Green"
  }

  predicate IsAlert(p: ProjectSummary) {
    p.overallHealth == "Red" || p.riskLevel == "Critical"
  }

  function AlertText(p: ProjectSummary): string {
    p.projectName + ": " + p.summary
  }

  /** `flatMap(p => p.recommendations).slice(0, 5)` in a `Set`, spread back to an array. */
  function KeyRecommendations(ps: seq<ProjectSummary>): seq<string> {
    Seqs.Dedup(Js.Slice(Seqs.Flatten(Seqs.Map(ps, RecommendationsOf)), 0, 5))
  }

  /** `filter(p => Red or Critical).map(p => name + ": " + summary)`. */
  function CriticalAlerts(ps: seq<ProjectSummary>): seq<string> {
    Seqs.Map(Seqs.Filter(ps, IsAlert), AlertText)
  }

  function GeneratePortfolioSummary(ps: seq<ProjectSummary>): PortfolioSummary {
    var red := Seqs.Count(ps, IsRed);
    var amber := Seqs.Count(ps, IsAmber);
    PortfolioSummary(
      PortfolioHealth(red, amber, |ps|),
      |ps|,
      Tally(Seqs.Map(ps, RiskOf)),
      KeyRecommendations(ps),
      CriticalAlerts(ps))
  }

  /** The portfolio is Red as soon as one project is Red, Amber when more than half of the
      projects are Amber and none is Red, and Green otherwise. */
  lemma {:induction false} PortfolioHealthRule(ps: seq<ProjectSummary>)
    ensures GeneratePortfolioSummary(ps).overallHealth == "Red"
        <==> exists i :: 0 <= i < |ps| && ps[i].overallHealth == "Red"
    ensures GeneratePortfolioSummary(ps).overallHealth == "Green"
        <==> (forall i :: 0 <= i < |ps| ==> ps[i].overallHealth != "Red")
             && 2 * Seqs.Count(ps, IsAmber) <= |ps|
    ensures GeneratePortfolioSummary(ps).overallHealth in {"Red", "Amber", "Green"}
  {
  }

  /** The first five recommendations of the projects, taken in project order. */
  function LeadingRecommendations(ps: seq<ProjectSummary>): seq<string> {
    var flat := Seqs.Flatten(Seqs.Map(ps, RecommendationsOf));
    if |flat| <= 5 then flat else flat[..5]
  }

  /** The key recommendations are the distinct ones among the first five recommendations of
      the projects, each once, in the order of its first occurrence, and each one some
      project's. */
  lemma {:induction false} KeyRecommendationsFacts(ps: seq<ProjectSummary>)
    ensures |KeyRecommendations(ps)| <= 5
    ensures Seqs.NoDuplicates(KeyRecommendations(ps))
    ensures forall r :: r in KeyRecommendations(ps) <==> r in LeadingRecommendations(ps)
    ensures forall i, j :: 0 <= i < j < |KeyRecommendations(ps)| ==>
              Seqs.IndexOf(LeadingRecommendations(ps), KeyRecommendations(ps)[i])
              < Seqs.IndexOf(LeadingRecommendations(ps), KeyRecommendations(ps)[j])
    ensures forall r :: r in KeyRecommendations(ps) ==> exists i :: 0 <= i < |ps| && r in ps[i].recommendations
  {
    var recs := Seqs.Map(ps, RecommendationsOf);
    var flat := Seqs.Flatten(recs);
    var head := Js.Slice(flat, 0, 5);
    Js.SliceFromStart(flat, 5);
    assert head == LeadingRecommendations(ps);
    Seqs.DedupFirstOccurrenceOrder(head);
    assert forall r :: r in head ==> r in flat;
    forall r | r in KeyRecommendations(ps)
      ensures exists i :: 0 <= i < |ps| && r in ps[i].recommendations
    {
      assert r in flat;
      var i :| 0 <= i < |recs| && r in recs[i];
    }
  }

  /** There is one alert per project that is Red or at Critical risk, reading
      "name: summary", and no other. */
  lemma {:induction false} CriticalAlertsFacts(ps: seq<ProjectSummary>)
    ensures |CriticalAlerts(ps)| == Seqs.Count(ps, IsAlert)
    ensures forall a :: a in CriticalAlerts(ps) <==>
              exists i :: 0 <= i < |ps| && IsAlert(ps[i]) && a == AlertText(ps[i])
  {
    var alerts := Seqs.Filter(ps, IsAlert);
    forall a ensures a in CriticalAlerts(ps) <==> exists i :: 0 <= i < |ps| && IsAlert(ps[i]) && a == AlertText(ps[i])
    {
      if a in CriticalAlerts(ps) {
        var k :| 0 <= k < |alerts| && a == AlertText(alerts[k]);
        assert alerts[k] in ps;
        var i :| 0 <= i < |ps| && ps[i] == alerts[k];
      }
      if exists i :: 0 <= i < |ps| && IsAlert(ps[i]) && a == AlertText(ps[i]) {
        var i :| 0 <= i < |ps| && IsAlert(ps[i]) && a == AlertText(ps[i]);
        assert ps[i] in alerts;
        var k :| 0 <= k < |alerts| && alerts[k] == ps[i];
        assert a == CriticalAlerts(ps)[k];
      }
    }
  }

  /** The alerts follow the projects' order: one more project adds its alert at the end
      when it is Red or at Critical risk, and nothing otherwise. */
  lemma {:induction false} CriticalAlertsSnoc(ps: seq<ProjectSummary>, p: ProjectSummary)
    ensures CriticalAlerts([]) == []
    ensures CriticalAlerts(ps + [p]) == CriticalAlerts(ps) + (if IsAlert(p) then [AlertText(p)] else [])
  {
    Seqs.FilterAppend(ps, [p], IsAlert);
    var tail := Seqs.Filter([p], IsAlert);
    if IsAlert(p) {
      assert p in tail && |tail| <= 1;
      assert tail == [p];
    } else {
      assert tail == [];
    }
    Seqs.MapAppend(Seqs.Filter(ps, IsAlert), tail, AlertText);
    var m := Seqs.Map(tail, AlertText);
    assert IsAlert(p) ==> m == [AlertText(p)];
  }

  /** The portfolio summary counts the projects, carries the key recommendations and the
      alerts above, and its risk counts add up to the number of projects. */
  lemma {:induction false} PortfolioSummaryFacts(ps: seq<ProjectSummary>)
    ensures GeneratePortfolioSummary(ps).totalProjects == |ps|
    ensures GeneratePortfolioSummary(ps).keyRecommendations == KeyRecommendations(ps)
    ensures GeneratePortfolioSummary(ps).criticalAlerts == CriticalAlerts(ps)
    ensures SumCounts(GeneratePortfolioSummary(ps).riskDistribution) == |ps|
  {
    TallyTotal(Seqs.Map(ps, RiskOf));
  }
}
