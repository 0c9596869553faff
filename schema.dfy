/** The records the dashboard stores: users, projects, weekly status reports, technical
    reviews, LLM configurations and portfolio analyses (the tables of `shared/schema.ts`).

    Conventions of the model:
    - timestamps are integers, milliseconds since the epoch;
    - a nullable text column that the code only tests for truthiness or prints after a `||`
      default is a `string`, with `""` standing for both `null` and the empty string;
    - a nullable column whose `null` the code distinguishes is an `Option`.
    The columns that no modelled operation reads or writes are left out (see the README). */
module Schema {
  import opened Outcomes

  /** The three roles of the application. */
  const ProjectManager := "project_manager"
  const DeliveryManager := "delivery_manager"
  const Admin := "admin"

  datatype User = User(id: int, username: string, email: string, role: string, name: string)

  /** What a caller supplies to create a user: everything but the id. */
  datatype NewUser = NewUser(username: string, email: string, role: string, name: string)

  // ---------------------------------------------------------------------------------------
  // Projects

  /** The columns of a project that callers insert and update. */
  datatype ProjectData = ProjectData(
    name: string,
    codeId: string,
    account: string,
    customer: string,
    engagementType: string,
    deliveryModel: string,
    billingModel: string,
    projectImportance: string,
    ragStatus: string,
    scopeDescription: string,
    projectManagerId: Option<int>,
    deliveryManagerId: Option<int>,
    teamSquad: string,
    tower: string,
    fte: string,
    revenue: string,
    startDate: int,
    plannedEndDate: int,
    clientEscalation: bool,
    aiMonitoringEnabled: bool,
    projectTags: seq<string>)

  datatype Project = Project(id: int, createdAt: int, isActive: bool, data: ProjectData)

  /** An insert payload: `isActive` may be left out (it then defaults to `true`). */
  datatype NewProject = NewProject(data: ProjectData, isActive: Option<bool>)

  /** A `Partial<Project>` without the id and the creation time: each present field replaces
      the stored one, as the spread `{ ...existing, ...update }` does. */
  datatype ProjectPatch = ProjectPatch(
    name: Option<string>,
    codeId: Option<string>,
    account: Option<string>,
    customer: Option<string>,
    engagementType: Option<string>,
    deliveryModel: Option<string>,
    billingModel: Option<string>,
    projectImportance: Option<string>,
    ragStatus: Option<string>,
    scopeDescription: Option<string>,
    projectManagerId: Option<Option<int>>,
    deliveryManagerId: Option<Option<int>>,
    teamSquad: Option<string>,
    tower: Option<string>,
    fte: Option<string>,
    revenue: Option<string>,
    startDate: Option<int>,
    plannedEndDate: Option<int>,
    clientEscalation: Option<bool>,
    aiMonitoringEnabled: Option<bool>,
    projectTags: Option<seq<string>>,
    isActive: Option<bool>)

  const EmptyProjectPatch := ProjectPatch(None, None, None, None, None, None, None, None, None,
    None, None, None, None, None, None, None, None, None, None, None, None, None)

  /** `{ ...existing, ...update }` for a project. */
  function ApplyProjectPatch(p: Project, u: ProjectPatch): Project {
    Project(p.id, p.createdAt, u.isActive.GetOr(p.isActive),
      ProjectData(
        u.name.GetOr(p.data.name),
        u.codeId.GetOr(p.data.codeId),
        u.account.GetOr(p.data.account),
        u.customer.GetOr(p.data.customer),
        u.engagementType.GetOr(p.data.engagementType),
        u.deliveryModel.GetOr(p.data.deliveryModel),
        u.billingModel.GetOr(p.data.billingModel),
        u.projectImportance.GetOr(p.data.projectImportance),
        u.ragStatus.GetOr(p.data.ragStatus),
        u.scopeDescription.GetOr(p.data.scopeDescription),
        u.projectManagerId.GetOr(p.data.projectManagerId),
        u.deliveryManagerId.GetOr(p.data.deliveryManagerId),
        u.teamSquad.GetOr(p.data.teamSquad),
        u.tower.GetOr(p.data.tower),
        u.fte.GetOr(p.data.fte),
        u.revenue.GetOr(p.data.revenue),
        u.startDate.GetOr(p.data.startDate),
        u.plannedEndDate.GetOr(p.data.plannedEndDate),
        u.clientEscalation.GetOr(p.data.clientEscalation),
        u.aiMonitoringEnabled.GetOr(p.data.aiMonitoringEnabled),
        u.projectTags.GetOr(p.data.projectTags)))
  }

  /** The empty patch changes nothing, a patch never changes the id or the creation time, and
      applying the same patch twice is the same as applying it once. */
  lemma {:induction false} ProjectPatchLaws(p: Project, u: ProjectPatch)
    ensures ApplyProjectPatch(p, EmptyProjectPatch) == p
    ensures ApplyProjectPatch(p, u).id == p.id && ApplyProjectPatch(p, u).createdAt == p.createdAt
    ensures ApplyProjectPatch(ApplyProjectPatch(p, u), u) == ApplyProjectPatch(p, u)
  {
  }

  // ---------------------------------------------------------------------------------------
  // Weekly status reports

  /** The columns of a weekly status report that an insert supplies. `ragStatus` is not a
      column of the table; records that carry one are read by the dashboard statistics, and
      `None` is the `undefined` of a record without it. `weekNumber` is `None` for `null`
      and for `NaN`. */
  datatype ReportData = ReportData(
    projectId: int,
    reportingDate: int,
    weekNumber: Option<int>,
    publishStatus: bool,
    healthPreviousWeek: string,
    healthCurrentWeek: string,
    clientEscalation: string,
    updateForCurrentWeek: string,
    planForNextWeek: string,
    issuesChallenges: string,
    pathToGreen: string,
    resourcingStatus: string,
    currentSdlcPhase: string,
    sqaRemarks: string,
    fte: string,
    revenue: string,
    tower: string,
    billingModel: string,
    submittedBy: Option<int>,
    ragStatus: Option<string>)

  datatype WeeklyStatusReport = WeeklyStatusReport(
    id: int, createdAt: int, data: ReportData, aiStatus: string, aiAssessmentDescription: string)

  /** A `Partial<WeeklyStatusReport>` without the id and the creation time. */
  datatype ReportPatch = ReportPatch(
    projectId: Option<int>,
    reportingDate: Option<int>,
    weekNumber: Option<Option<int>>,
    publishStatus: Option<bool>,
    healthPreviousWeek: Option<string>,
    healthCurrentWeek: Option<string>,
    clientEscalation: Option<string>,
    updateForCurrentWeek: Option<string>,
    planForNextWeek: Option<string>,
    issuesChallenges: Option<string>,
    pathToGreen: Option<string>,
    resourcingStatus: Option<string>,
    currentSdlcPhase: Option<string>,
    sqaRemarks: Option<string>,
    fte: Option<string>,
    revenue: Option<string>,
    tower: Option<string>,
    billingModel: Option<string>,
    submittedBy: Option<Option<int>>,
    ragStatus: Option<Option<string>>,
    aiStatus: Option<string>,
    aiAssessmentDescription: Option<string>)

  const EmptyReportPatch := ReportPatch(None, None, None, None, None, None, None, None, None,
    None, None, None, None, None, None, None, None, None, None, None, None, None)

  /** A patch that sets only the two AI assessment fields. */
  function AiPatch(status: string, description: string): ReportPatch {
    EmptyReportPatch.(aiStatus := Some(status), aiAssessmentDescription := Some(description))
  }

  /** `{ ...existing, ...update }` for a weekly status report. */
  function ApplyReportPatch(r: WeeklyStatusReport, u: ReportPatch): WeeklyStatusReport {
    WeeklyStatusReport(r.id, r.createdAt,
      ReportData(
        u.projectId.GetOr(r.data.projectId),
        u.reportingDate.GetOr(r.data.reportingDate),
        u.weekNumber.GetOr(r.data.weekNumber),
        u.publishStatus.GetOr(r.data.publishStatus),
        u.healthPreviousWeek.GetOr(r.data.healthPreviousWeek),
        u.healthCurrentWeek.GetOr(r.data.healthCurrentWeek),
        u.clientEscalation.GetOr(r.data.clientEscalation),
        u.updateForCurrentWeek.GetOr(r.data.updateForCurrentWeek),
        u.planForNextWeek.GetOr(r.data.planForNextWeek),
        u.issuesChallenges.GetOr(r.data.issuesChallenges),
        u.pathToGreen.GetOr(r.data.pathToGreen),
        u.resourcingStatus.GetOr(r.data.resourcingStatus),
        u.currentSdlcPhase.GetOr(r.data.currentSdlcPhase),
        u.sqaRemarks.GetOr(r.data.sqaRemarks),
        u.fte.GetOr(r.data.fte),
        u.revenue.GetOr(r.data.revenue),
        u.tower.GetOr(r.data.tower),
        u.billingModel.GetOr(r.data.billingModel),
        u.submittedBy.GetOr(r.data.submittedBy),
        u.ragStatus.GetOr(r.data.ragStatus)),
      u.aiStatus.GetOr(r.aiStatus),
      u.aiAssessmentDescription.GetOr(r.aiAssessmentDescription))
  }

  /** A patch that sets every column of `d` (but not `ragStatus`, which is no column of the
      table) and both AI assessment fields. */
  function PayloadPatch(d: ReportData, aiStatus: string, aiDescription: string): ReportPatch {
    ReportPatch(Some(d.projectId), Some(d.reportingDate), Some(d.weekNumber), Some(d.publishStatus),
      Some(d.healthPreviousWeek), Some(d.healthCurrentWeek), Some(d.clientEscalation),
      Some(d.updateForCurrentWeek), Some(d.planForNextWeek), Some(d.issuesChallenges),
      Some(d.pathToGreen), Some(d.resourcingStatus), Some(d.currentSdlcPhase), Some(d.sqaRemarks),
      Some(d.fte), Some(d.revenue), Some(d.tower), Some(d.billingModel), Some(d.submittedBy),
      None, Some(aiStatus), Some(aiDescription))
  }

  lemma {:induction false} ReportPatchLaws(r: WeeklyStatusReport, u: ReportPatch)
    ensures ApplyReportPatch(r, EmptyReportPatch) == r
    ensures ApplyReportPatch(r, u).id == r.id && ApplyReportPatch(r, u).createdAt == r.createdAt
    ensures ApplyReportPatch(ApplyReportPatch(r, u), u) == ApplyReportPatch(r, u)
  {
  }

  /** An AI patch changes the two assessment fields and nothing else. */
  lemma {:induction false} AiPatchEffect(r: WeeklyStatusReport, status: string, description: string)
    ensures ApplyReportPatch(r, AiPatch(status, description))
         == r.(aiStatus := status, aiAssessmentDescription := description)
  {
  }

  /** A payload patch replaces every column but keeps the id, the creation time and the
      stored `ragStatus`. */
  lemma {:induction false} PayloadPatchEffect(r: WeeklyStatusReport, d: ReportData, s: string, t: string)
    ensures ApplyReportPatch(r, PayloadPatch(d, s, t))
         == WeeklyStatusReport(r.id, r.createdAt, d.(ragStatus := r.data.ragStatus), s, t)
  {
  }

  // ---------------------------------------------------------------------------------------
  // Technical reviews

  /** The columns of a technical review that the model reads; the free-text review sections
      are left out. `executiveSummary` is `""` when `null`. */
  datatype ReviewData = ReviewData(
    projectId: int,
    reviewDate: int,
    reviewType: string,
    reviewCycleNumber: int,
    executiveSummary: string,
    participants: Option<seq<string>>,
    conductedBy: Option<int>)

  datatype TechnicalReview = TechnicalReview(id: int, createdAt: int, data: ReviewData)

  /** A `Partial<TechnicalReview>` without the id and the creation time. */
  datatype ReviewPatch = ReviewPatch(
    projectId: Option<int>,
    reviewDate: Option<int>,
    reviewType: Option<string>,
    reviewCycleNumber: Option<int>,
    executiveSummary: Option<string>,
    participants: Option<Option<seq<string>>>,
    conductedBy: Option<Option<int>>)

  /** `{ ...existing, ...update }` for a technical review. */
  function ApplyReviewPatch(r: TechnicalReview, u: ReviewPatch): TechnicalReview {
    TechnicalReview(r.id, r.createdAt,
      ReviewData(
        u.projectId.GetOr(r.data.projectId),
        u.reviewDate.GetOr(r.data.reviewDate),
        u.reviewType.GetOr(r.data.reviewType),
        u.reviewCycleNumber.GetOr(r.data.reviewCycleNumber),
        u.executiveSummary.GetOr(r.data.executiveSummary),
        u.participants.GetOr(r.data.participants),
        u.conductedBy.GetOr(r.data.conductedBy)))
  }

  // ---------------------------------------------------------------------------------------
  // LLM configurations

  datatype LlmConfiguration = LlmConfiguration(
    id: int, providerName: string, modelName: string, apiKey: string,
    isActive: bool, lastUpdatedBy: Option<int>, lastUpdatedDate: int)

  /** An insert payload: `isActive` and `lastUpdatedBy` may be left out. */
  datatype NewLlmConfiguration = NewLlmConfiguration(
    providerName: string, modelName: string, apiKey: string,
    isActive: Option<bool>, lastUpdatedBy: Option<int>)

  datatype LlmPatch = LlmPatch(
    providerName: Option<string>, modelName: Option<string>, apiKey: Option<string>,
    isActive: Option<bool>, lastUpdatedBy: Option<Option<int>>)

  /** `{ ...existing, ...update, lastUpdatedDate: now }`. */
  function ApplyLlmPatch(c: LlmConfiguration, u: LlmPatch, now: int): LlmConfiguration {
    LlmConfiguration(c.id, u.providerName.GetOr(c.providerName), u.modelName.GetOr(c.modelName),
      u.apiKey.GetOr(c.apiKey), u.isActive.GetOr(c.isActive),
      u.lastUpdatedBy.GetOr(c.lastUpdatedBy), now)
  }

  const Deactivate := LlmPatch(None, None, None, Some(false), None)

  // ---------------------------------------------------------------------------------------
  // Portfolio analyses

  /** The project counts an analysis stores in its `projectsAnalyzed` JSON; a count the JSON
      lacks is `None`. */
  datatype ProjectCounts = ProjectCounts(
    red: Option<int>, amber: Option<int>, green: Option<int>, noRecentUpdates: Option<int>)

  datatype PortfolioAnalysis = PortfolioAnalysis(
    id: int, analysisDate: int, overallPortfolioRagStatus: string, reason: string,
    projectsAnalyzed: Option<ProjectCounts>, llmConfigurationId: Option<int>)

  datatype NewPortfolioAnalysis = NewPortfolioAnalysis(
    overallPortfolioRagStatus: string, reason: string,
    projectsAnalyzed: Option<ProjectCounts>, llmConfigurationId: Option<int>)
}
