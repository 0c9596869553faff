# Project portfolio dashboard: a verified model of its core logic

The system is a dashboard for a portfolio of delivery projects. Project managers file weekly
status reports with a red/amber/green (RAG) health colour. Reviewers record technical reviews.
An LLM turns the reports into summaries and a portfolio-wide assessment. The server imports
weekly reports from Excel workbooks, keeps every table in memory and serves aggregated
statistics. The client mines the assessment text, buckets reports into weekly trends and
filters, sorts and pages the lists.

This project models that logic and proves what each operation promises. One module follows
each core file:

- `ExcelParser` (server/services/excelParser.ts): resolves columns from lists of header
  synonyms, skips empty rows, builds reports with their defaults, and reports the error for a
  sheet without data rows.
- `OpenAIService` (server/services/openaiService.ts): cuts the JSON span out of the model's
  reply, applies field defaults, builds the fallback summary, and does the control flow of a
  project summary. It also rolls the portfolio up into risk counts, an overall health,
  critical alerts and at most five recommendations.
- `Storage` (server/storage.ts): the in-memory store as a class. Its tables share one id
  counter. It has create, merge-update, soft delete, filtered queries, the Excel
  find-or-create-and-upsert, the analysis history, and the module-level array of imported
  rows.
- `Routes` (server/routes.ts): the role guard, the handler logic for dashboard statistics and
  trends, the LLM configuration switch, the Excel batch with its failure isolation, and
  project analysis.
- `Analytics`, `AssessmentHeader`, `AnalyticsOverview` (the analytics page, the AI assessment
  header, the analytics overview card): the recommendation and metric extraction from the
  assessment text, the risk areas, the 12-week and 8-week trends, and the tower counts.
  `Regex` holds the two shapes of regular expression the program uses: the lazy capture up to
  a full stop (four patterns, for "Recommend ", "focus", "attention" and "address") and the
  project count before a colour (three patterns, one per colour). Each shape is a
  left-to-right scan proved against a declarative statement of what it matches.
- `ProjectsPage`, `WeeklyReportsPage`, `TechnicalReviewsPage`, `DashboardPage`: search and
  filter predicates, newest-first stable sorting, pagination with its page-button window, the
  filter panels' state, and the priority projects.
- `RecentActivity`, `ProjectForm`, `TechnicalReviewForm`, `Sidebar`: the activity feed and
  relative times, the tag editor, participant splitting and custom review parameters, and the
  role-based navigation.
- `Schema` holds the record shapes and the update overlays. `Js` holds the JavaScript string
  and number semantics the code relies on (trim, split, join, includes, parseInt, slice,
  ASCII case folding). `Seqs` holds generic sequence facts: filter, count, dedup, toggle, and
  a stable descending insertion sort that stands for `Array.prototype.sort`. `Outcomes` holds
  `Option` and `Result`.

Conventions:

- Timestamps are integers in milliseconds. Local time is taken to be UTC.
- A JavaScript `Map` is a sequence in insertion order. `Map.set` on an existing key keeps the
  entry's position.
- `null`, `undefined` and other falsy text are `""` wherever only truthiness matters. They
  are `None` where the source renders the value into text.
- A week number is `Option<int>`, and `None` stands for `NaN`.
- A numeric spreadsheet cell carries the text JavaScript prints for the number ("2.5",
  "1e+21"). The parser reads numbers only through that text.
- The LLM's HTTP reply, `JSON.parse`, `Math.random` and the clock are parameters of the
  operations that use them.

Where the program's own text promises more than its code does, the model follows the code:

- Health cells are copied verbatim. The Excel test button says it converts colour values
  (red/green/yellow) to health status (client/src/components/ExcelTestButton.tsx:135), but
  no code maps "red", "R" or "yellow" to a RAG value.

Further points of the code as written that the model keeps:

- The column resolver does not trim headers. A matching column whose cell is `undefined`
  falls through to the next candidate name.
- A missing week number is `parseInt("0")`, that is 0. A non-numeric one is `NaN`. A
  fractional one is cut at its point, so 2.5 is week 2.
- A missing project name is `""`.
- The colour counts read from the assessment use `.*?Colour` on one line. A line such as
  "12 projects are Green and show no Red mentions" therefore counts 12 red projects.
- The server groups trends by each report's own status. The analytics overview groups them
  by the owning project's current status.
- The Excel batch stores each project through `createOrUpdateWeeklyReportFromExcel` as
  written, and the activity feed shows the entries of `recent-activity.tsx` as written. The
  corrected readings of both are modelled beside them (see "## Findings").

## Model

| member | source | states |
|---|---|---|
| ExcelParser.HeaderIndex | server/services/excelParser.ts:77-79 | the position of the leftmost header that is present and whose lower-cased text contains the lower-cased candidate; none exactly when no header does |
| ExcelParser.GetCellValue | server/services/excelParser.ts:75-86 | the loop over the candidate names, with its early return, computes the cell value: the text of the cell under the first candidate whose column exists with a defined cell, a number being read as the text JavaScript prints for it, and "" when no candidate decides |
| ExcelParser.CellValueFacts | server/services/excelParser.ts:75-86 | the cell value is "" when no candidate decides; a non-empty value is the text of the cell under the first deciding candidate |
| ExcelParser.FirstDeciding | server/services/excelParser.ts:76-83 | the first candidate that decides gives the value, and every earlier candidate was skipped |
| ExcelParser.FirstCandidateWins | server/services/excelParser.ts:81-82 | when the first candidate's column holds a defined cell, later candidates are never consulted |
| ExcelParser.UndecidedFallsThrough | server/services/excelParser.ts:80-85 | a candidate with no column, or with an undefined cell, passes the decision to the rest of the list |
| ExcelParser.HeaderMatchIgnoresCase | server/services/excelParser.ts:77-79 | header matching is a case-insensitive substring test, so a candidate finds headers that differ from it in case |
| ExcelParser.NonBlankRows | server/services/excelParser.ts:42-46 | the rows kept are exactly the data rows that are present and non-empty, in order, never more than there were |
| ExcelParser.NonBlankRowsLength | server/services/excelParser.ts:42-46 | every data row gives a report exactly when no data row is blank |
| ExcelParser.NonBlankRowsSnoc | server/services/excelParser.ts:45-46 | one more row adds itself to the kept rows unless it is blank |
| ExcelParser.RowsReports | server/services/excelParser.ts:42-66 | one report per non-blank data row, in row order |
| ExcelParser.RowsReportsSnoc | server/services/excelParser.ts:42-66 | one loop iteration appends the row's report, or nothing for a blank row |
| ExcelParser.BuildReport | server/services/excelParser.ts:48-63 | the record assembled from the looked-up columns is the row's report |
| ExcelParser.RowReportDefaults | server/services/excelParser.ts:48-63 | a row with none of the columns gets health "Green" both weeks, escalation "None", week 0 and empty texts |
| ExcelParser.MissingWeekIsZero | server/services/excelParser.ts:50 | a row without a week column reads week 0 |
| ExcelParser.NumericWeekCell | server/services/excelParser.ts:50 | a numeric week cell reads back as that number |
| ExcelParser.FractionalWeekCell | server/services/excelParser.ts:50 | a fractional week cell such as 2.5 is cut at its point by `parseInt` and reads back as its whole part |
| ExcelParser.NumericTextKept | server/services/excelParser.ts:61 | a numeric FTE cell reaches the report as the number's own text, unchanged |
| ExcelParser.ParseWeeklyStatusReport | server/services/excelParser.ts:23-73 | the parse: an error when the sheet cannot be read or holds fewer than two rows, otherwise one report per non-blank data row |
| ExcelParser.DataRowReports | server/services/excelParser.ts:42-66 | the loop over the data rows below the header row gives one report per non-blank row, in row order |
| ExcelParser.ParseSheetErrors | server/services/excelParser.ts:33-71 | an error exactly when reading fails or the sheet has fewer than two rows, and every error message carries the "Failed to parse Excel file" prefix |
| OpenAIService.ExtractJson | server/services/openaiService.ts:110-113 | the greedy brace match: nothing exactly when no "{" comes before a "}"; otherwise the span of the text from its first "{" to its last "}", with no "{" before it and no "}" after it |
| OpenAIService.SummaryOf | server/services/openaiService.ts:117-126 | field by field: the project name given; the health, risk level and summary of the reply when non-empty and otherwise "Amber", "Medium" and "Analysis completed"; each of the four lists of the reply when it is an array and otherwise empty |
| OpenAIService.ParseAIResponse | server/services/openaiService.ts:107-131 | "Failed to parse AI analysis response" exactly when the reply holds no JSON or the JSON does not parse, else the summary of the parsed fields |
| OpenAIService.FallbackSummaryFacts | server/services/openaiService.ts:133-152 | the fallback keeps the project name and health; maps Red, Amber and anything else to High, Medium and Low, never Critical; has the three insights on health, resourcing ("Not specified" when empty) and escalation; has the three fixed recommendations; lists the issues text as its one critical issue when non-empty and none otherwise; and has no success factors |
| OpenAIService.GenerateProjectSummary | server/services/openaiService.ts:19-65 | an error exactly when the key is missing; a missing or empty reply falls back; a reply that cannot be parsed falls back to the same summary, and a reply that parses gives the parsed summary; every summary keeps the project name |
| OpenAIService.UnparsableReplyFallsBack | server/services/openaiService.ts:58-63 | with a key, a non-empty reply with no brace span, or whose span is not JSON, gives the fallback summary instead of an error |
| OpenAIService.ReplyWithoutJsonFallsBack | server/services/openaiService.ts:52-63 | a reply without any "{" is caught and answered with the fallback summary |
| OpenAIService.ParsedReplyIsUsed | server/services/openaiService.ts:52-58 | a reply whose JSON parses is turned into the summary of those fields |
| OpenAIService.Tally | server/services/openaiService.ts:162-165 | the risk distribution has one entry per distinct risk level, each holding how often that level occurs |
| OpenAIService.TallyTotal | server/services/openaiService.ts:161-165 | the counts of the risk distribution add up to the number of projects |
| OpenAIService.PortfolioHealthRule | server/services/openaiService.ts:167-170 | the portfolio is Red exactly when some project is Red, and Green exactly when none is Red and at most half are Amber |
| OpenAIService.PortfolioSummaryFacts | server/services/openaiService.ts:161-190 | the total is the number of summaries, the risk counts add up to it, and the recommendations and alerts are those characterised by the two lemmas below |
| OpenAIService.KeyRecommendationsFacts | server/services/openaiService.ts:176-182 | at most five recommendations, without repeats; exactly the distinct members of the first five of all projects' recommendations, in the order they first occur there; each drawn from some project |
| OpenAIService.CriticalAlertsFacts | server/services/openaiService.ts:172-174 | one alert per Red or Critical summary, and an alert is listed exactly when it is the "name: summary" text of such a summary |
| OpenAIService.CriticalAlertsSnoc | server/services/openaiService.ts:172-174 | no summaries give no alerts; one more summary appends its alert exactly when it is Red or Critical, keeping summary order |
| Schema.ProjectPatchLaws | server/storage.ts:584-591 | the spread update with an empty patch changes nothing, never changes the id or creation time, and applying it twice equals applying it once |
| Schema.ReportPatchLaws | server/storage.ts:629-636 | the same three laws for weekly status report updates |
| Schema.AiPatchEffect | server/routes.ts:413-416 | an AI patch sets the status and the description and nothing else |
| Schema.PayloadPatchEffect | server/storage.ts:784-811 | the import payload overwrites every report column except the RAG status, sets both AI fields, and keeps id and creation time |
| Storage.Lookup | server/storage.ts:563-565 | `map.get`: a stored record carrying the id, and nothing exactly when no record carries it |
| Storage.AppendLookup | server/storage.ts:552-554 | storing under a fresh counter id keeps the ids ascending; the new id finds the new record and every other id what it found before |
| Storage.SetByIdLookup | server/storage.ts:588-589 | `map.set` on a stored id keeps the ids ascending; the id finds the new record and every other id what it found before |
| Storage.ProjectsOfManager | server/storage.ts:567-569 | exactly the active projects of that manager |
| Storage.ReportsOfProject | server/storage.ts:603-606 | a missing or zero project id gives every report, any other exactly that project's reports |
| Storage.ReviewsOfProject | server/storage.ts:639-642 | the same selection for technical reviews |
| Storage.LatestAnalysisIsLatest | server/storage.ts:712-715 | nothing only when no analysis is stored; otherwise a stored analysis with the greatest date, the first inserted among equal dates |
| Storage.AnalysisHistoryFacts | server/storage.ts:731-736 | the `limit` latest analyses (all of them when fewer are stored), latest first, drawn from the stored ones without repeats beyond theirs, and every analysis left out dated no later than any one kept |
| Storage.AnalysisHistoryDefault | server/storage.ts:731 | without a limit the history is that of limit 10, so it has ten entries or all of them when fewer are stored |
| Storage.AIAnalyzedReportsFacts | server/storage.ts:816-820 | exactly the reports with both AI fields, each as often as stored, newest first |
| Storage.UnanalyzedReportNotListed | server/storage.ts:612-627 | a report stored with empty AI fields leaves the analysed-reports list exactly as it was |
| Storage.AnalyzedReportListed | server/storage.ts:816-820 | a report stored with both AI fields set is listed |
| Storage.SoftDeleteHides | server/storage.ts:593-600 | after a soft delete the project is still found by id, but neither the project list nor a manager's list shows it |
| Storage.Pad3 | server/storage.ts:749 | the zero-padded code is three characters long |
| Storage.FirstWord | server/storage.ts:750-751 | never empty; unless it is "Unknown" it is a space-free prefix of the name |
| Storage.PriorReport | server/storage.ts:777-781 | the report an import overwrites is a stored report of the same project and week, dated the same day |
| Storage.MemStorage.constructor | server/storage.ts:61-70 | six empty tables and the id counter at 1 |
| Storage.MemStorage.GetUserByUsername | server/storage.ts:547-549 | a stored user with that username, and nothing exactly when no user has it |
| Storage.MemStorage.CreateUser | server/storage.ts:551-556 | the user takes the counter's id and is appended; the counter moves on by one; the other tables stay as they were |
| Storage.MemStorage.CreateProject | server/storage.ts:571-582 | the project takes the counter's id and the clock's time, is active unless told otherwise, and is appended; nothing else changes |
| Storage.MemStorage.UpdateProject | server/storage.ts:584-591 | nothing for an unknown id; else the overlay of the patch, stored in place of the old record |
| Storage.MemStorage.DeleteProject | server/storage.ts:593-600 | true exactly when the id is stored, and then only that project's active flag is cleared |
| Storage.MemStorage.CreateWeeklyStatusReport | server/storage.ts:612-627 | the report takes the counter's id and the clock's time, and its AI fields start out empty whatever was supplied |
| Storage.MemStorage.CreateAnalyzedWeeklyStatusReport | server/storage.ts:612-627 | the corrected creation: the supplied AI fields are stored |
| Storage.MemStorage.UpdateWeeklyStatusReport | server/storage.ts:629-636 | nothing for an unknown id; else the overlay of the patch, stored in place of the old record |
| Storage.MemStorage.CreateTechnicalReview | server/storage.ts:648-668 | the review takes the counter's id and the clock's time and is appended; nothing else changes |
| Storage.MemStorage.UpdateTechnicalReview | server/storage.ts:671-678 | nothing for an unknown id; else the overlay of the patch, stored in place of the old record |
| Storage.MemStorage.GetActiveLlmConfiguration | server/storage.ts:685-687 | an active stored configuration, and nothing exactly when none is active |
| Storage.MemStorage.CreateLlmConfiguration | server/storage.ts:689-699 | the configuration takes the counter's id and the clock's time, is active unless told otherwise, and is appended |
| Storage.MemStorage.UpdateLlmConfiguration | server/storage.ts:702-709 | nothing for an unknown id; else the overlay with the update date set to now, stored in place |
| Storage.MemStorage.CreatePortfolioAnalysis | server/storage.ts:717-729 | the analysis takes the counter's id and the clock's time as its date and is appended |
| Storage.MemStorage.ProjectForImport | server/storage.ts:740-773 | the first project whose name matches ignoring case, inactive ones included; else a new project with the import defaults; either way it is what its id looks up |
| Storage.MemStorage.UpsertExcelReport | server/storage.ts:776-813 | as written: a same-week, same-day report of the project is overwritten with the payload and the summary fields; otherwise a new report is created whose AI fields are empty |
| Storage.MemStorage.UpsertExcelReportKeepingSummary | server/storage.ts:776-813 | the same upsert, but a new report keeps the summary fields |
| Storage.MemStorage.CreateOrUpdateWeeklyReportFromExcel | server/storage.ts:739-814 | as written: the project is found or created, then the report upserted; a new report loses the summary |
| Storage.MemStorage.ImportWeeklyReportFromExcel | server/storage.ts:739-814 | the corrected import: the same, with the summary kept on a new report too |
| Storage.ExcelReportsStore.constructor | server/storage.ts:826 | the parsed-data array starts empty |
| Storage.ExcelReportsStore.SetExcelReportsData | server/storage.ts:829-832 | afterwards the array holds exactly the given data |
| Routes.RequireRole | server/routes.ts:21-26 | the request passes exactly when the user's role is in the list; otherwise the answer is 403 "Insufficient permissions" |
| Routes.ProjectManagerCannotConfigureLlm | server/routes.ts:204 | a project manager is refused the LLM configuration endpoint and an admin passes |
| Routes.LatestReports | server/routes.ts:243-249 | the loop over the reports with its map of latest reports computes the latest report per project |
| Routes.LatestPerProjectFacts | server/routes.ts:243-251 | one report per project, every project that reported is represented, and each kept report was created no earlier than any report of its project, the first of equal times winning |
| Routes.ColourCountsBound | server/routes.ts:253-256 | the Green, Amber and Red counts together never exceed the number of reports |
| Routes.GetDashboardStats | server/routes.ts:238-263 | the statistics of the latest report per project; the three colour counts add up to at most the total, and so do the escalations |
| Routes.TrendGroupsFacts | server/routes.ts:275-285 | one group per calendar day that has a report and no other; each group counts exactly the Green, Amber and Red reports of its day |
| Routes.TrendDataFacts | server/routes.ts:287-290 | at most eight points, in ascending day order, each one of the groups |
| Routes.TrendDataOrdered | server/routes.ts:287-290 | the points are the last eight days (all of them when fewer), in ascending order |
| Routes.TrendDataMembers | server/routes.ts:287-290 | every point shown is one of the day groups |
| Routes.TrendDataKeepsLatest | server/routes.ts:287-290 | a day left out is no later than any day shown |
| Routes.GetDashboardTrends | server/routes.ts:268-296 | the loop over the reports computes the trend points of the day groups |
| Routes.DeactivateAll | server/routes.ts:210-215 | every configuration is kept in place, inactive and with its update date set to now |
| Routes.SwitchLeavesOneActive | server/routes.ts:209-217 | after the switch the first active configuration is the new one, or none when the new one was sent inactive |
| Routes.DeactivateConfigs | server/routes.ts:210-215 | the loop of updates leaves every configuration inactive and touches no other table |
| Routes.CreateLlmConfig | server/routes.ts:204-218 | the new configuration carries the user's id, every earlier one is deactivated, and the active configuration is the new one unless it was sent inactive |
| Routes.BatchWithKey | server/routes.ts:311-333 | with a key every parsed row is summarised and kept |
| Routes.AllSummarised | server/routes.ts:315-328 | with a key no row of a sheet is skipped |
| Routes.BatchWithoutKey | server/routes.ts:311-333 | without a key every summary throws, so no row is kept |
| Routes.NoneSummarised | server/routes.ts:315-328 | without a key every row of a sheet is skipped |
| Routes.ProcessRows | server/routes.ts:315-328 | the inner loop keeps exactly the rows whose summary succeeded, with their summaries, and touches only the project and report tables |
| Routes.ProcessFile | server/routes.ts:311-331 | one file of the batch: a file that fails to parse adds nothing, and the projects of one that parses are appended with their summaries; only the project and report tables change |
| Routes.ProcessExcelFiles | server/routes.ts:299-352 | 404 "No Excel files found" exactly when there are no files, storing no report; otherwise the processed count, the portfolio summary, the per-project summaries and the raw rows of the successful rows; only the project and report tables change |
| Routes.AnalysisInputDefaults | server/routes.ts:393-408 | the analysis input has the project's name, a week other than 0 (1 by default), Green as the default previous health and None as the default escalation |
| Routes.AnalyzeLatest | server/routes.ts:410-429 | never not-found; a failure exactly when there is no key, with "Failed to analyze project"; a success names the project and the report updated |
| Routes.AnalyzeUnknownProject | server/routes.ts:377-382 | "Project not found" exactly when the id does not parse or names no stored project |
| Routes.AnalyzeProjectWithoutReports | server/routes.ts:385-390 | "No reports found for this project" exactly when the project exists but has no report |
| Routes.AnalyzeFailsWithoutKey | server/routes.ts:423-429 | a project that exists and has reports fails exactly when there is no key |
| Routes.AnalyzeUsesLastReport | server/routes.ts:385-386 | a success updates the last stored report of that project and names the project |
| Routes.AnalyzeProject | server/routes.ts:375-431 | the response is the outcome of the analysis; only a success changes the store, and then only the AI fields of the updated report |
| Routes.SummariseLatest | server/routes.ts:377-410 | the response before storing, and on a success the latest report it chose, which is stored |
| Routes.StoreAiFields | server/routes.ts:413-416 | the report is found by its id and only its two AI fields are replaced |
| Analytics.GetProjectMetrics | client/src/pages/analytics.tsx:133-152 | no metrics exactly when the projects, the reports or the analysis are missing; otherwise the total is the number of projects, the active count is the number of active ones and reaches the total exactly when every project is active, the at-risk count is the analysis' red plus amber count (0 for a missing count or a missing breakdown), and the portfolio health, reason and reports are carried over |
| Analytics.KeyRiskAreas | client/src/pages/analytics.tsx:155-162 | no risk areas exactly when the reason is empty |
| Analytics.KeyRiskAreasFacts | client/src/pages/analytics.tsx:155-162 | for a non-empty reason each label is listed exactly when its phrase occurs, "Multiple risk factors identified" stands alone exactly when no phrase occurs, and the labels keep their fixed order |
| Analytics.RecommendationExplicit | client/src/pages/analytics.tsx:169-170 | when the pattern `Recommend (.+?)(\.\|$)` matches (ignoring case), the recommendation is its capture at the leftmost occurrence where the whole pattern matches: the shortest run on one line after the word that ends just before a full stop or at the end of the text |
| Analytics.ExplicitRecommendationShape | client/src/pages/analytics.tsx:169-170 | that text is a non-empty piece of the reason right after the word, free of line breaks and of further full stops, and followed by a full stop or the end |
| Analytics.RecommendationFocus | client/src/pages/analytics.tsx:173-178 | otherwise "focus" gives "Focus on " and the trimmed text after it |
| Analytics.RecommendationAttention | client/src/pages/analytics.tsx:173-178 | otherwise "attention" gives "Focus on " and the trimmed text after it |
| Analytics.RecommendationAddress | client/src/pages/analytics.tsx:173-178 | otherwise "address" gives "Focus on " and the trimmed text after it |
| Analytics.RecommendationDefault | client/src/pages/analytics.tsx:165-179 | an empty reason, or one that none of the four patterns matches, gives "Review portfolio and address critical issues immediately" |
| Analytics.PrimaryRecommendationNonEmpty | client/src/pages/analytics.tsx:165-180 | the recommendation is never empty |
| Analytics.WeeksContiguous | client/src/pages/analytics.tsx:189-192 | each week starts seven days after the one before it |
| Analytics.WeeksDisjoint | client/src/pages/analytics.tsx:194-201 | no instant falls into two different weeks |
| Analytics.NowInCurrentWeek | client/src/pages/analytics.tsx:189-201 | the current instant falls into the last week |
| Analytics.CountWeek | client/src/pages/analytics.tsx:198-206 | the loop counts exactly the Green, Amber and Red reports created in the week |
| Analytics.RagTrendData | client/src/pages/analytics.tsx:183-219 | no points without reports; otherwise twelve points, the k-th being the counts of the k-th week, oldest first |
| Analytics.RagWeekLabel | client/src/pages/analytics.tsx:208-215 | the k-th point is labelled "W" and k+1, starts 11-k weeks back, and its total is the sum of its three counts |
| Analytics.RagTrendContiguous | client/src/pages/analytics.tsx:189-192 | consecutive points are consecutive weeks and the last one is the current week |
| Analytics.RagTrendDisjoint | client/src/pages/analytics.tsx:194-201 | a report is counted in at most one point |
| Analytics.TowerIndex | client/src/pages/analytics.tsx:232 | the row of the tower when there is one, and none exactly when no row has that tower |
| Analytics.AddProject | client/src/pages/analytics.tsx:242-253 | a project adds one to its tower's total and at most one to the colour counts, exactly one when its latest report is Green, Amber or Red |
| Analytics.TowerPerformanceData | client/src/pages/analytics.tsx:223-254 | no rows when projects or reports are missing; otherwise the loop over the projects computes the tower rows |
| Analytics.TowerRowsPrefix | client/src/pages/analytics.tsx:228-254 | one loop iteration adds one project to the rows computed so far |
| Analytics.TowerRowsTally | client/src/pages/analytics.tsx:225-252 | one row per tower that has a project with a non-empty tower; each row counts exactly the projects of its tower, the Green, Amber and Red ones by their latest report, and all the reports of those projects |
| AssessmentHeader.HeaderRecommendation | client/src/components/dashboard/ai-assessment-header.tsx:10-29 | empty exactly when there is no analysis or its reason is empty; otherwise the same recommendation as the analytics page gives |
| AssessmentHeader.ExtractCountFound | client/src/components/dashboard/ai-assessment-header.tsx:70-79 | at the leftmost place where digits, optional white space, "projects" and later the colour word follow (ignoring case), the count is the decimal value of those digits |
| AssessmentHeader.ExtractCountMissing | client/src/components/dashboard/ai-assessment-header.tsx:76-78 | without such a place the count is 0 |
| AssessmentHeader.ExtractCountNatural | client/src/components/dashboard/ai-assessment-header.tsx:70-79 | a count is never negative |
| AssessmentHeader.HeaderMetrics | client/src/components/dashboard/ai-assessment-header.tsx:82 | no analysis reads 0, 0, 0; otherwise each colour's count is extracted from the reason |
| AssessmentHeader.HeaderMetricsNatural | client/src/components/dashboard/ai-assessment-header.tsx:82-83 | the three counts and their total are never negative |
| AssessmentHeader.SummaryText | client/src/components/dashboard/ai-assessment-header.tsx:85-89 | high risk exactly when more than 10 are Red; monitoring exactly when at most 10 Red but more than 15 Amber; stable otherwise |
| AssessmentHeader.NoAnalysisReadsStable | client/src/components/dashboard/ai-assessment-header.tsx:82-89 | without an analysis the summary reads stable and there is no recommendation |
| AssessmentHeader.StrategicCount | client/src/components/dashboard/ai-assessment-header.tsx:91 | 0 without projects; otherwise at most the number of projects, and 0 exactly when none is Strategic |
| AnalyticsOverview.ProjectStatus | client/src/components/dashboard/analytics-overview.tsx:42-43 | a status, when there is one, is the non-empty RAG status of a project carrying the report's id; a report of no listed project has none |
| AnalyticsOverview.CountTrendWeek | client/src/components/dashboard/analytics-overview.tsx:36-46 | the loop counts exactly the reports of the week by their project's colour |
| AnalyticsOverview.WeeklyTrend | client/src/components/dashboard/analytics-overview.tsx:25-55 | no points when projects or reports are missing; otherwise eight points, the k-th being the tally of the k-th week, oldest first |
| AnalyticsOverview.TrendWeekOf | client/src/components/dashboard/analytics-overview.tsx:47-52 | the loop's i-th iteration builds point "W" and 8-i of the week i weeks back |
| AnalyticsOverview.EightWeeksOfOne | client/src/components/dashboard/analytics-overview.tsx:29-39 | an instant lies in the eight-week window exactly when it lies in one of the eight weeks, and in at most one |
| AnalyticsOverview.EightWeeksCount | client/src/components/dashboard/analytics-overview.tsx:29-46 | summing a colour over the eight weeks counts each report of the window once |
| AnalyticsOverview.SummaryOfEight | client/src/components/dashboard/analytics-overview.tsx:60-68 | the summary of a colour is the sum of that colour over the eight points |
| AnalyticsOverview.SummaryCountsWindow | client/src/components/dashboard/analytics-overview.tsx:25-68 | the summary of each colour counts exactly the reports of the last eight weeks whose project has that colour |
| ProjectsPage.LatestReportForProjectFacts | client/src/pages/projects.tsx:66-76 | nothing without reports or when the project has none; otherwise a report of that project that no report of it is newer than |
| ProjectsPage.LatestReportFirstStored | client/src/pages/projects.tsx:66-76 | the stable sort makes the chosen report the first stored one among the newest reports of the project: no earlier stored report of it is as new |
| ProjectsPage.FilteredProjects | client/src/pages/projects.tsx:78-128 | no projects before they load; otherwise exactly the projects that pass the search, status, importance, manager and escalation filters |
| ProjectsPage.FilteredProjectsOrder | client/src/pages/projects.tsx:78-128 | filtering keeps the projects' relative order |
| ProjectsPage.DefaultFiltersKeepAll | client/src/pages/projects.tsx:78-128 | with every filter at its default the whole list is shown |
| ProjectsPage.TotalPages | client/src/pages/projects.tsx:131 | the fewest pages of twelve that hold every project, and none exactly when there is no project |
| ProjectsPage.PageItems | client/src/pages/projects.tsx:132-134 | the current page is the slice of at most twelve projects from (page - 1) * 12 on |
| ProjectsPage.ItemOnOnePage | client/src/pages/projects.tsx:131-134 | every project appears on a page between 1 and the page count, at its place within that page |
| ProjectsPage.VisibleUpTo | client/src/pages/projects.tsx:518-526 | exactly the pages up to the bound that are first, last or within two of the current one, ascending |
| ProjectsPage.PageButtons | client/src/pages/projects.tsx:518-530 | one button per visible page, in the order of the visible pages |
| ProjectsPage.PageButtonsCover | client/src/pages/projects.tsx:518-526 | a page has a button exactly when it is the first, the last or within two of the current page, and the buttons ascend |
| ProjectsPage.PageButtonsEllipsis | client/src/pages/projects.tsx:527-530 | an ellipsis stands before a button exactly when a page is skipped before it |
| ProjectsPage.PagingStaysInRange | client/src/pages/projects.tsx:510-557 | Previous and Next move by at most one page and never leave the range; each stays put exactly at its end |
| WeeklyReportsPage.FilteredReports | client/src/pages/weekly-reports.tsx:96-138 | no reports before they load; otherwise exactly the reports that pass the search, status, project and submitter filters |
| WeeklyReportsPage.SortedReportsFacts | client/src/pages/weekly-reports.tsx:140-143 | the list shown holds exactly the kept reports, each as often as it was fetched, newest first, with reports of equal time in their fetched order |
| WeeklyReportsPage.ClearedKeepsAll | client/src/pages/weekly-reports.tsx:96-138 | with the filters cleared every fetched report is listed |
| WeeklyReportsPage.ToggledStatusPasses | client/src/pages/weekly-reports.tsx:112-119 | selecting a report's lower-cased health lets that report through the status filter |
| WeeklyReportsPage.ReportFilterPanel.constructor | client/src/pages/weekly-reports.tsx:60-68 | the filters start cleared |
| WeeklyReportsPage.ReportFilterPanel.SetSearchTerm | client/src/pages/weekly-reports.tsx:356 | only the search term changes |
| WeeklyReportsPage.ReportFilterPanel.SetProjectFilter | client/src/pages/weekly-reports.tsx:363 | only the project filter changes |
| WeeklyReportsPage.ReportFilterPanel.ToggleStatus | client/src/pages/weekly-reports.tsx:227-233 | the status is dropped when selected and appended otherwise; the selection stays free of repeats |
| WeeklyReportsPage.ReportFilterPanel.TogglePM | client/src/pages/weekly-reports.tsx:235-239 | the manager is dropped when selected and appended otherwise; the selection stays free of repeats |
| WeeklyReportsPage.ReportFilterPanel.ClearAllFilters | client/src/pages/weekly-reports.tsx:241-247 | every filter is back at its start |
| TechnicalReviewsPage.FilteredReviews | client/src/pages/technical-reviews.tsx:97-137 | no reviews before they load; otherwise exactly the reviews that pass the search, type, project and conductor filters |
| TechnicalReviewsPage.SortedReviewsFacts | client/src/pages/technical-reviews.tsx:139-142 | the list shown holds exactly the kept reviews, each as often as it was fetched, newest first, with reviews of equal time in their fetched order |
| TechnicalReviewsPage.ClearedKeepsAll | client/src/pages/technical-reviews.tsx:97-137 | with the filters cleared every fetched review is listed |
| TechnicalReviewsPage.TypeFilterIgnoresCase | client/src/pages/technical-reviews.tsx:113-118 | the type filter reads the same whatever the case of the selection |
| TechnicalReviewsPage.ReviewFilterPanel.constructor | client/src/pages/technical-reviews.tsx:55-63 | the filters start cleared |
| TechnicalReviewsPage.ReviewFilterPanel.SetSearchTerm | client/src/pages/technical-reviews.tsx:349 | only the search term changes |
| TechnicalReviewsPage.ReviewFilterPanel.SetTypeFilter | client/src/pages/technical-reviews.tsx:356 | only the type filter changes |
| TechnicalReviewsPage.ReviewFilterPanel.SetProjectFilter | client/src/pages/technical-reviews.tsx:371 | only the project filter changes |
| TechnicalReviewsPage.ReviewFilterPanel.TogglePM | client/src/pages/technical-reviews.tsx:230-234 | the name is dropped when selected and appended otherwise; the selection stays free of repeats |
| TechnicalReviewsPage.ReviewFilterPanel.ClearAllFilters | client/src/pages/technical-reviews.tsx:236-241 | the search, both selects and the manager selection are back at their start |
| DashboardPage.SimulatedReports | client/src/pages/dashboard.tsx:142-149 | one simulated report per project, the i-th with id i+1 carrying that project's id, status, importance and escalation |
| DashboardPage.LatestReportForFacts | client/src/pages/dashboard.tsx:157-159 | the first report of the project, and none exactly when the project has no report |
| DashboardPage.SimulatedReportOfProject | client/src/pages/dashboard.tsx:142-159 | a project whose id is not repeated before it finds its own simulated report |
| DashboardPage.FilteredProjects | client/src/pages/dashboard.tsx:161-193 | exactly the projects that pass the search, status and importance filters |
| DashboardPage.NoReportNeedsAll | client/src/pages/dashboard.tsx:174-190 | a project without a report passes exactly when it matches the search and both selects are at "all" |
| DashboardPage.QualifiesIffPriority | client/src/pages/dashboard.tsx:204-218 | a project is a candidate exactly when its priority is at least 1 |
| DashboardPage.DashboardProjectsPrefix | client/src/pages/dashboard.tsx:199-221 | at most six cards: the first six of the candidates ranked by priority, or all of them when fewer |
| DashboardPage.RankedMembers | client/src/pages/dashboard.tsx:199-220 | ranking keeps exactly the candidates |
| DashboardPage.DashboardProjectsQualify | client/src/pages/dashboard.tsx:199-210 | every card is a qualifying listed project shown with its latest report |
| DashboardPage.DashboardProjectsSorted | client/src/pages/dashboard.tsx:211-220 | the cards are in descending priority: Red, then escalation, then High importance |
| DashboardPage.DashboardProjectsTop | client/src/pages/dashboard.tsx:211-221 | a candidate left out has no higher priority than any card shown |
| DashboardPage.DashboardProjectsStable | client/src/pages/dashboard.tsx:211-220 | the cards of one priority shown are the first candidates of that priority, in list order; with six candidates or fewer, all of them |
| DashboardPage.StaticData | client/src/pages/dashboard.tsx:48-139 | the ten static projects have ids 1 to 10, and only the first is Red, escalated or of High importance |
| DashboardPage.StaticOthersRejected | client/src/pages/dashboard.tsx:199-210 | none of the other nine static projects qualifies |
| DashboardPage.StaticCandidates | client/src/pages/dashboard.tsx:199-210 | the only candidate of the static data is KAV with its Red report |
| DashboardPage.StaticDashboard | client/src/pages/dashboard.tsx:196-224 | the dashboard shows exactly one card, KAV |
| RecentActivity.Rendered | client/src/components/dashboard/recent-activity.tsx:36 | a present text renders as itself and a missing one as "undefined" |
| RecentActivity.ReportItems | client/src/components/dashboard/recent-activity.tsx:31-55 | the corrected reading: a report gives its own entry, followed by an escalation entry exactly when it is escalated |
| RecentActivity.ReportItemsAsWritten | client/src/components/dashboard/recent-activity.tsx:31-55 | as written: a report gives its own entry, followed by an escalation entry exactly when its escalation text is non-empty, "None" included |
| RecentActivity.NoneEscalationFlagged | client/src/components/dashboard/recent-activity.tsx:43 | as written, the escalation text "None" adds an escalation entry; the corrected reading adds none |
| RecentActivity.EscalationReadingsAgree | client/src/components/dashboard/recent-activity.tsx:43-54 | for every other escalation text both readings give the same entries |
| RecentActivity.AsWrittenIgnoresConductor | client/src/components/dashboard/recent-activity.tsx:65 | as written, the description reads "review by undefined" whoever conducted the review |
| RecentActivity.ConductorText | client/src/components/dashboard/recent-activity.tsx:65 | the corrected text is the conductor's id, which reads back as that id, or "null" without a conductor |
| RecentActivity.ConductorTextInjective | client/src/components/dashboard/recent-activity.tsx:65 | different conductors render differently |
| RecentActivity.ReviewItemNamesConductor | client/src/components/dashboard/recent-activity.tsx:60-71 | two reviews of one type by different conductors have different descriptions |
| RecentActivity.PushReportItems | client/src/components/dashboard/recent-activity.tsx:31-55 | the loop appends each report's entries as written, in report order, an escalation entry following every report with a non-empty escalation text |
| RecentActivity.PushReport | client/src/components/dashboard/recent-activity.tsx:30-53 | one report's pushes are its own entry, then an escalation entry exactly when the escalation text is non-empty |
| RecentActivity.PushReviewItems | client/src/components/dashboard/recent-activity.tsx:60-71 | the loop appends each review's entry as written, "<type> review by undefined", in review order |
| RecentActivity.GenerateActivityItems | client/src/components/dashboard/recent-activity.tsx:26-76 | the method computes the feed as written: the entries of the first three reports and the first two reviews, newest first, at most six |
| RecentActivity.ReportActivitiesCount | client/src/components/dashboard/recent-activity.tsx:31-55 | one entry per report plus one per report whose escalation text is non-empty |
| RecentActivity.ReportActivitiesMembers | client/src/components/dashboard/recent-activity.tsx:31-55 | an entry is listed exactly when it is the entry of one of the reports, or the escalation entry of one with a non-empty escalation text |
| RecentActivity.CollectedMembers | client/src/components/dashboard/recent-activity.tsx:30-72 | before sorting, exactly the entries as written of the first three reports and of the first two reviews |
| RecentActivity.CollectedEmpty | client/src/components/dashboard/recent-activity.tsx:92 | the feed is empty exactly when neither reports nor reviews are there |
| RecentActivity.CollectedCount | client/src/components/dashboard/recent-activity.tsx:30-72 | up to three reports, one more per one of them with a non-empty escalation text, and up to two reviews |
| RecentActivity.ActivityItemsPrefix | client/src/components/dashboard/recent-activity.tsx:75 | at most six entries, the first of the sorted list |
| RecentActivity.ActivityItemsSorted | client/src/components/dashboard/recent-activity.tsx:75 | the feed is newest first and shows only collected entries |
| RecentActivity.ActivityItemsNewest | client/src/components/dashboard/recent-activity.tsx:75 | an entry left out is no newer than any entry shown |
| RecentActivity.ActivityItemsStable | client/src/components/dashboard/recent-activity.tsx:75 | the entries of one time shown are the first collected entries of that time, in collected order; with six entries or fewer, all of them |
| RecentActivity.FormatRelativeTime | client/src/components/dashboard/recent-activity.tsx:80-90 | whole minutes below an hour, whole hours below a day, whole days otherwise |
| RecentActivity.RelativeTimeRanges | client/src/components/dashboard/recent-activity.tsx:83-89 | the minutes shown are 0 to 59, the hours 1 to 23 and the days at least 1 |
| ProjectForm.AddTagFacts | client/src/components/forms/project-form.tsx:128-133 | a blank or already present tag changes nothing; any other trimmed tag is appended and the input cleared; a non-blank tag is present afterwards |
| ProjectForm.AddTagKeepsValid | client/src/components/forms/project-form.tsx:128-133 | adding keeps the tags trimmed, non-empty and free of repeats |
| ProjectForm.AddTagIdempotent | client/src/components/forms/project-form.tsx:128-133 | adding the same input twice adds it once |
| ProjectForm.TagsAfterRemove | client/src/components/forms/project-form.tsx:135-137 | the removed tag is gone and every other tag is kept |
| ProjectForm.RemoveTagFacts | client/src/components/forms/project-form.tsx:135-137 | removal keeps the order of the other tags and keeps the tags valid |
| ProjectForm.RemoveUndoesAdd | client/src/components/forms/project-form.tsx:128-137 | removing a tag just added restores the list |
| ProjectForm.TagEditor.constructor | client/src/components/forms/project-form.tsx:51-52 | no tags and an empty input |
| ProjectForm.TagEditor.SetNewTag | client/src/components/forms/project-form.tsx:566 | only the input changes |
| ProjectForm.TagEditor.AddTag | client/src/components/forms/project-form.tsx:128-133 | the tags and the input become those of adding the input; the tags stay valid |
| ProjectForm.TagEditor.RemoveTag | client/src/components/forms/project-form.tsx:135-137 | the tags lose that tag and the input is kept; the tags stay valid |
| ProjectForm.ProjectRequest | client/src/components/forms/project-form.tsx:87-94 | the request carries the editor's tags in place of the form's and every other field of the form unchanged |
| ProjectForm.RequestIgnoresFormTags | client/src/components/forms/project-form.tsx:124-126 | the form's own tag field never reaches the request |
| TechnicalReviewForm.Participants | client/src/components/forms/technical-review-form.tsx:95 | one participant per comma-separated piece, each piece trimmed |
| TechnicalReviewForm.ParticipantsFacts | client/src/components/forms/technical-review-form.tsx:95 | one participant more than there are commas, each trimmed and free of commas |
| TechnicalReviewForm.SingleParticipant | client/src/components/forms/technical-review-form.tsx:95 | without a comma the trimmed input is the only participant |
| TechnicalReviewForm.DefaultValue | client/src/components/forms/technical-review-form.tsx:168-175 | false exactly for a checkbox, 0 exactly for a slider or a number, "" for every other type |
| TechnicalReviewForm.WithType | client/src/components/forms/technical-review-form.tsx:167-180 | the label is kept, the type set and the value reset to the type's default |
| TechnicalReviewForm.WithTypeForgets | client/src/components/forms/technical-review-form.tsx:167-180 | choosing a type twice is choosing it once, and the value typed before is forgotten |
| TechnicalReviewForm.SelectOptions | client/src/components/forms/technical-review-form.tsx:256-260 | the options are the comma-separated pieces of the input, untrimmed |
| TechnicalReviewForm.SelectOptionsRoundTrip | client/src/components/forms/technical-review-form.tsx:251-260 | what is typed into a select's input is what it shows afterwards, with one option more than it has commas |
| TechnicalReviewForm.Without | client/src/components/forms/technical-review-form.tsx:268 | the list without the entry at the index, the rest in order |
| TechnicalReviewForm.DefaultsWellTyped | client/src/components/forms/technical-review-form.tsx:141-180 | a new parameter, and a freshly typed one, hold a value of the kind their type calls for |
| TechnicalReviewForm.CustomFields.constructor | client/src/components/forms/technical-review-form.tsx:122-125 | no parameters |
| TechnicalReviewForm.CustomFields.Append | client/src/components/forms/technical-review-form.tsx:141-143 | an unnamed checkbox parameter set to false is appended |
| TechnicalReviewForm.CustomFields.SetLabel | client/src/components/forms/technical-review-form.tsx:160-162 | only that parameter's label changes |
| TechnicalReviewForm.CustomFields.ChangeType | client/src/components/forms/technical-review-form.tsx:167-180 | only that parameter changes, to the new type with its default value |
| TechnicalReviewForm.CustomFields.SetOptions | client/src/components/forms/technical-review-form.tsx:256-260 | only that select's value changes, to the options of the input |
| TechnicalReviewForm.CustomFields.Remove | client/src/components/forms/technical-review-form.tsx:268 | the parameter at the index is removed, the others kept in order |
| Sidebar.VisibleItems | client/src/components/layout/sidebar.tsx:96-98 | nothing without a user or with an empty role; otherwise exactly the entries that list the role |
| Sidebar.ProjectManagerItems | client/src/components/layout/sidebar.tsx:20-27 | a project manager sees the first four entries, in order |
| Sidebar.ProjectManagerNoAnalytics | client/src/components/layout/sidebar.tsx:25-26 | a project manager never sees Analytics or LLM Configuration |
| Sidebar.ManagersSeeAll | client/src/components/layout/sidebar.tsx:20-27 | delivery managers and admins see every entry, in order |
| Sidebar.OtherRolesSeeNothing | client/src/components/layout/sidebar.tsx:96-98 | any other role sees nothing |
| Sidebar.RootActiveOnlyAtRoot | client/src/components/layout/sidebar.tsx:54 | the dashboard entry is highlighted only at "/" itself |
| Sidebar.ActiveIsPrefix | client/src/components/layout/sidebar.tsx:54 | any other entry is highlighted exactly where the location begins with its link |
| Sidebar.ProjectsPrefixExample | client/src/components/layout/sidebar.tsx:54 | the raw prefix test highlights the projects entry on "/projectsX" |
| Regex.LazyToStop | client/src/pages/analytics.tsx:169-175 | the lazy capture at a position is the shortest non-empty run on one line that ends before a full stop or at the end, and none when no such run exists |
| Regex.SearchLazyLeftmost | client/src/pages/analytics.tsx:169-175 | the search finds a match exactly when the word followed by the capture occurs somewhere, and then returns the capture of the leftmost occurrence |
| Regex.SearchLazyReaches | client/src/pages/analytics.tsx:169-175 | a search started before the first occurrence returns that occurrence's capture |
| Regex.SearchLazyFinds | client/src/pages/analytics.tsx:169-175 | given the first occurrence, the search's result is its capture |
| Regex.SearchLazyMisses | client/src/pages/analytics.tsx:169-175 | without any occurrence the search fails |
| Regex.SearchLazyNonEmpty | client/src/pages/analytics.tsx:169-175 | a capture found holds at least one character |
| Regex.LazyReaches | client/src/components/dashboard/ai-assessment-header.tsx:71-73 | true exactly when the colour word occurs after the position on the same line |
| Regex.CountAt | client/src/components/dashboard/ai-assessment-header.tsx:71-73 | a count read at a position is a maximal non-empty run of digits taken from the text there |
| Regex.CountAtMeaning | client/src/components/dashboard/ai-assessment-header.tsx:71-73 | a count is read at a position exactly when digits, optional white space, "projects" and the colour later on that line follow it, and then it is those digits |
| Regex.SearchCount | client/src/components/dashboard/ai-assessment-header.tsx:71-73 | the leftmost position where a count can be read gives the result; none when there is no such position; the result is a digit run |
| Routes.StoreProcessed | server/routes.ts:323 | the store stays consistent and the users, reviews, LLM configurations and analyses are untouched by one import as written |

## Left out

- Reading workbooks and listing files (`XLSX.readFile`, `sheet_to_json`, `getExcelFiles`) is
  file I/O. The parser starts from the two-dimensional cell array.
- The HTTP call to the LLM and `JSON.parse` are foreign calls. They are the parameters
  `reply` and `parseJson`. The prompt text is not modelled.
- `Math.random` project codes and `new Date()` are the parameters `code`/`draw` and `now`.
- The seed data of the store's constructor is hard-coded sample content. The model starts
  from an empty, consistent store.
- server/index.ts is not part of this model. It covers startup, logging and auto-processing,
  all of which are I/O.
- The Express layer is not modelled: routing, status serialisation, `Promise.all`
  enrichment, and the always-admin authentication stub. Handlers return `Result` values
  instead.
- `GET /api/excel/summaries` is not modelled. It is a field-by-field renaming of
  `getAIAnalyzedReports`, and that operation is modelled.
- Zod and drizzle validation of request bodies is library code. Records are the schema's
  shapes only.
- These columns are not modelled, because no core operation reads or writes them
  (shared/schema.ts):
  - the project's `slaKpiMetrics`, `documentationUrl` and `updatedAt`;
  - the technical review's nine free-text section columns, from `architectureDesignReview`
    to `sqaValidation`;
  - the portfolio analysis's `columnsUsedForAnalysis`.
- Case folding covers ASCII letters only. Every pattern and search compared against is
  ASCII, but text with other letters may fold differently in JavaScript.
- Dates are not rendered as local or ISO text. Grouping keys are whole UTC days.
- Tower percentages (`toFixed`/`parseFloat`) are floating point. Only the integer counts are
  modelled.
- The order of `Object.values` over the tower dictionary is modelled as first-insertion
  order.
- The in-place `sort` of the reports, reviews and activity lists is modelled as a function
  returning the sorted sequence. Its stability, order and contents are proved about that
  value, not about the array being updated in place.
- Routes.StoreProcessed: states only that the store stays consistent and that the tables the
  import does not touch are unchanged. What the import does to projects and reports is
  stated on Storage.MemStorage.CreateOrUpdateWeeklyReportFromExcel.
- Routes.ProcessRows: the contract leaves the project and report tables unstated after the
  loop, beyond the store staying consistent. Each row is stored by a call of
  Routes.StoreProcessed, whose effect is not stated either.
- Routes.ProcessFile: the contract leaves the project and report tables unstated after the
  file, for the same reason.
- Routes.ProcessExcelFiles: the contract leaves the project and report tables unstated after
  a processed batch, for the same reason.
- OpenAIService.Tally: the entries are in first-occurrence order. A JavaScript object lists
  integer-like keys first, in ascending order, and the risk level is not checked, so such a
  level would come earlier in the source. The contract states no order.
- ExcelParser.GetCellValue: a numeric cell carries the text JavaScript prints for it as
  given. How a floating-point number is rendered as text is not modelled.
- Analytics.GetProjectMetrics: `criticalProjects` is not modelled, because the analysis
  JSON is modelled by its four colour counts only.
- Routes.AnalyzeProject: the handler is split into Routes.SummariseLatest, which chooses the
  report and summarises it, and Routes.StoreAiFields, which writes the AI fields back.
- The dashboard statistics count escalations by truthiness, as server/routes.ts:257 does, so
  an escalation text of "None" counts. This is the same reading as the third finding below.
  The statistics are kept as written, and their contract makes no claim about what counts as
  an escalation.
- Filters the pages declare but never apply to the list are not modelled.
- Activity icons and colours are presentation.
- The custom-parameter value setters for checkbox, slider, number and text inputs are not
  modelled. They only store what the widget gives; the select option split is modelled.
- Rendering, data fetching, charts, badges, the navbar, routing, the LLM configuration pages,
  the weekly report form and the spreadsheet, CSV and JSON export are presentation or I/O.

## Findings

| source | as written | input that shows it | evidently intended | confidence | as-written member | corrected member |
|---|---|---|---|---|---|---|
| server/storage.ts:812 | a new report created by an Excel import goes through `createWeeklyStatusReport`, which sets `aiStatus` and `aiAssessmentDescription` to null, so the summary computed for it is lost | the first import of any project: the report is stored without its summary and is not listed by `getAIAnalyzedReports` | the summary passed to the import is stored on the new report, as it is on an updated one | not executed | Storage.MemStorage.CreateOrUpdateWeeklyReportFromExcel, Storage.MemStorage.UpsertExcelReport, Storage.UnanalyzedReportNotListed | Storage.MemStorage.ImportWeeklyReportFromExcel, Storage.MemStorage.UpsertExcelReportKeepingSummary, Storage.MemStorage.CreateAnalyzedWeeklyStatusReport, Storage.AnalyzedReportListed |
| client/src/components/dashboard/recent-activity.tsx:65 | the review entry names the conductor by `review.conductorId`, a field technical reviews do not have, so the text always reads "undefined" | any review, whoever conducted it | the entry names the review's `conductedBy` | not executed | RecentActivity.ReviewItemAsWritten, RecentActivity.AsWrittenIgnoresConductor | RecentActivity.ReviewItem, RecentActivity.ReviewItemNamesConductor |
| client/src/components/dashboard/recent-activity.tsx:43 | the escalation entry is added when `clientEscalation` is truthy, and the import stores the text "None" for no escalation | a report whose escalation is "None" gets an escalation entry | an escalation entry only for a value other than "None", as the project card tests it | not executed | RecentActivity.ReportItemsAsWritten, RecentActivity.NoneEscalationFlagged | RecentActivity.ReportItems, RecentActivity.EscalationReadingsAgree |
