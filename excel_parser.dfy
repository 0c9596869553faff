/** The weekly status report reader (`server/services/excelParser.ts`): the first sheet of a
    workbook, as the rows of cells the spreadsheet library produces, becomes one
    `ExcelReportData` per non-blank data row, each field found by a list of candidate column
    names matched case-insensitively against the header row. */
module ExcelParser {
  import opened Outcomes
  import Js
  import Seqs

  /** A spreadsheet cell as it reaches the parser. A number is carried as the text
      `Number.prototype.toString` gives for it (`"12"`, `"2.5"`, `"1e+21"`); the parser only
      ever reads a number through that text. */
  datatype Cell = Undefined | Null | Str(s: string) | Num(text: string) | Bool(b: bool)

  /** JavaScript truthiness of a cell value. */
  predicate Truthy(c: Cell) {
    match c
    case Undefined => false
    case Null => false
    case Str(s) => s != ""
    case Num(t) => t != "0" && t != "NaN"
    case Bool(b) => b
  }

  /** `c?.toString() || ''`. */
  function CellString(c: Cell): string {
    match c
    case Undefined => ""
    case Null => ""
    case Str(s) => s
    case Num(t) => t
    case Bool(b) => if b then "true" else "false"
  }

  /** `row[i]`: reading past the end of a row gives `undefined`. */
  function CellAt(row: seq<Cell>, i: nat): Cell {
    if i < |row| then row[i] else Undefined
  }

  /** One parsed row. `weekNumber` is `None` when `parseInt` gives `NaN`. */
  datatype ExcelReportData = ExcelReportData(
    projectName: string,
    weekNumber: Option<int>,
    healthPreviousWeek: string,
    healthCurrentWeek: string,
    updateForCurrentWeek: string,
    planForNextWeek: string,
    issuesChallenges: string,
    pathToGreen: string,
    resourcingStatus: string,
    clientEscalation: string,
    tower: string,
    billingModel: string,
    fte: string,
    revenue: string)

  // ---------------------------------------------------------------------------------------
  // Column candidates, in the order the parser tries them

  const ProjectNameColumns: seq<string> := ["Project Name", "Project", "Name"]
  const WeekNumberColumns: seq<string> := ["Week Number", "Week", "Week #"]
  const HealthPreviousColumns: seq<string> := ["Health Previous Week", "Previous Health", "Last Week Health"]
  const HealthCurrentColumns: seq<string> := ["Health Current Week", "Current Health", "This Week Health"]
  const UpdateColumns: seq<string> := ["Update Current Week", "Current Week Update", "This Week Update"]
  const PlanColumns: seq<string> := ["Plan Next Week", "Next Week Plan", "Plan for Next Week"]
  const IssuesColumns: seq<string> := ["Issues Challenges", "Issues", "Challenges", "Issues/Challenges"]
  const PathToGreenColumns: seq<string> := ["Path to Green", "Path Green", "Recovery Plan"]
  const ResourcingColumns: seq<string> := ["Resourcing Status", "Resources", "Resource Status"]
  const EscalationColumns: seq<string> := ["Client Escalation", "Escalation", "Client Issues"]
  const TowerColumns: seq<string> := ["Tower", "Team Tower", "Tower Assignment"]
  const BillingColumns: seq<string> := ["Billing Model", "Billing", "Contract Type"]
  const FteColumns: seq<string> := ["FTE", "Full Time Equivalent", "Team Size"]
  const RevenueColumns: seq<string> := ["Revenue", "Contract Value", "Project Value"]

  const TooFewRows := "Excel file must have at least a header row and one data row"
  const FailurePrefix := "Failed to parse Excel file: "

  // ---------------------------------------------------------------------------------------
  // Locating a column

  /** A header cell names the column `name` when it is truthy and its text contains `name`,
      both lower-cased. */
  predicate HeaderMatches(h: Cell, name: string) {
    Truthy(h) && Js.IncludesIgnoreCase(CellString(h), name)
  }

  /** `headers.findIndex(h => h && h.toString().toLowerCase().includes(name.toLowerCase()))`,
      with `None` for `-1`. */
  function HeaderIndex(headers: seq<Cell>, name: string): (r: Option<nat>)
    ensures r.None? <==> forall j :: 0 <= j < |headers| ==> !HeaderMatches(headers[j], name)
    ensures r.Some? ==> r.value < |headers| && HeaderMatches(headers[r.value], name)
                        && forall j :: 0 <= j < r.value ==> !HeaderMatches(headers[j], name)
  {
    Seqs.FindIndex(headers, MatchesName(name))
  }

  function MatchesName(name: string): Cell -> bool {
    (h: Cell) => HeaderMatches(h, name)
  }

  /** A candidate decides the value when its column exists and the row's cell there is not
      `undefined`. */
  predicate Decides(row: seq<Cell>, headers: seq<Cell>, name: string) {
    var hi := HeaderIndex(headers, name);
    hi.Some? && CellAt(row, hi.value) != Undefined
  }

  /** The specification of `getCellValue`: the text of the cell under the first candidate
      that decides, and `""` when none does. */
  function CellValue(row: seq<Cell>, headers: seq<Cell>, names: seq<string>): string {
    match Seqs.FindIndex(names, DecidedBy(row, headers))
    case None => ""
    case Some(k) => CellString(CellAt(row, HeaderIndex(headers, names[k]).value))
  }

  /** No deciding candidate gives `""`; a non-empty value is the cell under the first
      candidate that decides. */
  lemma {:induction false} CellValueFacts(row: seq<Cell>, headers: seq<Cell>, names: seq<string>)
    ensures (forall k :: 0 <= k < |names| ==> !Decides(row, headers, names[k])) ==> CellValue(row, headers, names) == ""
    ensures CellValue(row, headers, names) != "" ==> exists k ::
              && 0 <= k < |names| && Decides(row, headers, names[k])
              && CellValue(row, headers, names) == CellString(CellAt(row, HeaderIndex(headers, names[k]).value))
              && forall m :: 0 <= m < k ==> !Decides(row, headers, names[m])
  {
    var decides := DecidedBy(row, headers);
    var r := Seqs.FindIndex(names, decides);
    if r.Some? {
      var k := r.value;
      assert decides(names[k]);
      assert forall m :: 0 <= m < k ==> !decides(names[m]);
    } else {
      assert forall k :: 0 <= k < |names| ==> !decides(names[k]);
    }
  }

  function DecidedBy(row: seq<Cell>, headers: seq<Cell>): string -> bool {
    (name: string) => Decides(row, headers, name)
  }

  /** `getCellValue(row, headers, names)`. */
  method GetCellValue(row: seq<Cell>, headers: seq<Cell>, names: seq<string>) returns (v: string)
    ensures v == CellValue(row, headers, names)
  {
    var k := 0;
    while k < |names|
      invariant 0 <= k <= |names|
      invariant CellValue(row, headers, names) == CellValue(row, headers, names[k..])
    {
      var headerIndex := HeaderIndex(headers, names[k]);
      if headerIndex.Some? && CellAt(row, headerIndex.value) != Undefined {
        FirstCandidateWins(row, headers, names[k..], headerIndex.value);
        return CellString(CellAt(row, headerIndex.value));
      }
      UndecidedFallsThrough(row, headers, names[k..]);
      assert names[k..][1..] == names[k + 1..];
      k := k + 1;
    }
    return "";
  }

  /** The first candidate that decides gives the value. */
  lemma {:induction false} FirstDeciding(row: seq<Cell>, headers: seq<Cell>, names: seq<string>, k: nat)
    requires k < |names| && Decides(row, headers, names[k])
    requires forall m :: 0 <= m < k ==> !Decides(row, headers, names[m])
    ensures CellValue(row, headers, names) == CellString(CellAt(row, HeaderIndex(headers, names[k]).value))
  {
    var decides := DecidedBy(row, headers);
    assert decides(names[k]);
    assert forall m :: 0 <= m < k ==> !decides(names[m]);
    Seqs.FindIndexAt(names, decides, k);
  }

  // ---------------------------------------------------------------------------------------
  // Rows

  /** `row.every(cell => !cell)`. */
  predicate Blank(row: seq<Cell>) {
    forall i :: 0 <= i < |row| ==> !Truthy(row[i])
  }

  /** `s || d` on strings. */
  function OrDefault(s: string, d: string): string {
    if s != "" then s else d
  }

  /** The report for one data row. */
  function RowReport(row: seq<Cell>, headers: seq<Cell>): ExcelReportData {
    ExcelReportData(
      projectName := CellValue(row, headers, ProjectNameColumns),
      weekNumber := Js.ParseInt(OrDefault(CellValue(row, headers, WeekNumberColumns), "0")),
      healthPreviousWeek := OrDefault(CellValue(row, headers, HealthPreviousColumns), "Green"),
      healthCurrentWeek := OrDefault(CellValue(row, headers, HealthCurrentColumns), "Green"),
      updateForCurrentWeek := CellValue(row, headers, UpdateColumns),
      planForNextWeek := CellValue(row, headers, PlanColumns),
      issuesChallenges := CellValue(row, headers, IssuesColumns),
      pathToGreen := CellValue(row, headers, PathToGreenColumns),
      resourcingStatus := CellValue(row, headers, ResourcingColumns),
      clientEscalation := OrDefault(CellValue(row, headers, EscalationColumns), "None"),
      tower := CellValue(row, headers, TowerColumns),
      billingModel := CellValue(row, headers, BillingColumns),
      fte := CellValue(row, headers, FteColumns),
      revenue := CellValue(row, headers, RevenueColumns))
  }

  /** The data rows that are not blank, in order. */
  function NonBlankRows(rows: seq<seq<Cell>>): (r: seq<seq<Cell>>)
    ensures |r| <= |rows|
    ensures forall i :: 0 <= i < |r| ==> !Blank(r[i])
    ensures forall x :: x in r <==> x in rows && !Blank(x)
  {
    if |rows| == 0 then []
    else
      var init := rows[..|rows| - 1];
      assert forall x :: x in rows <==> x in init || x == rows[|rows| - 1];
      NonBlankRows(init) + (if Blank(rows[|rows| - 1]) then [] else [rows[|rows| - 1]])
  }

  /** The reports of a sequence of data rows: blank rows are skipped, the others kept in
      order. */
  function RowsReports(rows: seq<seq<Cell>>, headers: seq<Cell>): (r: seq<ExcelReportData>)
    ensures |r| == |NonBlankRows(rows)|
    ensures forall i :: 0 <= i < |r| ==> r[i] == RowReport(NonBlankRows(rows)[i], headers)
  {
    Seqs.Map(NonBlankRows(rows), ReportOfRow(headers))
  }

  function ReportOfRow(headers: seq<Cell>): seq<Cell> -> ExcelReportData {
    (row: seq<Cell>) => RowReport(row, headers)
  }

  /** Appending a data row to the rows appends it to the non-blank ones, unless it is blank. */
  lemma {:induction false} NonBlankRowsSnoc(rows: seq<seq<Cell>>, row: seq<Cell>)
    ensures NonBlankRows(rows + [row]) == NonBlankRows(rows) + (if Blank(row) then [] else [row])
  {
    var all := rows + [row];
    assert all[..|all| - 1] == rows;
    assert all[|all| - 1] == row;
  }

  /** Mapping the non-blank rows over one more row maps it too, unless it is blank. */
  lemma {:induction false} MapNonBlankSnoc<B>(rows: seq<seq<Cell>>, row: seq<Cell>, f: seq<Cell> -> B)
    ensures Seqs.Map(NonBlankRows(rows + [row]), f)
         == Seqs.Map(NonBlankRows(rows), f) + (if Blank(row) then [] else [f(row)])
  {
    var kept := NonBlankRows(rows);
    NonBlankRowsSnoc(rows, row);
    if Blank(row) {
      assert kept + [] == kept;
    } else {
      Seqs.MapAppend(kept, [row], f);
      var single := Seqs.Map([row], f);
      assert single[0] == f(row);
      assert single == [f(row)];
    }
  }

  /** Appending a data row appends its report, unless the row is blank. */
  lemma {:induction false} RowsReportsSnoc(rows: seq<seq<Cell>>, row: seq<Cell>, headers: seq<Cell>)
    ensures RowsReports(rows + [row], headers)
         == RowsReports(rows, headers) + (if Blank(row) then [] else [RowReport(row, headers)])
  {
    MapNonBlankSnoc(rows, row, ReportOfRow(headers));
    assert ReportOfRow(headers)(row) == RowReport(row, headers);
  }

  /** The specification of `parseWeeklyStatusReport`. The sheet is given as the outcome of
      reading it: a failure to read carries the library's message. */
  function ParseSheet(sheet: Result<seq<seq<Cell>>, string>): Result<seq<ExcelReportData>, string> {
    match sheet
    case Err(e) => Err(FailurePrefix + e)
    case Ok(rows) =>
      if |rows| < 2 then Err(FailurePrefix + TooFewRows)
      else Ok(RowsReports(rows[1..], rows[0]))
  }

  /** Builds the report of one row, one `getCellValue` per field. */
  method BuildReport(row: seq<Cell>, headers: seq<Cell>) returns (r: ExcelReportData)
    ensures r == RowReport(row, headers)
  {
    var projectName := GetCellValue(row, headers, ProjectNameColumns);
    var week := GetCellValue(row, headers, WeekNumberColumns);
    var healthPrevious := GetCellValue(row, headers, HealthPreviousColumns);
    var healthCurrent := GetCellValue(row, headers, HealthCurrentColumns);
    var update := GetCellValue(row, headers, UpdateColumns);
    var plan := GetCellValue(row, headers, PlanColumns);
    var issues := GetCellValue(row, headers, IssuesColumns);
    var pathToGreen := GetCellValue(row, headers, PathToGreenColumns);
    var resourcing := GetCellValue(row, headers, ResourcingColumns);
    var escalation := GetCellValue(row, headers, EscalationColumns);
    var tower := GetCellValue(row, headers, TowerColumns);
    var billing := GetCellValue(row, headers, BillingColumns);
    var fte := GetCellValue(row, headers, FteColumns);
    var revenue := GetCellValue(row, headers, RevenueColumns);
    r := ExcelReportData(projectName, Js.ParseInt(OrDefault(week, "0")),
      OrDefault(healthPrevious, "Green"), OrDefault(healthCurrent, "Green"), update, plan, issues,
      pathToGreen, resourcing, OrDefault(escalation, "None"), tower, billing, fte, revenue);
  }

  /** `parseWeeklyStatusReport`: the loop over the data rows. */
  method ParseWeeklyStatusReport(sheet: Result<seq<seq<Cell>>, string>)
    returns (r: Result<seq<ExcelReportData>, string>)
    ensures r == ParseSheet(sheet)
  {
    if sheet.Err? {
      return Err(FailurePrefix + sheet.error);
    }
    var rows := sheet.value;
    if |rows| < 2 {
      return Err(FailurePrefix + TooFewRows);
    }
    var reports := DataRowReports(rows);
    return Ok(reports);
  }

  /** The loop of `parseWeeklyStatusReport` over the data rows below the header row. */
  method DataRowReports(rows: seq<seq<Cell>>) returns (reports: seq<ExcelReportData>)
    requires |rows| >= 1
    ensures reports == RowsReports(rows[1..], rows[0])
  {
    var headers := rows[0];
    var data := rows[1..];
    reports := [];
    var j := 0;
    while j < |data|
      invariant 0 <= j <= |data|
      invariant reports == RowsReports(data[..j], headers)
    {
      reports := AddRowReport(data, j, headers, reports);
      j := j + 1;
    }
    assert data[..j] == data;
  }

  /** The body of the loop: a non-blank row adds its report, a blank one is skipped. */
  method AddRowReport(data: seq<seq<Cell>>, j: nat, headers: seq<Cell>, reports: seq<ExcelReportData>)
    returns (next: seq<ExcelReportData>)
    requires j < |data| && reports == RowsReports(data[..j], headers)
    ensures next == RowsReports(data[..j + 1], headers)
  {
    var row := data[j];
    next := reports;
    if !Blank(row) {
      var report := BuildReport(row, headers);
      next := reports + [report];
    }
    DataRowStep(data, j, headers, reports, next);
  }

  /** One iteration of the loop over the data rows. */
  lemma {:induction false} DataRowStep(data: seq<seq<Cell>>, j: nat, headers: seq<Cell>,
                                       reports: seq<ExcelReportData>, next: seq<ExcelReportData>)
    requires j < |data| && reports == RowsReports(data[..j], headers)
    requires next == reports + (if Blank(data[j]) then [] else [RowReport(data[j], headers)])
    ensures next == RowsReports(data[..j + 1], headers)
  {
    var f := ReportOfRow(headers);
    assert f(data[j]) == RowReport(data[j], headers);
    MapNonBlankStep(data, j, f, reports, next);
  }

  /** One iteration of mapping the non-blank rows. */
  lemma {:induction false} MapNonBlankStep<B>(data: seq<seq<Cell>>, j: nat, f: seq<Cell> -> B, mapped: seq<B>, next: seq<B>)
    requires j < |data| && mapped == Seqs.Map(NonBlankRows(data[..j]), f)
    requires next == mapped + (if Blank(data[j]) then [] else [f(data[j])])
    ensures next == Seqs.Map(NonBlankRows(data[..j + 1]), f)
  {
    assert data[..j + 1] == data[..j] + [data[j]];
    MapNonBlankSnoc(data[..j], data[j], f);
  }

  // ---------------------------------------------------------------------------------------
  // Properties

  /** There is one report per non-blank data row, so never more reports than data rows,
      and exactly as many when no row is blank. */
  lemma {:induction false} NonBlankRowsLength(rows: seq<seq<Cell>>)
    ensures |NonBlankRows(rows)| == |rows| <==> forall i :: 0 <= i < |rows| ==> !Blank(rows[i])
  {
    if |rows| > 0 {
      var init := rows[..|rows| - 1];
      NonBlankRowsLength(init);
      assert forall i :: 0 <= i < |init| ==> init[i] == rows[i];
    }
  }

  /** A sheet with a header row only, or nothing at all, is rejected with the parser's
      message; a sheet that cannot be read is rejected with the reader's message. */
  lemma {:induction false} ParseSheetErrors(sheet: Result<seq<seq<Cell>>, string>)
    ensures ParseSheet(sheet).Err? <==> sheet.Err? || |sheet.value| < 2
    ensures sheet.Ok? && |sheet.value| < 2 ==> ParseSheet(sheet) == Err(FailurePrefix + TooFewRows)
    ensures sheet.Err? ==> ParseSheet(sheet) == Err(FailurePrefix + sheet.error)
  {
  }

  /** The health fields and the escalation always carry a value: a missing or empty cell
      gives the documented default. */
  lemma {:induction false} RowReportDefaults(row: seq<Cell>, headers: seq<Cell>)
    ensures RowReport(row, headers).healthCurrentWeek != ""
    ensures RowReport(row, headers).healthPreviousWeek != ""
    ensures RowReport(row, headers).clientEscalation != ""
    ensures CellValue(row, headers, HealthCurrentColumns) == "" ==> RowReport(row, headers).healthCurrentWeek == "Green"
    ensures CellValue(row, headers, HealthPreviousColumns) == "" ==> RowReport(row, headers).healthPreviousWeek == "Green"
    ensures CellValue(row, headers, EscalationColumns) == "" ==> RowReport(row, headers).clientEscalation == "None"
  {
  }

  /** An empty or missing week cell reads as week 0 (`parseInt('0')`). */
  lemma {:induction false} MissingWeekIsZero(row: seq<Cell>, headers: seq<Cell>)
    requires CellValue(row, headers, WeekNumberColumns) == ""
    ensures RowReport(row, headers).weekNumber == Some(0)
  {
    Js.ParseIntOfIntToString(0);
    assert Js.IntToString(0) == "0";
  }

  /** The first candidate name wins over the later ones: when its column exists and the cell
      under it is defined, that cell is the value, whatever the later candidates would find.
      A defined but empty cell therefore stops the search with `""`. */
  lemma {:induction false} FirstCandidateWins(row: seq<Cell>, headers: seq<Cell>, names: seq<string>, i: nat)
    requires |names| > 0 && HeaderIndex(headers, names[0]) == Some(i) && CellAt(row, i) != Undefined
    ensures CellValue(row, headers, names) == CellString(CellAt(row, i))
  {
    FirstDeciding(row, headers, names, 0);
  }

  /** A candidate whose column is missing, or whose cell is `undefined`, passes the search on
      to the next candidate. */
  lemma {:induction false} UndecidedFallsThrough(row: seq<Cell>, headers: seq<Cell>, names: seq<string>)
    requires |names| > 0 && !Decides(row, headers, names[0])
    ensures CellValue(row, headers, names) == CellValue(row, headers, names[1..])
  {
    Seqs.FindIndexTail(names, DecidedBy(row, headers));
    assert forall k :: 1 <= k < |names| ==> names[k] == names[1..][k - 1];
  }

  /** Integer cells come through as their decimal text, so a week-number cell holding the
      number `n` gives week `n`. */
  lemma {:induction false} NumericWeekCell(row: seq<Cell>, headers: seq<Cell>, i: nat, n: int)
    requires HeaderIndex(headers, WeekNumberColumns[0]) == Some(i) && CellAt(row, i) == Num(Js.IntToString(n))
    ensures RowReport(row, headers).weekNumber == Some(n)
  {
    var text := Js.IntToString(n);
    WeekOfNumericCell(row, headers, i, text);
    Js.ParseIntOfIntToString(n);
  }

  /** A fractional week-number cell is cut at its point: `parseInt` of `"2.5"` is 2. */
  lemma {:induction false} FractionalWeekCell(row: seq<Cell>, headers: seq<Cell>, i: nat, n: int, fraction: string)
    requires HeaderIndex(headers, WeekNumberColumns[0]) == Some(i)
    requires CellAt(row, i) == Num(Js.IntToString(n) + "." + fraction)
    ensures RowReport(row, headers).weekNumber == Some(n)
  {
    var text := Js.IntToString(n) + "." + fraction;
    assert text == Js.IntToString(n) + ("." + fraction);
    WeekOfNumericCell(row, headers, i, text);
    Js.ParseIntOfFraction(n, "." + fraction);
  }

  lemma {:induction false} WeekOfNumericCell(row: seq<Cell>, headers: seq<Cell>, i: nat, text: string)
    requires HeaderIndex(headers, WeekNumberColumns[0]) == Some(i) && CellAt(row, i) == Num(text) && text != ""
    ensures RowReport(row, headers).weekNumber == Js.ParseInt(text)
  {
    FirstCandidateWins(row, headers, WeekNumberColumns, i);
    var week := CellValue(row, headers, WeekNumberColumns);
    assert week == text;
    assert OrDefault(week, "0") == text;
    RowReportWeek(row, headers, week);
  }

  /** The week field of a row's report is `parseInt` of the week cell's text or `"0"`. */
  lemma RowReportWeek(row: seq<Cell>, headers: seq<Cell>, week: string)
    requires week == CellValue(row, headers, WeekNumberColumns)
    ensures RowReport(row, headers).weekNumber == Js.ParseInt(OrDefault(week, "0"))
  {
  }

  /** A numeric cell reaches a text field as the number's own text, fraction included, so
      an FTE of 2.5 reads as `"2.5"`. */
  lemma {:induction false} NumericTextKept(row: seq<Cell>, headers: seq<Cell>, i: nat, text: string)
    requires HeaderIndex(headers, FteColumns[0]) == Some(i) && CellAt(row, i) == Num(text)
    ensures RowReport(row, headers).fte == text
  {
    FirstCandidateWins(row, headers, FteColumns, i);
    var fte := CellValue(row, headers, FteColumns);
    assert fte == text;
    RowReportFte(row, headers, fte);
  }

  /** The FTE field of a row's report is the FTE cell's text. */
  lemma RowReportFte(row: seq<Cell>, headers: seq<Cell>, fte: string)
    requires fte == CellValue(row, headers, FteColumns)
    ensures RowReport(row, headers).fte == fte
  {
  }

  /** A column header matches a candidate name whatever the letter case of either. */
  lemma {:induction false} HeaderMatchIgnoresCase(h: string, name: string)
    requires h != "" && Js.LowerStr(h) == Js.LowerStr(name)
    ensures HeaderMatches(Str(h), name)
  {
    Js.IncludesWithin(Js.LowerStr(h), Js.LowerStr(name), 0);
  }
}
