/** The batch mapper for rows read from a tracker's CSV export
    (src/services/processCsvRecordsService.ts). A row is the object the CSV
    reader makes of a line: header text to cell text. */
module ProcessCsvRecords {
  import opened Wrappers
  import opened JsBuiltins
  import opened DateHelper
  import opened Models
  import opened RecordHelper

  type CsvRow = map<string, string>

  /** The date format each export writes its dates in. */
  const TogglDateFormat: string := "yyyy-MM-dd"
  const ClockifyDateFormat: string := "dd/MM/yyyy"

  /** The cell under `header`, or unset when the row has no such header. */
  function Cell(row: CsvRow, header: string): Option<string> {
    if header in row then Some(row[header]) else None
  }

  /** `'Billable' in row` and then `row['Billable'] === 'Yes'`; `false`
      otherwise. */
  function Billable(row: CsvRow): bool {
    "Billable" in row && row["Billable"] == "Yes"
  }

  /** A date cell: `parseDate` of its text under `format` when the header is
      there and the text is not blank, unset otherwise. */
  function DateCell(lib: DateLib, row: CsvRow, header: string, format: string): Completion<Option<Instant>> {
    if header in row && !IsBlank(row[header]) then
      var date :- ParseDate(lib, row[header], format);
      Normal(Some(date))
    else
      Normal(None)
  }

  /** The Toggl "Duration" cell as `durationDecimal` and `durationHours`:
      clock text `H:M:S` gives its hours and is kept as text, anything else
      goes through `parseFloat`, and an empty or missing cell gives
      neither. */
  function TogglDuration(row: CsvRow): (Option<Number>, Option<string>) {
    if "Duration" in row && row["Duration"] != "" then
      var raw := row["Duration"];
      if ':' in raw then (Some(StringToDecimalHours(raw)), Some(raw))
      else (Some(ParseFloat(raw)), None)
    else
      (None, None)
  }

  /** The Clockify "Duration (decimal)" cell through `parseFloat`, when it is
      not empty. */
  function ClockifyDuration(row: CsvRow): Option<Number> {
    if "Duration (decimal)" in row && row["Duration (decimal)"] != "" then
      Some(ParseFloat(row["Duration (decimal)"]))
    else
      None
  }

  /** The record the Toggl header walk fills in, before the ticket number
      and the errors are attached. */
  function TogglFields(row: CsvRow, startDate: Option<Instant>, endDate: Option<Instant>): TimeSheetRecord {
    var (decimal, hours) := TogglDuration(row);
    TimeSheetRecord(
      project := Cell(row, "Project"), description := Cell(row, "Description"),
      task := Cell(row, "Task"), tags := Cell(row, "Tags"),
      startDate := startDate, endDate := endDate,
      durationDecimal := decimal, durationHours := hours,
      startTime := Cell(row, "Start time"), endTime := Cell(row, "End time"),
      targetProcessNumber := None, recordsInAggregate := None, errors := None,
      syncedSuccess := None, billable := Some(Billable(row)))
  }

  /** `processSingleTogglRecord`: a throw while parsing a date propagates. */
  function TogglRecord(lib: DateLib, row: CsvRow): Completion<TimeSheetRecord> {
    var startDate :- DateCell(lib, row, "Start date", TogglDateFormat);
    var endDate :- DateCell(lib, row, "End date", TogglDateFormat);
    Normal(Finish(TogglFields(row, startDate, endDate)))
  }

  /** The record the Clockify header walk fills in. */
  function ClockifyFields(row: CsvRow, startDate: Option<Instant>, endDate: Option<Instant>): TimeSheetRecord {
    TimeSheetRecord(
      project := Cell(row, "Project"), description := Cell(row, "Description"),
      task := Cell(row, "Task"), tags := Cell(row, "Tags"),
      startDate := startDate, endDate := endDate,
      durationDecimal := ClockifyDuration(row), durationHours := Cell(row, "Duration (h)"),
      startTime := Cell(row, "Start Time"), endTime := Cell(row, "End Time"),
      targetProcessNumber := None, recordsInAggregate := None, errors := None,
      syncedSuccess := None, billable := Some(Billable(row)))
  }

  /** `processSingleClockifyRecord`: a throw while parsing a date
      propagates. */
  function ClockifyRecord(lib: DateLib, row: CsvRow): Completion<TimeSheetRecord> {
    var startDate :- DateCell(lib, row, "Start Date", ClockifyDateFormat);
    var endDate :- DateCell(lib, row, "End Date", ClockifyDateFormat);
    Normal(Finish(ClockifyFields(row, startDate, endDate)))
  }

  /** What one row comes to under the chosen tracker. */
  function CsvRecord(lib: DateLib, timeTracker: string, row: CsvRow): Completion<TimeSheetRecord> {
    if timeTracker == "toggl" then TogglRecord(lib, row)
    else if timeTracker == "clockify" then ClockifyRecord(lib, row)
    else Throw(timeTracker + " not implemented.")
  }

  /** What each row comes to, in input order. */
  function CsvOutcomes(lib: DateLib, timeTracker: string, rows: seq<CsvRow>): (outcomes: seq<Completion<TimeSheetRecord>>)
    ensures |outcomes| == |rows|
  {
    if rows == [] then [] else [CsvRecord(lib, timeTracker, rows[0])] + CsvOutcomes(lib, timeTracker, rows[1..])
  }

  /** Outcome `i` is row `i` under the chosen tracker. */
  lemma {:induction false} CsvOutcomesAt(lib: DateLib, timeTracker: string, rows: seq<CsvRow>, i: int)
    requires 0 <= i < |rows|
    ensures CsvOutcomes(lib, timeTracker, rows)[i] == CsvRecord(lib, timeTracker, rows[i])
  {
    if i > 0 {
      CsvOutcomesAt(lib, timeTracker, rows[1..], i - 1);
    }
  }

  // ---------------------------------------------------------------------------
  // The mappers, field by field

  /** A record whose every field is what the Toggl walk puts there is the
      walk's record. */
  lemma TogglFieldsByField(row: CsvRow, r: TimeSheetRecord)
    requires r.project == Cell(row, "Project") && r.description == Cell(row, "Description")
    requires r.task == Cell(row, "Task") && r.tags == Cell(row, "Tags")
    requires r.startTime == Cell(row, "Start time") && r.endTime == Cell(row, "End time")
    requires (r.durationDecimal, r.durationHours) == TogglDuration(row)
    requires r.billable == Some(Billable(row))
    requires r.targetProcessNumber.None? && r.recordsInAggregate.None? && r.errors.None? && r.syncedSuccess.None?
    ensures r == TogglFields(row, r.startDate, r.endDate)
  {
  }

  /** A record whose every field is what the Clockify walk puts there is
      the walk's record. */
  lemma ClockifyFieldsByField(row: CsvRow, r: TimeSheetRecord)
    requires r.project == Cell(row, "Project") && r.description == Cell(row, "Description")
    requires r.task == Cell(row, "Task") && r.tags == Cell(row, "Tags")
    requires r.startTime == Cell(row, "Start Time") && r.endTime == Cell(row, "End Time")
    requires r.durationHours == Cell(row, "Duration (h)") && r.durationDecimal == ClockifyDuration(row)
    requires r.billable == Some(Billable(row))
    requires r.targetProcessNumber.None? && r.recordsInAggregate.None? && r.errors.None? && r.syncedSuccess.None?
    ensures r == ClockifyFields(row, r.startDate, r.endDate)
  {
  }

  /** The date step of both mappers: a present, non-blank cell goes
      through `parseDate`, whose throw propagates. */
  method ParseDateCell(lib: DateLib, rawRecord: CsvRow, header: string, format: string)
    returns (cell: Completion<Option<Instant>>)
    ensures cell == DateCell(lib, rawRecord, header, format)
  {
    cell := Normal(None);
    if header in rawRecord {
      var rawDate := rawRecord[header];
      if rawDate != "" && |Trim(rawDate)| > 0 {
        var parsed := ParseDate(lib, rawDate, format);
        if parsed.Throw? {
          return Throw(parsed.message);
        }
        cell := Normal(Some(parsed.value));
      }
    }
  }

  /** The headers both mappers read first and the same way: `billable`
      starts `false`, and "Project", "Billable", "Description", "Task" and
      "Tags" are copied when present. */
  method CopyLeadingCells(rawRecord: CsvRow) returns (processedRecord: TimeSheetRecord)
    ensures processedRecord == EmptyRecord.(billable := Some(Billable(rawRecord)),
              project := Cell(rawRecord, "Project"), description := Cell(rawRecord, "Description"),
              task := Cell(rawRecord, "Task"), tags := Cell(rawRecord, "Tags"))
  {
    processedRecord := EmptyRecord;
    processedRecord := processedRecord.(billable := Some(false));
    if "Project" in rawRecord {
      processedRecord := processedRecord.(project := Some(rawRecord["Project"]));
    }
    assert processedRecord.project == Cell(rawRecord, "Project");
    if "Billable" in rawRecord {
      processedRecord := processedRecord.(billable := Some(rawRecord["Billable"] == "Yes"));
    }
    assert processedRecord.billable == Some(Billable(rawRecord));
    if "Description" in rawRecord {
      processedRecord := processedRecord.(description := Some(rawRecord["Description"]));
    }
    assert processedRecord.description == Cell(rawRecord, "Description");
    if "Task" in rawRecord {
      processedRecord := processedRecord.(task := Some(rawRecord["Task"]));
    }
    assert processedRecord.task == Cell(rawRecord, "Task");
    if "Tags" in rawRecord {
      processedRecord := processedRecord.(tags := Some(rawRecord["Tags"]));
    }
    assert processedRecord.tags == Cell(rawRecord, "Tags");
  }

  /** `processSingleTogglRecord`: fills a fresh record one header at a time. */
  method ProcessSingleTogglRecord(lib: DateLib, rawRecord: CsvRow) returns (outcome: Completion<TimeSheetRecord>)
    ensures outcome == TogglRecord(lib, rawRecord)
  {
    var processedRecord := CopyLeadingCells(rawRecord);
    var startDateCell := ParseDateCell(lib, rawRecord, "Start date", TogglDateFormat);
    if startDateCell.Throw? {
      return Throw(startDateCell.message);
    }
    processedRecord := processedRecord.(startDate := startDateCell.value);
    var endDateCell := ParseDateCell(lib, rawRecord, "End date", TogglDateFormat);
    if endDateCell.Throw? {
      return Throw(endDateCell.message);
    }
    processedRecord := processedRecord.(endDate := endDateCell.value);
    if "Start time" in rawRecord {
      processedRecord := processedRecord.(startTime := Some(rawRecord["Start time"]));
    }
    assert processedRecord.startTime == Cell(rawRecord, "Start time");
    if "End time" in rawRecord {
      processedRecord := processedRecord.(endTime := Some(rawRecord["End time"]));
    }
    assert processedRecord.endTime == Cell(rawRecord, "End time");
    if "Duration" in rawRecord && rawRecord["Duration"] != "" {
      var rawDuration := rawRecord["Duration"];
      if ':' in rawDuration {
        processedRecord := processedRecord.(durationDecimal := Some(StringToDecimalHours(rawDuration)));
        processedRecord := processedRecord.(durationHours := Some(rawDuration));
      } else {
        processedRecord := processedRecord.(durationDecimal := Some(ParseFloat(rawDuration)));
      }
    }
    assert (processedRecord.durationDecimal, processedRecord.durationHours) == TogglDuration(rawRecord);
    TogglFieldsByField(rawRecord, processedRecord);
    ghost var filled := processedRecord;
    processedRecord := processedRecord.(targetProcessNumber := TargetProcessNumber(processedRecord));
    var errors := ValidateRecord(processedRecord);
    processedRecord := processedRecord.(errors := Some(errors));
    assert processedRecord == Finish(filled);
    outcome := Normal(processedRecord);
  }

  /** `processSingleClockifyRecord`: the same walk with Clockify's header
      spellings and date format, and its two duration columns. */
  method ProcessSingleClockifyRecord(lib: DateLib, rawRecord: CsvRow) returns (outcome: Completion<TimeSheetRecord>)
    ensures outcome == ClockifyRecord(lib, rawRecord)
  {
    var processedRecord := CopyLeadingCells(rawRecord);
    var startDateCell := ParseDateCell(lib, rawRecord, "Start Date", ClockifyDateFormat);
    if startDateCell.Throw? {
      return Throw(startDateCell.message);
    }
    processedRecord := processedRecord.(startDate := startDateCell.value);
    var endDateCell := ParseDateCell(lib, rawRecord, "End Date", ClockifyDateFormat);
    if endDateCell.Throw? {
      return Throw(endDateCell.message);
    }
    processedRecord := processedRecord.(endDate := endDateCell.value);
    if "Start Time" in rawRecord {
      processedRecord := processedRecord.(startTime := Some(rawRecord["Start Time"]));
    }
    assert processedRecord.startTime == Cell(rawRecord, "Start Time");
    if "End Time" in rawRecord {
      processedRecord := processedRecord.(endTime := Some(rawRecord["End Time"]));
    }
    assert processedRecord.endTime == Cell(rawRecord, "End Time");
    if "Duration (h)" in rawRecord {
      processedRecord := processedRecord.(durationHours := Some(rawRecord["Duration (h)"]));
    }
    assert processedRecord.durationHours == Cell(rawRecord, "Duration (h)");
    if "Duration (decimal)" in rawRecord && rawRecord["Duration (decimal)"] != "" {
      var rawDuration := rawRecord["Duration (decimal)"];
      processedRecord := processedRecord.(durationDecimal := Some(ParseFloat(rawDuration)));
    }
    assert processedRecord.durationDecimal == ClockifyDuration(rawRecord);
    ClockifyFieldsByField(rawRecord, processedRecord);
    ghost var filled := processedRecord;
    processedRecord := processedRecord.(targetProcessNumber := TargetProcessNumber(processedRecord));
    var errors := ValidateRecord(processedRecord);
    processedRecord := processedRecord.(errors := Some(errors));
    assert processedRecord == Finish(filled);
    outcome := Normal(processedRecord);
  }

  /** The body of `process`'s loop for row `index`: the tracker picks the
      mapper, and any other tracker throws `<tracker> not implemented.` */
  method ProcessRow(lib: DateLib, timeTracker: string, rawRecords: seq<CsvRow>, index: nat)
    returns (outcome: Completion<TimeSheetRecord>)
    requires index < |rawRecords|
    ensures outcome == CsvOutcomes(lib, timeTracker, rawRecords)[index]
  {
    var record := rawRecords[index];
    CsvOutcomesAt(lib, timeTracker, rawRecords, index);
    if timeTracker == "toggl" {
      outcome := ProcessSingleTogglRecord(lib, record);
    } else if timeTracker == "clockify" {
      outcome := ProcessSingleClockifyRecord(lib, record);
    } else {
      outcome := Throw(timeTracker + " not implemented.");
    }
  }

  /** `ProcessCsvRecordService.process`: every row through the tracker's
      mapper, in order; an unsupported tracker throws inside the loop, and a
      throw ends the batch with the caught error and no data. */
  method Process(lib: DateLib, timeTracker: string, rawRecords: seq<CsvRow>) returns (result: ProcessRecordsResult)
    ensures result == Collect(CsvOutcomes(lib, timeTracker, rawRecords))
  {
    ghost var outcomes := CsvOutcomes(lib, timeTracker, rawRecords);
    var processedRecords: seq<TimeSheetRecord> := [];
    var index := 0;
    while index < |rawRecords|
      invariant 0 <= index <= |rawRecords|
      invariant |processedRecords| == index
      invariant forall j :: 0 <= j < index ==> outcomes[j] == Normal(processedRecords[j])
    {
      var outcome := ProcessRow(lib, timeTracker, rawRecords, index);
      if outcome.Throw? {
        result := Failed(outcome.message);
        CollectStopsAtFirstThrow(outcomes, index);
        return;
      }
      processedRecords := processedRecords + [outcome.value];
      index := index + 1;
    }
    result := Succeeded(processedRecords);
    CollectAllNormal(outcomes, processedRecords);
  }

  // ---------------------------------------------------------------------------
  // Properties of one mapped row

  /** Billable defaults to false and is true only for the exact cell
      text "Yes", in both mappers. */
  lemma BillableOnlyForYes(lib: DateLib, row: CsvRow)
    ensures TogglRecord(lib, row).Normal? ==>
      (TogglRecord(lib, row).value.billable == Some(true) <==> "Billable" in row && row["Billable"] == "Yes")
    ensures ClockifyRecord(lib, row).Normal? ==>
      (ClockifyRecord(lib, row).value.billable == Some(true) <==> "Billable" in row && row["Billable"] == "Yes")
    ensures TogglRecord(lib, row).Normal? ==> TogglRecord(lib, row).value.billable.Some?
    ensures ClockifyRecord(lib, row).Normal? ==> ClockifyRecord(lib, row).value.billable.Some?
  {
  }

  /** The text fields of a Toggl row are copied exactly when their header
      is present. */
  lemma TogglCopiesPresentCells(lib: DateLib, row: CsvRow)
    requires TogglRecord(lib, row).Normal?
    ensures var r := TogglRecord(lib, row).value;
            && (r.project.Some? <==> "Project" in row) && (r.project.Some? ==> r.project.value == row["Project"])
            && (r.description.Some? <==> "Description" in row) && (r.description.Some? ==> r.description.value == row["Description"])
            && (r.task.Some? <==> "Task" in row) && (r.task.Some? ==> r.task.value == row["Task"])
            && (r.tags.Some? <==> "Tags" in row) && (r.tags.Some? ==> r.tags.value == row["Tags"])
            && (r.startTime.Some? <==> "Start time" in row) && (r.startTime.Some? ==> r.startTime.value == row["Start time"])
            && (r.endTime.Some? <==> "End time" in row) && (r.endTime.Some? ==> r.endTime.value == row["End time"])
  {
  }

  /** The text fields of a Clockify row, with its own spellings and the
      "Duration (h)" column, are copied exactly when their header is
      present. */
  lemma ClockifyCopiesPresentCells(lib: DateLib, row: CsvRow)
    requires ClockifyRecord(lib, row).Normal?
    ensures var r := ClockifyRecord(lib, row).value;
            && (r.project.Some? <==> "Project" in row) && (r.project.Some? ==> r.project.value == row["Project"])
            && (r.description.Some? <==> "Description" in row) && (r.description.Some? ==> r.description.value == row["Description"])
            && (r.task.Some? <==> "Task" in row) && (r.task.Some? ==> r.task.value == row["Task"])
            && (r.tags.Some? <==> "Tags" in row) && (r.tags.Some? ==> r.tags.value == row["Tags"])
            && (r.startTime.Some? <==> "Start Time" in row) && (r.startTime.Some? ==> r.startTime.value == row["Start Time"])
            && (r.endTime.Some? <==> "End Time" in row) && (r.endTime.Some? ==> r.endTime.value == row["End Time"])
            && (r.durationHours.Some? <==> "Duration (h)" in row)
            && (r.durationHours.Some? ==> r.durationHours.value == row["Duration (h)"])
  {
  }

  /** A Toggl date is set exactly when its cell is present and not blank,
      and is then `parseDate` of the cell in format `yyyy-MM-dd`. */
  lemma TogglDatesFromCells(lib: DateLib, row: CsvRow)
    requires TogglRecord(lib, row).Normal?
    ensures var r := TogglRecord(lib, row).value;
            && (r.startDate.Some? <==> "Start date" in row && !IsBlank(row["Start date"]))
            && (r.startDate.Some? ==> ParseDate(lib, row["Start date"], "yyyy-MM-dd") == Normal(r.startDate.value))
            && (r.endDate.Some? <==> "End date" in row && !IsBlank(row["End date"]))
            && (r.endDate.Some? ==> ParseDate(lib, row["End date"], "yyyy-MM-dd") == Normal(r.endDate.value))
  {
  }

  /** A Clockify date is set exactly when its cell is present and not
      blank, and is then `parseDate` of the cell in format `dd/MM/yyyy`. */
  lemma ClockifyDatesFromCells(lib: DateLib, row: CsvRow)
    requires ClockifyRecord(lib, row).Normal?
    ensures var r := ClockifyRecord(lib, row).value;
            && (r.startDate.Some? <==> "Start Date" in row && !IsBlank(row["Start Date"]))
            && (r.startDate.Some? ==> ParseDate(lib, row["Start Date"], "dd/MM/yyyy") == Normal(r.startDate.value))
            && (r.endDate.Some? <==> "End Date" in row && !IsBlank(row["End Date"]))
            && (r.endDate.Some? ==> ParseDate(lib, row["End Date"], "dd/MM/yyyy") == Normal(r.endDate.value))
  {
  }

  /** Any non-empty Toggl duration: text with a colon goes through
      `stringToDecimalHours` and is also kept as `durationHours`; any other
      text goes through `parseFloat` and leaves `durationHours` unset. */
  lemma TogglDurationCell(lib: DateLib, row: CsvRow)
    requires TogglRecord(lib, row).Normal?
    requires "Duration" in row && row["Duration"] != ""
    ensures var r, raw := TogglRecord(lib, row).value, row["Duration"];
            && (':' in raw ==> r.durationDecimal == Some(StringToDecimalHours(raw)) && r.durationHours == Some(raw))
            && (':' !in raw ==> r.durationDecimal == Some(ParseFloat(raw)) && r.durationHours.None?)
  {
  }

  /** A Toggl duration written `H:M:S` with digit strings of values `h`,
      `m` and `s`, zero-padded or not, becomes the rounded hours of
      `h*3600 + m*60 + s` seconds and is also kept as text. */
  lemma TogglClockDuration(lib: DateLib, row: CsvRow, a: string, b: string, c: string, h: nat, m: nat, s: nat)
    requires TogglRecord(lib, row).Normal?
    requires a != [] && b != [] && c != [] && AllDigits(a) && AllDigits(b) && AllDigits(c)
    requires DigitsValue(a) == h && DigitsValue(b) == m && DigitsValue(c) == s
    requires "Duration" in row && row["Duration"] == a + ":" + b + ":" + c
    ensures TogglRecord(lib, row).value.durationDecimal == Some(SecondsToDecimalHours(h * 3600 + m * 60 + s))
    ensures TogglRecord(lib, row).value.durationHours == Some(a + ":" + b + ":" + c)
  {
    var text := a + ":" + b + ":" + c;
    DurationTextToDecimalHours(a, b, c, h, m, s);
    assert text[|a|] == ':';
    TogglDurationCell(lib, row);
  }

  /** A decimal `A.B` has no colon, so it goes through `parseFloat`. */
  lemma TogglDurationOfDecimal(row: CsvRow, a: string, b: string)
    requires a != [] && AllDigits(a) && AllDigits(b)
    requires "Duration" in row && row["Duration"] == a + "." + b
    ensures TogglDuration(row) == (Some(Finite(FixedPoint(DigitsValue(a), DigitsValue(b), |b|))), None)
  {
    ParseFloatOfDecimal(a, b);
    assert ':' !in a + "." + b by {
      assert ':' !in a && ':' !in b by {
        assert !IsDigit(':');
      }
    }
  }

  /** A Toggl duration written as a decimal `A.B` becomes `A.B` hours and
      leaves `durationHours` unset. */
  lemma TogglDecimalDuration(lib: DateLib, row: CsvRow, a: string, b: string)
    requires TogglRecord(lib, row).Normal?
    requires a != [] && AllDigits(a) && AllDigits(b)
    requires "Duration" in row && row["Duration"] == a + "." + b
    ensures TogglRecord(lib, row).value.durationDecimal
         == Some(Finite(FixedPoint(DigitsValue(a), DigitsValue(b), |b|)))
    ensures TogglRecord(lib, row).value.durationHours.None?
  {
    TogglDurationOfDecimal(row, a, b);
  }

  /** A missing or empty Toggl duration leaves both duration fields
      unset. */
  lemma TogglEmptyDuration(lib: DateLib, row: CsvRow)
    requires TogglRecord(lib, row).Normal?
    requires "Duration" !in row || row["Duration"] == ""
    ensures TogglRecord(lib, row).value.durationDecimal.None?
    ensures TogglRecord(lib, row).value.durationHours.None?
  {
  }

  /** The Clockify decimal hours come from "Duration (decimal)" alone,
      whatever "Duration (h)" says. */
  lemma ClockifyDecimalColumnAlone(lib: DateLib, row: CsvRow)
    requires ClockifyRecord(lib, row).Normal?
    ensures var r := ClockifyRecord(lib, row).value;
            && (r.durationDecimal.Some? <==> "Duration (decimal)" in row && row["Duration (decimal)"] != "")
            && (r.durationDecimal.Some? ==> r.durationDecimal.value == ParseFloat(row["Duration (decimal)"]))
  {
  }

  /** Both mappers finish with the ticket number and then the errors of the
      record that carries it. */
  lemma CsvRecordsNormalised(lib: DateLib, timeTracker: string, row: CsvRow)
    requires CsvRecord(lib, timeTracker, row).Normal?
    ensures Normalised(CsvRecord(lib, timeTracker, row).value)
    ensures var r := CsvRecord(lib, timeTracker, row).value;
            Message(TicketCheck) in r.errors.value <==> r.targetProcessNumber.None?
  {
  }

  /** The headers the Toggl mapper reads. */
  const TogglHeaders: set<string> :=
    {"Project", "Billable", "Description", "Task", "Tags", "Start date", "End date",
     "Start time", "End time", "Duration"}

  /** A column the Toggl mapper does not read changes nothing. */
  lemma TogglIgnoresOtherHeaders(lib: DateLib, row: CsvRow, header: string, text: string)
    requires header !in TogglHeaders
    ensures TogglRecord(lib, row[header := text]) == TogglRecord(lib, row)
  {
    var row' := row[header := text];
    assert forall h :: h in TogglHeaders ==> Cell(row', h) == Cell(row, h);
    assert DateCell(lib, row', "Start date", TogglDateFormat) == DateCell(lib, row, "Start date", TogglDateFormat);
    assert DateCell(lib, row', "End date", TogglDateFormat) == DateCell(lib, row, "End date", TogglDateFormat);
    assert TogglDuration(row') == TogglDuration(row);
  }

  // ---------------------------------------------------------------------------
  // Properties of the batch

  /** An unsupported tracker fails a non-empty batch with the message
      naming it, and no data. */
  lemma UnknownTrackerFails(lib: DateLib, timeTracker: string, rows: seq<CsvRow>)
    requires timeTracker != "toggl" && timeTracker != "clockify"
    requires rows != []
    ensures Collect(CsvOutcomes(lib, timeTracker, rows)) == Failed(timeTracker + " not implemented.")
  {
    CsvOutcomesAt(lib, timeTracker, rows, 0);
    CollectStopsAtFirstThrow(CsvOutcomes(lib, timeTracker, rows), 0);
  }

  /** The tracker is only looked at inside the loop: with no rows, any
      tracker succeeds with no records. */
  lemma EmptyBatchSucceeds(lib: DateLib, timeTracker: string)
    ensures Collect(CsvOutcomes(lib, timeTracker, [])) == Succeeded([])
  {
    CollectAllNormal(CsvOutcomes(lib, timeTracker, []), []);
  }

  /** For Toggl and Clockify with a date library that never throws, every
      row gives one record, in input order. */
  lemma KnownTrackerSucceeds(lib: DateLib, timeTracker: string, rows: seq<CsvRow>)
    requires NeverThrows(lib)
    requires timeTracker == "toggl" || timeTracker == "clockify"
    ensures var result := Collect(CsvOutcomes(lib, timeTracker, rows));
            && result.success && result.errorMessage.None?
            && result.data.Some? && |result.data.value| == |rows|
            && forall i :: 0 <= i < |rows| ==> CsvRecord(lib, timeTracker, rows[i]) == Normal(result.data.value[i])
  {
    var outcomes := CsvOutcomes(lib, timeTracker, rows);
    forall i | 0 <= i < |rows| ensures outcomes[i] == CsvRecord(lib, timeTracker, rows[i]) {
      CsvOutcomesAt(lib, timeTracker, rows, i);
    }
    forall i | 0 <= i < |rows| ensures outcomes[i].Normal? {
      var row := rows[i];
      forall header, format ensures DateCell(lib, row, header, format).Normal? {
        if header in row && !IsBlank(row[header]) {
          ParseDateNeverThrows(lib, row[header], format);
        }
      }
    }
  }
}
