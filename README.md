# TimesheetHelper record normalisation, in Dafny

This project models the record normalisation pipeline of TimesheetHelper.
The pipeline turns the raw entries of a time tracker into canonical
time-sheet records (`TimeSheetRecordModel`). The entries are either already
fetched from a tracker's API or already tokenised rows of a Toggl or
Clockify CSV export. The pipeline then attaches a Target Process ticket
number and a list of validation errors to every record, and returns the
whole batch as an all-or-nothing `ProcessRecordsResult`.

The modules follow the program:

- `Wrappers` (`wrappers.dfy`): `Option`, and `Completion`, a value or a
  thrown error. A JavaScript `throw` that a `try`/`catch` in the source
  catches becomes a `Throw` that the batch turns into its failure result.
- `JsBuiltins` (`js_builtins.dfy`): the JavaScript built-ins the pipeline
  relies on. JavaScript numbers are `Finite(real) | Infinite | NaN` with the
  language's truthiness. The module also models `trim`, `split` on one
  character, `parseInt(_, 10)` and `parseFloat`, over `seq<char>` with exact
  arithmetic.
- `DateHelper` (`date_helper.dfy`): `src/helper/dateHelper.ts`.
  - A `Date` is an `Instant`: either `Valid(epochSeconds)` or `Invalid`.
  - `isDateValid` is the test `Valid?`.
  - date-fns `parse`, `parseISO` and `toDate` are the function fields of a
    `DateLib` value. Each of them may return an Invalid Date and may throw.
  - `parseIsoDate` is the `parseIso` field.
  - The module holds the duration arithmetic and the `parseDate` fallback
    chain.
- `Models` (`models.dfy`): the record types and `Collect`. `Collect` is the
  batch contract over the per-row outcomes: all records in input order,
  or, from the first row that throws, that row's error and no data.
- `RecordHelper` (`record_helper.dfy`): `src/helper/recordHelper.ts`.
  - The four validation checks. `validateRecord` is a method that appends
    messages, proved equal to `Defects`.
  - `extractTPNumber`, as three hand-written scanners that replace the
    regular expressions.
  - The description, tags, project chain of `getTargetProcessNumber`.
  - `Finish`, the common last two steps of every mapper.
- `ProcessApiRecords` (`process_api_records.dfy`):
  `src/services/processApiRecordsService.ts`.
  - `ApiRecord` is the specification of one iteration.
  - The methods `ProcessRow` and `Process` keep the source's step-by-step
    assignments and its indexed loop. Each is proved equal to its
    specification.
- `ProcessCsvRecords` (`process_csv_records.dfy`):
  `src/services/processCsvRecordsService.ts`.
  - A CSV row is a `map<string, string>` from header to cell text.
  - The two mappers are methods that fill a fresh record one header at a
    time. They are proved equal to `TogglRecord` and `ClockifyRecord`.
  - The dispatching loop is proved equal to `Collect` of the per-row
    outcomes.

The loop body of each `process` is its own method (`ProcessRow`). Likewise
the date step of the CSV mappers (`ParseDateCell`) and the five leading
header copies they share (`CopyLeadingCells`). Each of them is proved
against the same specification function that the enclosing loop or mapper
uses.

`secondsToDecimalHours` of 3599 seconds is 1.00: 3599 / 3600 is about
0.99972, which rounds half up to 1.00 (`RoundingExamples`).

## Model

| member | source | states |
|---|---|---|
| DateHelper.SecondsToDecimalHours | src/helper/dateHelper.ts:3-6 | the hours are a finite whole number of hundredths, in the window (h - 0.005, h + 0.005] around the exact hours h = seconds / 3600, which is rounding half up |
| DateHelper.SecondsToDecimalHoursMonotone | src/helper/dateHelper.ts:3-6 | more seconds never give fewer hours |
| DateHelper.RoundingExamples | src/helper/dateHelper.ts:3-6 | 3630 s give 1.01, 1800 s give 0.5, 3599 s give 1.0, 18 s give 0.01, 17 s give 0 and -19 s give -0.01 |
| DateHelper.StringToDecimalHours | src/helper/dateHelper.ts:8-12 | the result is never infinite: it is `NaN` or a whole number of hundredths |
| DateHelper.ReadablePartsGiveHours | src/helper/dateHelper.ts:8-12 | when `parseInt` reads the colon-free parts a, b and c as h, m and s, the text `a:b:c`, optionally followed by more `:`-separated parts, gives the hours of h*3600 + m*60 + s seconds, and the extra parts are ignored |
| DateHelper.DurationTextToDecimalHours | src/helper/dateHelper.ts:8-12 | `a:b:c` with a, b and c any non-empty digit strings, zero-padded or not, gives the hours of h*3600 + m*60 + s seconds, where h, m and s are their decimal values |
| DateHelper.DigitsReadAsPart | src/helper/dateHelper.ts:9-10 | a non-empty digit string holds no colon and `parseInt` reads it as its decimal value |
| DateHelper.PaddedDurationText | src/helper/dateHelper.ts:8-12 | the zero-padded text `01:30:00` gives 1.5 hours |
| DateHelper.PaddedDurationParts | src/helper/dateHelper.ts:9-10 | `01:30:00` is the digit strings `01`, `30` and `00`, of values 1, 30 and 0, joined by colons |
| DateHelper.FewerThanThreePartsIsNaN | src/helper/dateHelper.ts:9-10 | text with fewer than two colons gives `NaN` and not an error |
| DateHelper.SplitThreeParts | src/helper/dateHelper.ts:9 | the first three parts that `split(':')` makes of `a:b:c` followed by nothing or by more parts are `a`, `b` and `c` |
| DateHelper.NonNumericPartIsNaN | src/helper/dateHelper.ts:9-10 | a part that `parseInt` cannot read makes the whole duration `NaN` |
| DateHelper.DecimalHoursFromDates | src/helper/dateHelper.ts:14-17 | finite exactly when both dates are valid, and then the rounded signed hours from the first date to the second; `NaN` otherwise |
| DateHelper.EndBeforeStartIsNegative | src/helper/dateHelper.ts:14-17 | an end more than 18 s before its start gives negative hours and is not rejected |
| DateHelper.ElapsedMatchesDurationText | src/helper/dateHelper.ts:8-17 | two instants h*3600 + m*60 + s seconds apart give the same hours as the text `a:b:c`, for any non-empty digit strings a, b and c of values h, m and s, zero-padded or not |
| DateHelper.ElapsedSeconds | src/helper/dateHelper.ts:14-17 | two valid instants d seconds apart give the hours of d seconds |
| DateHelper.StopsAtUnique | src/helper/dateHelper.ts:27-45 | the fallback chain stops at exactly one attempt |
| DateHelper.ParseDate | src/helper/dateHelper.ts:27-45 | the result is the first of: the caller's format, `yyyy/MM/dd` and `yyyy-MM-dd`, that throws or gives a valid date; when none does, it is what `toDate` gives, possibly an Invalid Date |
| DateHelper.DashFormatTriesTwoFormats | src/helper/dateHelper.ts:27-45 | with the caller's format `yyyy-MM-dd`, only that format and `yyyy/MM/dd` are tried before `toDate` |
| DateHelper.ParseDatePrefersCallerFormat | src/helper/dateHelper.ts:28-31 | a valid date in the caller's format is returned as it is |
| DateHelper.ParseDateNeverThrows | src/helper/dateHelper.ts:27-45 | `parseDate` adds no throw of its own: over a date library that never throws, it always returns a date |
| JsBuiltins.Trim | src/helper/recordHelper.ts:12 | `trim` is empty exactly when the text is all white space; otherwise it starts and ends with non-white space and is the text without its leading and trailing white space |
| JsBuiltins.Split | src/helper/dateHelper.ts:9 | `split` makes one more part than there are separators, and no part holds the separator |
| JsBuiltins.JoinSplit | src/helper/dateHelper.ts:9 | joining the parts with the separator gives the text back |
| JsBuiltins.SplitAfterSeparatorFree | src/helper/dateHelper.ts:9 | a separator-free piece and then the separator split off as the first part |
| JsBuiltins.SplitSeparatorFree | src/helper/dateHelper.ts:9 | separator-free text is a single part |
| JsBuiltins.DigitPrefix | src/helper/recordHelper.ts:29 | the greedy `\d+`: the length of the maximal run of digits at the start |
| JsBuiltins.ParseInt | src/helper/dateHelper.ts:10 | defines `parseInt(_, 10)`: leading white space and an optional sign are skipped, the longest digit run after them is read as its decimal value, and no digit there is `NaN` |
| JsBuiltins.ParseIntOfDigits | src/helper/dateHelper.ts:10 | `parseInt` of any non-empty digit string, leading zeros included, is its decimal value |
| JsBuiltins.DigitsValueAppend | src/helper/recordHelper.ts:32 | appending a digit to a digit string multiplies its value by ten and adds the digit |
| JsBuiltins.ParseIntOfNatString | src/helper/dateHelper.ts:10 | `parseInt` reads the decimal spelling of a natural number back as that number |
| JsBuiltins.ParseFloat | src/services/processCsvRecordsService.ts:70 | defines `parseFloat`: leading white space and an optional sign are skipped, then the longest decimal literal is read; no digit there is `NaN` |
| JsBuiltins.ParseFloatOfDigits | src/services/processCsvRecordsService.ts:70 | `parseFloat` of a run of digits is its integer value |
| JsBuiltins.ParseFloatOfDecimal | src/services/processCsvRecordsService.ts:70 | `parseFloat` of `a.b`, with `a` and `b` digit strings, is a + b / 10^n, where n is the number of digits of b |
| JsBuiltins.ParseFloatNeedsDigit | src/services/processCsvRecordsService.ts:70 | `parseFloat` gives a finite number only when its argument holds a digit |
| Models.Collect | src/services/processApiRecordsService.ts:16-55 | success exactly when no row throws, and then every record, in input order, with no error message; otherwise no data and the error of the first row that throws |
| Models.CollectStopsAtFirstThrow | src/services/processApiRecordsService.ts:49-55 | when row k is the first to throw, the batch is the failure carrying row k's error |
| Models.CollectAllNormal | src/services/processApiRecordsService.ts:44-48 | when no row throws, the batch is the success carrying the records in input order |
| RecordHelper.ValidateRecord | src/helper/recordHelper.ts:4-25 | the conditional pushes return the messages of exactly the checks that fail, in check order |
| RecordHelper.DefectsExpanded | src/helper/recordHelper.ts:4-24 | the errors are the four checks' contributions, one after the other |
| RecordHelper.DefectsIff | src/helper/recordHelper.ts:8-22 | each check's message is reported if and only if that check fails |
| RecordHelper.FailedMessagesOrdered | src/helper/recordHelper.ts:4-24 | a run of checks in increasing order reports its messages in increasing order, none twice |
| RecordHelper.DefectsOrdered | src/helper/recordHelper.ts:4-24 | the messages follow the fixed order "Invalid start date", "No description", "No decimal hours", "No target process number", each at most once, so there are at most four |
| RecordHelper.FailedMessagesAtMost | src/helper/recordHelper.ts:4-24 | no check adds more than one message |
| RecordHelper.DurationCheckIff | src/helper/recordHelper.ts:16-18 | "No decimal hours" is added exactly when the duration is not a positive number: missing, 0, negative, minus infinity or `NaN` |
| RecordHelper.OnlyValidStartDate | src/helper/recordHelper.ts:8-22 | a record holding only a valid start date gets exactly ["No description", "No decimal hours", "No target process number"] |
| RecordHelper.FindMarker | src/helper/recordHelper.ts:29-30 | the leftmost position where the marker and a digit start, or none anywhere |
| RecordHelper.FindStandaloneRun | src/helper/recordHelper.ts:44-45 | the leftmost start of a maximal run of at least four digits with no word character on either side, or none anywhere |
| RecordHelper.ExtractTPNumber | src/helper/recordHelper.ts:27-50 | the number after the first `TP<digit>`; else after the first `#<digit>`; else the first standalone run of four or more digits; null exactly when none of the three occurs; never negative |
| RecordHelper.NumberOfRun | src/helper/recordHelper.ts:32 | `parseInt` at the start of a maximal run of n digits reads exactly those n digits |
| RecordHelper.TpMarkerRoundTrip | src/helper/recordHelper.ts:29-33 | `TP` and the spelling of n, written after text with no `T` and followed by no digit, are read back as n |
| RecordHelper.ExtractsTpMarker | src/helper/recordHelper.ts:29-33 | "Fixes TP4821 please" gives 4821 |
| RecordHelper.ExtractsHashMarker | src/helper/recordHelper.ts:36-40 | "See #99" gives 99 |
| RecordHelper.ExtractsStandaloneRun | src/helper/recordHelper.ts:44-48 | "Ref 123 and 45678" gives 45678 |
| RecordHelper.ShortRunThenLongRun | src/helper/recordHelper.ts:44-48 | a three-digit run is passed over for a later standalone five-digit run |
| RecordHelper.LongRunValue | src/helper/recordHelper.ts:44-48 | the standalone run `45678` is read as the number 45678 |
| RecordHelper.ShortRunIsNoTicket | src/helper/recordHelper.ts:44-49 | "12 items" gives null |
| RecordHelper.GluedRunIsNoTicket | src/helper/recordHelper.ts:44-49 | "abc12345" gives null, because the run does not start at a word boundary |
| RecordHelper.ZeroTpMarkerWins | src/helper/recordHelper.ts:29-33 | "TP0 #12" gives 0: the `TP` stage wins even with 0 and hides the later `#12` |
| RecordHelper.BareTpMarker | src/helper/recordHelper.ts:29-33 | "TP5" gives 5 |
| RecordHelper.TargetProcessNumber | src/helper/recordHelper.ts:52-81 | the first truthy extraction from description, tags and project, with absent or empty fields skipped; null exactly when none is truthy; never 0 or negative |
| RecordHelper.TagsBeforeProject | src/helper/recordHelper.ts:63-69 | with no description, tags "proj TP77" and project "Alpha" give 77 |
| RecordHelper.ZeroTicketIsSkipped | src/helper/recordHelper.ts:56-77 | the 0 extracted from a description "TP0 #12" is skipped, and project "TP5" gives 5 |
| RecordHelper.Finish | src/services/processApiRecordsService.ts:39-40 | the ticket number is computed, then the errors of the record that already carries it; nothing else changes; "No target process number" is reported exactly when no number was found |
| RecordHelper.FinishIdempotent | src/services/processApiRecordsService.ts:39-40 | finishing an already finished record changes nothing |
| ProcessApiRecords.HasText | src/services/processApiRecordsService.ts:27-33 | defines the guard `x && x.trim() !== ''`: present and not blank |
| ProcessApiRecords.IsoField | src/services/processApiRecordsService.ts:27-33 | defines the date step: a timestamp with text is `parseISO` of it, throw included; otherwise the date stays unset |
| ProcessApiRecords.ApiRecord | src/services/processApiRecordsService.ts:19-42 | defines what one raw record comes to: the copied fields, the two dates, the duration between them, then the ticket number and the errors |
| ProcessApiRecords.ApiOutcomes | src/services/processApiRecordsService.ts:18-43 | one outcome per raw record |
| ProcessApiRecords.ApiOutcomesAt | src/services/processApiRecordsService.ts:18-19 | outcome i is what raw record i comes to |
| ProcessApiRecords.ProcessRow | src/services/processApiRecordsService.ts:19-42 | the step-by-step iteration gives what `ApiRecord` says row `index` comes to, or the date library's throw |
| ProcessApiRecords.Process | src/services/processApiRecordsService.ts:12-56 | the loop with its `catch` gives the batch contract over the rows' outcomes |
| ProcessApiRecords.ApiCopiesFields | src/services/processApiRecordsService.ts:20-25 | `billable`, `project`, `description` and `tags` are copied verbatim, and the fields only the CSV mappers fill stay unset |
| ProcessApiRecords.ApiDatesFromText | src/services/processApiRecordsService.ts:27-33 | a date is set exactly when its timestamp is present and not blank, and is then what `parseISO` made of it |
| ProcessApiRecords.ApiDurationFromDates | src/services/processApiRecordsService.ts:35-37 | the duration is set exactly when both dates are, and is then `decimalHoursFromDates` of them |
| ProcessApiRecords.InProgressEntryHasNoHours | src/services/processApiRecordsService.ts:31-40 | an entry with no end has no duration, and its errors include "No decimal hours" |
| ProcessApiRecords.ApiRecordNormalised | src/services/processApiRecordsService.ts:39-40 | the errors are computed after the ticket number and report a missing number exactly when there is none |
| ProcessApiRecords.ApiBatchSucceeds | src/services/processApiRecordsService.ts:17-48 | over a date library that never throws, the batch succeeds with no error message and one record per raw record, record i from raw record i |
| ProcessApiRecords.ApiBatchFailsWhole | src/services/processApiRecordsService.ts:49-55 | a throw on any row fails the batch with an error message and no data at all |
| ProcessCsvRecords.CsvOutcomes | src/services/processCsvRecordsService.ts:154-164 | one outcome per row |
| ProcessCsvRecords.CsvOutcomesAt | src/services/processCsvRecordsService.ts:155-163 | outcome i is row i under the chosen tracker |
| ProcessCsvRecords.Billable | src/services/processCsvRecordsService.ts:16-24 | defines `billable`: false, unless the "Billable" cell is present and exactly "Yes" |
| ProcessCsvRecords.DateCell | src/services/processCsvRecordsService.ts:38-50 | defines a date cell's step: a present, non-blank cell is `parseDate` of it in the given format, throw included; otherwise the date stays unset |
| ProcessCsvRecords.TogglDuration | src/services/processCsvRecordsService.ts:60-75 | defines the Toggl duration fields: unset for a missing or empty cell; `stringToDecimalHours` and the raw text when the cell holds a colon; `parseFloat` and no text otherwise |
| ProcessCsvRecords.ClockifyDuration | src/services/processCsvRecordsService.ts:136-143 | defines the Clockify decimal hours: `parseFloat` of a present, non-empty "Duration (decimal)" cell, unset otherwise |
| ProcessCsvRecords.TogglRecord | src/services/processCsvRecordsService.ts:11-81 | defines what one Toggl row comes to: the record built from its cells, then the ticket number and the errors, or a date parse's throw |
| ProcessCsvRecords.ClockifyRecord | src/services/processCsvRecordsService.ts:83-149 | defines what one Clockify row comes to, with Clockify's headers and date format, or a date parse's throw |
| ProcessCsvRecords.CsvRecord | src/services/processCsvRecordsService.ts:155-163 | defines the dispatch: "toggl" and "clockify" pick their mapper, any other tracker throws "<tracker> not implemented." |
| ProcessCsvRecords.ParseDateCell | src/services/processCsvRecordsService.ts:38-43 | a present, non-blank date cell is `parseDate` of its text in the given format, and the parse's throw propagates; otherwise the date stays unset |
| ProcessCsvRecords.CopyLeadingCells | src/services/processCsvRecordsService.ts:16-36 | `billable` starts false and is true only for "Yes"; "Project", "Description", "Task" and "Tags" are copied exactly when present; nothing else is set |
| ProcessCsvRecords.ProcessSingleTogglRecord | src/services/processCsvRecordsService.ts:11-81 | the header-by-header walk gives `TogglRecord` of the row, a date parse's throw included |
| ProcessCsvRecords.ProcessSingleClockifyRecord | src/services/processCsvRecordsService.ts:83-149 | the header-by-header walk gives `ClockifyRecord` of the row, a date parse's throw included |
| ProcessCsvRecords.ProcessRow | src/services/processCsvRecordsService.ts:155-163 | "toggl" and "clockify" pick their mapper, and any other tracker throws "<tracker> not implemented." |
| ProcessCsvRecords.Process | src/services/processCsvRecordsService.ts:151-177 | the loop with its `catch` gives the batch contract over the rows' outcomes |
| ProcessCsvRecords.BillableOnlyForYes | src/services/processCsvRecordsService.ts:16-24 | in both mappers `billable` is always set, and is true exactly when the "Billable" cell is exactly "Yes" |
| ProcessCsvRecords.TogglCopiesPresentCells | src/services/processCsvRecordsService.ts:18-58 | each Toggl text field is set exactly when its exact header is present, and is then that cell |
| ProcessCsvRecords.ClockifyCopiesPresentCells | src/services/processCsvRecordsService.ts:90-134 | each Clockify text field, with Clockify's spellings and "Duration (h)", is set exactly when its header is present, and is then that cell |
| ProcessCsvRecords.TogglDatesFromCells | src/services/processCsvRecordsService.ts:38-50 | a Toggl date is set exactly when its cell is present and not blank, and is then `parseDate` of it in format `yyyy-MM-dd` |
| ProcessCsvRecords.ClockifyDatesFromCells | src/services/processCsvRecordsService.ts:110-122 | a Clockify date is set exactly when its cell is present and not blank, and is then `parseDate` of it in format `dd/MM/yyyy` |
| ProcessCsvRecords.TogglDurationCell | src/services/processCsvRecordsService.ts:60-75 | for any non-empty "Duration" cell: with a colon, the decimal hours are `stringToDecimalHours` of it and the text is kept as `durationHours`; without one, they are `parseFloat` of it and `durationHours` stays unset |
| ProcessCsvRecords.TogglClockDuration | src/services/processCsvRecordsService.ts:60-66 | a "Duration" of `a:b:c`, with a, b and c any non-empty digit strings of values h, m and s, zero-padded or not, gives the rounded hours of h*3600 + m*60 + s seconds and is kept as `durationHours` |
| ProcessCsvRecords.TogglDurationOfDecimal | src/services/processCsvRecordsService.ts:67-71 | a "Duration" of `A.B` has no colon, so it gives `parseFloat`'s value A.B and no `durationHours` |
| ProcessCsvRecords.TogglDecimalDuration | src/services/processCsvRecordsService.ts:60-75 | a Toggl record whose "Duration" is `A.B` has decimal hours A.B and no `durationHours` |
| ProcessCsvRecords.TogglEmptyDuration | src/services/processCsvRecordsService.ts:60 | a missing or empty "Duration" leaves both duration fields unset |
| ProcessCsvRecords.ClockifyDecimalColumnAlone | src/services/processCsvRecordsService.ts:132-143 | the Clockify decimal hours are set exactly when "Duration (decimal)" is present and not empty, are then `parseFloat` of it, and do not depend on "Duration (h)" |
| ProcessCsvRecords.CsvRecordsNormalised | src/services/processCsvRecordsService.ts:77-78 | both mappers set the ticket number and then the errors of the record that carries it |
| ProcessCsvRecords.TogglIgnoresOtherHeaders | src/services/processCsvRecordsService.ts:11-81 | a column the Toggl mapper does not read changes nothing in its result |
| ProcessCsvRecords.UnknownTrackerFails | src/services/processCsvRecordsService.ts:161-176 | an unsupported tracker fails a non-empty batch with "<tracker> not implemented." and no data |
| ProcessCsvRecords.EmptyBatchSucceeds | src/services/processCsvRecordsService.ts:154-169 | with no rows, any tracker succeeds with no records, because the throw is inside the loop |
| ProcessCsvRecords.KnownTrackerSucceeds | src/services/processCsvRecordsService.ts:153-169 | for "toggl" and "clockify", over a date library that never throws, the batch succeeds with one record per row, record i from row i |

## Left out

- The date-fns wrappers `prettifyDate`, `formatStandardDate`, `addSomeDays`, `formatIso` and `setTime` (src/helper/dateHelper.ts:47-65) are not modelled. They are thin calls into date-fns, and the pipeline does not use them.
- The internals of date-fns `parse`, `parseISO`, `toDate` and `differenceInSeconds` are not modelled. The first three are uninterpreted fields of `DateLib`. `differenceInSeconds` is the difference of whole epoch seconds, so sub-second parts of a date are not represented.
- The reference date `new Date()` that `parse` receives is not represented. It reads the clock, so it is folded into the uninterpreted `parse`.
- In the model `parse`, `parseISO` and `toDate` may throw, so that the `catch` paths can be reached; `differenceInSeconds` and `isValid` are total. date-fns itself returns an Invalid Date instead of throwing on a string it cannot read, and lemmas such as `ParseDateNeverThrows` and `ApiBatchSucceeds` take that as their precondition.
- IEEE-754 doubles are not modelled: `Number.EPSILON`, float rounding artefacts, and `parseInt` and `parseFloat` beyond 2^53 are exact here. `DateHelper.SecondsToDecimalHours` is stated as exact rounding half up, the result that the `Number.EPSILON` nudge is there to achieve.
- Unicode beyond the exact code points `trim`, `\d` and `\w` test is not modelled. Case folding and normalisation play no part in the source.
- `null` and `undefined` are both `None`, and a record field that is never assigned is `None` too.
- The branch where a CSV cell is not a string (src/services/processCsvRecordsService.ts:71-73 and 140-142) is not modelled. A row is modelled as `map<string, string>`, so that branch cannot be reached here.
- `durationHours` is declared a number in `TimeSheetRecordModel`, but only the raw duration text is ever stored there. The model types it as a string.
- The caught error is modelled by its message text. For an unsupported tracker that text is "<tracker> not implemented."; the `Error` object that carries it is not modelled.
- `recordsInAggregate` and `syncedSuccess` are modelled as fields but never set, because the pipeline never sets them.
- Everything upstream or downstream of the pipeline is not part of this model:
  - src/main/main.ts: Electron window and IPC handlers, HTTP clients, file dialogs, configuration persistence, and the assembly of Toggl and Clockify raw records inside the network handlers;
  - the renderer, the preload bridge and the remaining model files, which are shapes for that I/O layer.
- Regular-expression generality is not modelled. Only the three fixed patterns of `extractTPNumber` are modelled, as scanners.
