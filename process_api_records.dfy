/** The batch mapper for records fetched from a tracker's API
    (src/services/processApiRecordsService.ts). */
module ProcessApiRecords {
  import opened Wrappers
  import opened JsBuiltins
  import opened DateHelper
  import opened Models
  import opened RecordHelper

  /** `field && field.trim() !== ''`: present and not blank. */
  predicate HasText(field: Option<string>) {
    field.Some? && !IsBlank(field.value)
  }

  /** The date a timestamp field gives: `parseIsoDate` of its text when it
      has any, unset otherwise. */
  function IsoField(lib: DateLib, field: Option<string>): Completion<Option<Instant>> {
    if HasText(field) then
      var date :- lib.parseIso(field.value);
      Normal(Some(date))
    else
      Normal(None)
  }

  /** One loop iteration: the record literal with the four copied fields,
      the two dates, the duration when both dates are set, and the common
      finish. A throw from the date library ends the iteration. */
  function ApiRecord(lib: DateLib, raw: TimeTrackerRawRecord): Completion<TimeSheetRecord> {
    var copied := EmptyRecord.(billable := Some(raw.billable), project := raw.project,
                               description := raw.description, tags := raw.tags);
    var startDate :- IsoField(lib, raw.start);
    var endDate :- IsoField(lib, raw.end);
    var dated := copied.(startDate := startDate, endDate := endDate,
                         durationDecimal := if startDate.Some? && endDate.Some?
                                            then Some(DecimalHoursFromDates(startDate.value, endDate.value))
                                            else None);
    Normal(Finish(dated))
  }

  /** What each input row comes to, in input order. */
  function ApiOutcomes(lib: DateLib, rawRecords: seq<TimeTrackerRawRecord>): (outcomes: seq<Completion<TimeSheetRecord>>)
    ensures |outcomes| == |rawRecords|
  {
    if rawRecords == [] then [] else [ApiRecord(lib, rawRecords[0])] + ApiOutcomes(lib, rawRecords[1..])
  }

  /** Outcome `i` is what row `i` comes to. */
  lemma {:induction false} ApiOutcomesAt(lib: DateLib, rawRecords: seq<TimeTrackerRawRecord>, i: int)
    requires 0 <= i < |rawRecords|
    ensures ApiOutcomes(lib, rawRecords)[i] == ApiRecord(lib, rawRecords[i])
  {
    if i > 0 {
      ApiOutcomesAt(lib, rawRecords[1..], i - 1);
    }
  }

  /** The body of `process`'s loop for row `index`: the record literal
      with the copied fields, the two dates (a throw from `parseISO` ends
      the iteration), the duration when both dates are set, then the ticket
      number and the errors. */
  method ProcessRow(lib: DateLib, rawRecords: seq<TimeTrackerRawRecord>, index: nat)
    returns (outcome: Completion<TimeSheetRecord>)
    requires index < |rawRecords|
    ensures outcome == ApiOutcomes(lib, rawRecords)[index]
  {
    var record := rawRecords[index];
    ApiOutcomesAt(lib, rawRecords, index);
    var processedRecord := EmptyRecord.(billable := Some(record.billable), project := record.project,
                                        description := record.description, tags := record.tags);
    if record.start.Some? && Trim(record.start.value) != [] {
      var parsed := lib.parseIso(record.start.value);
      if parsed.Throw? {
        return Throw(parsed.message);
      }
      processedRecord := processedRecord.(startDate := Some(parsed.value));
    }
    assert IsoField(lib, record.start) == Normal(processedRecord.startDate);
    if record.end.Some? && Trim(record.end.value) != [] {
      var parsed := lib.parseIso(record.end.value);
      if parsed.Throw? {
        return Throw(parsed.message);
      }
      processedRecord := processedRecord.(endDate := Some(parsed.value));
    }
    assert IsoField(lib, record.end) == Normal(processedRecord.endDate);
    if processedRecord.startDate.Some? && processedRecord.endDate.Some? {
      processedRecord := processedRecord.(durationDecimal :=
        Some(DecimalHoursFromDates(processedRecord.startDate.value, processedRecord.endDate.value)));
    }
    ghost var dated := processedRecord;
    processedRecord := processedRecord.(targetProcessNumber := TargetProcessNumber(processedRecord));
    var errors := ValidateRecord(processedRecord);
    processedRecord := processedRecord.(errors := Some(errors));
    assert processedRecord == Finish(dated);
    outcome := Normal(processedRecord);
  }

  /** `ProcessApiRecordService.process`: maps every raw record in order and
      returns them all, or, as soon as one throws, the caught error and no
      data. */
  method Process(lib: DateLib, rawRecords: seq<TimeTrackerRawRecord>) returns (result: ProcessRecordsResult)
    ensures result == Collect(ApiOutcomes(lib, rawRecords))
  {
    ghost var outcomes := ApiOutcomes(lib, rawRecords);
    var processedRecords: seq<TimeSheetRecord> := [];
    var index := 0;
    while index < |rawRecords|
      invariant 0 <= index <= |rawRecords|
      invariant |processedRecords| == index
      invariant forall j :: 0 <= j < index ==> outcomes[j] == Normal(processedRecords[j])
    {
      var outcome := ProcessRow(lib, rawRecords, index);
      if outcome.Throw? {
        result := Failed(outcome.message);
        CollectStopsAtFirstThrow(outcomes, index);
        return;
      }
      processedRecords := processedRecords + [outcome.value];
      index := index + 1;
    }
    result := Succeeded(processedRecords);
    CollectAllNormal(outcomes, processedRecords);
  }

  // ---------------------------------------------------------------------------
  // Properties of one mapped record

  /** `billable`, `project`, `description` and `tags` are copied verbatim;
      the fields only the CSV mappers fill stay unset. */
  lemma ApiCopiesFields(lib: DateLib, raw: TimeTrackerRawRecord)
    requires ApiRecord(lib, raw).Normal?
    ensures var r := ApiRecord(lib, raw).value;
            && r.billable == Some(raw.billable)
            && r.project == raw.project && r.description == raw.description && r.tags == raw.tags
            && r.task.None? && r.durationHours.None? && r.startTime.None? && r.endTime.None?
            && r.recordsInAggregate.None? && r.syncedSuccess.None?
  {
  }

  /** A date is set exactly when its timestamp has text, and is then what
      `parseISO` made of that text. */
  lemma ApiDatesFromText(lib: DateLib, raw: TimeTrackerRawRecord)
    requires ApiRecord(lib, raw).Normal?
    ensures var r := ApiRecord(lib, raw).value;
            && (r.startDate.Some? <==> HasText(raw.start))
            && (r.startDate.Some? ==> lib.parseIso(raw.start.value) == Normal(r.startDate.value))
            && (r.endDate.Some? <==> HasText(raw.end))
            && (r.endDate.Some? ==> lib.parseIso(raw.end.value) == Normal(r.endDate.value))
  {
  }

  /** The duration is set exactly when both dates are, and is then the
      rounded hours between them, `NaN` when either is an Invalid Date. */
  lemma ApiDurationFromDates(lib: DateLib, raw: TimeTrackerRawRecord)
    requires ApiRecord(lib, raw).Normal?
    ensures var r := ApiRecord(lib, raw).value;
            && (r.durationDecimal.Some? <==> r.startDate.Some? && r.endDate.Some?)
            && (r.durationDecimal.Some? ==>
                  r.durationDecimal.value == DecimalHoursFromDates(r.startDate.value, r.endDate.value))
  {
  }

  /** A running entry, with no end yet, has no duration and so is reported
      as having no decimal hours. */
  lemma InProgressEntryHasNoHours(lib: DateLib, raw: TimeTrackerRawRecord)
    requires ApiRecord(lib, raw).Normal?
    requires !HasText(raw.end)
    ensures ApiRecord(lib, raw).value.durationDecimal.None?
    ensures Message(DurationCheck) in ApiRecord(lib, raw).value.errors.value
  {
    var r := ApiRecord(lib, raw).value;
    DefectsIff(r, DurationCheck);
  }

  /** Validation sees the ticket number: the errors report a missing number
      exactly when the ticket search found none, and the record is
      normalised. */
  lemma ApiRecordNormalised(lib: DateLib, raw: TimeTrackerRawRecord)
    requires ApiRecord(lib, raw).Normal?
    ensures Normalised(ApiRecord(lib, raw).value)
    ensures var r := ApiRecord(lib, raw).value;
            Message(TicketCheck) in r.errors.value <==> r.targetProcessNumber.None?
  {
  }

  // ---------------------------------------------------------------------------
  // Properties of the batch

  /** With a date library that never throws, every batch succeeds with one
      record per input row, in input order. */
  lemma ApiBatchSucceeds(lib: DateLib, rawRecords: seq<TimeTrackerRawRecord>)
    requires NeverThrows(lib)
    ensures var result := Collect(ApiOutcomes(lib, rawRecords));
            && result.success && result.errorMessage.None?
            && result.data.Some? && |result.data.value| == |rawRecords|
            && forall i :: 0 <= i < |rawRecords| ==> ApiRecord(lib, rawRecords[i]) == Normal(result.data.value[i])
  {
    var outcomes := ApiOutcomes(lib, rawRecords);
    forall i | 0 <= i < |outcomes| ensures outcomes[i] == ApiRecord(lib, rawRecords[i]) {
      ApiOutcomesAt(lib, rawRecords, i);
    }
    forall i | 0 <= i < |outcomes| ensures outcomes[i].Normal? {
      var raw := rawRecords[i];
      assert IsoField(lib, raw.start).Normal?;
      assert IsoField(lib, raw.end).Normal?;
    }
  }

  /** When the date library throws on a row, no record at all is returned. */
  lemma ApiBatchFailsWhole(lib: DateLib, rawRecords: seq<TimeTrackerRawRecord>, k: int)
    requires 0 <= k < |rawRecords| && ApiRecord(lib, rawRecords[k]).Throw?
    ensures var result := Collect(ApiOutcomes(lib, rawRecords));
            !result.success && result.data.None? && result.errorMessage.Some?
  {
    var outcomes := ApiOutcomes(lib, rawRecords);
    ApiOutcomesAt(lib, rawRecords, k);
    assert !outcomes[k].Normal?;
  }
}
