/** The records the pipeline reads and writes (src/models), and the
    all-or-nothing shape of a batch result. */
module Models {
  import opened Wrappers
  import opened JsBuiltins
  import opened DateHelper

  /** `TimeSheetRecordModel`: every field is optional; `None` stands for both
      `null` and a property that was never set. `durationHours` is declared a
      number but is only ever given the raw duration text, so it is a string
      here. `recordsInAggregate` and `syncedSuccess` are never set by the
      pipeline. */
  datatype TimeSheetRecord = TimeSheetRecord(
    project: Option<string>,
    description: Option<string>,
    task: Option<string>,
    tags: Option<string>,
    startDate: Option<Instant>,
    endDate: Option<Instant>,
    durationDecimal: Option<Number>,
    durationHours: Option<string>,
    startTime: Option<string>,
    endTime: Option<string>,
    targetProcessNumber: Option<int>,
    recordsInAggregate: Option<int>,
    errors: Option<seq<string>>,
    syncedSuccess: Option<bool>,
    billable: Option<bool>)

  /** The object literal `{}`. */
  const EmptyRecord: TimeSheetRecord :=
    TimeSheetRecord(None, None, None, None, None, None, None, None, None, None, None, None, None, None, None)

  /** `TimeTrackerRawRecordModel`: one entry as fetched from a tracker's API. */
  datatype TimeTrackerRawRecord = TimeTrackerRawRecord(
    id: string,
    description: Option<string>,
    project: Option<string>,
    billable: bool,
    tags: Option<string>,
    start: Option<string>,
    end: Option<string>)

  /** `ProcessRecordsResult`; the caught error is represented by its
      message. */
  datatype ProcessRecordsResult = ProcessRecordsResult(
    success: bool,
    data: Option<seq<TimeSheetRecord>>,
    errorMessage: Option<string>)

  /** The result a batch returns when its loop runs to the end. */
  function Succeeded(records: seq<TimeSheetRecord>): ProcessRecordsResult {
    ProcessRecordsResult(true, Some(records), None)
  }

  /** The result the `catch` block returns. */
  function Failed(message: string): ProcessRecordsResult {
    ProcessRecordsResult(false, None, Some(message))
  }

  /** Row `k` is the first row whose processing throws. */
  predicate FirstThrow(outcomes: seq<Completion<TimeSheetRecord>>, k: int) {
    && 0 <= k < |outcomes|
    && outcomes[k].Throw?
    && forall j :: 0 <= j < k ==> outcomes[j].Normal?
  }

  /** A batch over the per-row outcomes, in input order: every record when
      no row throws, and otherwise the first row's error and no data at
      all. */
  function Collect(outcomes: seq<Completion<TimeSheetRecord>>): (r: ProcessRecordsResult)
    ensures r.success <==> forall i :: 0 <= i < |outcomes| ==> outcomes[i].Normal?
    ensures r.success ==>
      && r.errorMessage.None?
      && r.data.Some? && |r.data.value| == |outcomes|
      && forall i :: 0 <= i < |outcomes| ==> outcomes[i] == Normal(r.data.value[i])
    ensures !r.success ==>
      && r.data.None?
      && exists k :: FirstThrow(outcomes, k) && r.errorMessage == Some(outcomes[k].message)
  {
    if outcomes == [] then Succeeded([])
    else
      match outcomes[0]
      case Throw(message) =>
        assert FirstThrow(outcomes, 0);
        Failed(message)
      case Normal(record) =>
        var rest := Collect(outcomes[1..]);
        if rest.success then
          Succeeded([record] + rest.data.value)
        else
          var k :| FirstThrow(outcomes[1..], k) && rest.errorMessage == Some(outcomes[1..][k].message);
          assert FirstThrow(outcomes, k + 1);
          rest
  }

  /** There is only one first throw. */
  lemma FirstThrowUnique(outcomes: seq<Completion<TimeSheetRecord>>, k1: int, k2: int)
    requires FirstThrow(outcomes, k1) && FirstThrow(outcomes, k2)
    ensures k1 == k2
  {
  }

  /** When row `k` is the first to throw, the batch is the failure carrying
      that row's error. */
  lemma CollectStopsAtFirstThrow(outcomes: seq<Completion<TimeSheetRecord>>, k: int)
    requires FirstThrow(outcomes, k)
    ensures Collect(outcomes) == Failed(outcomes[k].message)
  {
    var r := Collect(outcomes);
    assert !r.success;
    var k' :| FirstThrow(outcomes, k') && r.errorMessage == Some(outcomes[k'].message);
    FirstThrowUnique(outcomes, k, k');
  }

  /** When no row throws, the batch is the success carrying every record in
      input order. */
  lemma CollectAllNormal(outcomes: seq<Completion<TimeSheetRecord>>, records: seq<TimeSheetRecord>)
    requires |records| == |outcomes|
    requires forall i :: 0 <= i < |outcomes| ==> outcomes[i] == Normal(records[i])
    ensures Collect(outcomes) == Succeeded(records)
  {
    var r := Collect(outcomes);
    assert r.data.value == records;
  }
}
