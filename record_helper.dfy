/** Record validation and Target Process ticket-number discovery
    (src/helper/recordHelper.ts). */
module RecordHelper {
  import opened Wrappers
  import opened JsBuiltins
  import opened DateHelper
  import opened Models

  // ---------------------------------------------------------------------------
  // Validation

  /** The four checks of `validateRecord`, in the order they run. */
  datatype Check = StartDateCheck | DescriptionCheck | DurationCheck | TicketCheck

  const AllChecks: seq<Check> := [StartDateCheck, DescriptionCheck, DurationCheck, TicketCheck]

  /** The message a failing check adds. */
  function Message(c: Check): string {
    match c
    case StartDateCheck => "Invalid start date"
    case DescriptionCheck => "No description"
    case DurationCheck => "No decimal hours"
    case TicketCheck => "No target process number"
  }

  /** Position of a message in the fixed check order; 4 for any other text. */
  function MessageRank(m: string): nat {
    if m == Message(StartDateCheck) then 0
    else if m == Message(DescriptionCheck) then 1
    else if m == Message(DurationCheck) then 2
    else if m == Message(TicketCheck) then 3
    else 4
  }

  /** When check `c` rejects `r`. A `Date` object is truthy even when it is
      an Invalid Date; the empty description is falsy and blank; `NaN` and
      `0` are falsy. */
  predicate Fails(c: Check, r: TimeSheetRecord) {
    match c
    case StartDateCheck => r.startDate.None? || !r.startDate.value.Valid?
    case DescriptionCheck => r.description.None? || IsBlank(r.description.value)
    case DurationCheck =>
      r.durationDecimal.None? || !r.durationDecimal.value.IsTruthy() || r.durationDecimal.value.AtMostZero()
    case TicketCheck => r.targetProcessNumber.None? || r.targetProcessNumber.value == 0
  }

  /** The message check `c` contributes for `r`: its own, or none. */
  function Outcome(c: Check, r: TimeSheetRecord): seq<string> {
    if Fails(c, r) then [Message(c)] else []
  }

  /** The messages of the checks in `checks` that reject `r`, in order. */
  function FailedMessages(checks: seq<Check>, r: TimeSheetRecord): seq<string> {
    if checks == [] then [] else Outcome(checks[0], r) + FailedMessages(checks[1..], r)
  }

  /** What `validateRecord` returns. */
  function Defects(r: TimeSheetRecord): seq<string> {
    FailedMessages(AllChecks, r)
  }

  /** `validateRecord`: runs every check, none short-circuits the others, and
      pushes the message of each one that fails. */
  method ValidateRecord(record: TimeSheetRecord) returns (errors: seq<string>)
    ensures errors == Defects(record)
  {
    errors := [];
    if record.startDate.None? || !record.startDate.value.Valid? {
      errors := errors + ["Invalid start date"];
    }
    ghost var checked := Outcome(StartDateCheck, record);
    assert errors == checked;
    if record.description.None? || Trim(record.description.value) == [] {
      errors := errors + ["No description"];
    }
    checked := checked + Outcome(DescriptionCheck, record);
    assert errors == checked;
    if record.durationDecimal.None? || !record.durationDecimal.value.IsTruthy() || record.durationDecimal.value.AtMostZero() {
      errors := errors + ["No decimal hours"];
    }
    checked := checked + Outcome(DurationCheck, record);
    assert errors == checked;
    if record.targetProcessNumber.None? || record.targetProcessNumber.value == 0 {
      errors := errors + ["No target process number"];
    }
    checked := checked + Outcome(TicketCheck, record);
    assert errors == checked;
    DefectsExpanded(record);
  }

  /** The four checks, one after the other. */
  lemma DefectsExpanded(r: TimeSheetRecord)
    ensures Defects(r) == Outcome(StartDateCheck, r) + Outcome(DescriptionCheck, r)
                          + Outcome(DurationCheck, r) + Outcome(TicketCheck, r)
  {
    var c3: seq<Check> := [TicketCheck];
    var c2: seq<Check> := [DurationCheck] + c3;
    var c1: seq<Check> := [DescriptionCheck] + c2;
    assert AllChecks == [StartDateCheck] + c1;
    assert FailedMessages(c3, r) == Outcome(TicketCheck, r) + FailedMessages(c3[1..], r);
    assert c3[1..] == [];
    assert FailedMessages(c2, r) == Outcome(DurationCheck, r) + FailedMessages(c2[1..], r);
    assert c2[1..] == c3;
    assert FailedMessages(c1, r) == Outcome(DescriptionCheck, r) + FailedMessages(c1[1..], r);
    assert c1[1..] == c2;
    assert AllChecks[1..] == c1;
  }

  /** Each check's message is reported exactly when that check fails. */
  lemma DefectsIff(r: TimeSheetRecord, c: Check)
    ensures Message(c) in Defects(r) <==> Fails(c, r)
  {
    DefectsExpanded(r);
  }

  /** Messages in strictly increasing check order: no message twice, none
      out of order. */
  predicate InCheckOrder(e: seq<string>) {
    forall i, j :: 0 <= i < j < |e| ==> MessageRank(e[i]) < MessageRank(e[j])
  }

  /** The messages of a strictly increasing run of checks come out in
      strictly increasing rank. */
  lemma {:induction false} FailedMessagesOrdered(checks: seq<Check>, r: TimeSheetRecord, low: int)
    requires forall i :: 0 <= i < |checks| ==> low < MessageRank(Message(checks[i]))
    requires forall i, j :: 0 <= i < j < |checks| ==> MessageRank(Message(checks[i])) < MessageRank(Message(checks[j]))
    ensures forall i :: 0 <= i < |FailedMessages(checks, r)| ==> low < MessageRank(FailedMessages(checks, r)[i])
    ensures InCheckOrder(FailedMessages(checks, r))
  {
    if checks != [] {
      var rank := MessageRank(Message(checks[0]));
      FailedMessagesOrdered(checks[1..], r, rank);
      FailedMessagesOrdered(checks[1..], r, low);
      var e, rest := FailedMessages(checks, r), FailedMessages(checks[1..], r);
      if Fails(checks[0], r) {
        assert e == [Message(checks[0])] + rest;
        forall i, j | 0 <= i < j < |e| ensures MessageRank(e[i]) < MessageRank(e[j]) {
          assert e[j] == rest[j - 1];
          if i == 0 {
            assert e[0] == Message(checks[0]);
            assert rank < MessageRank(rest[j - 1]);
          } else {
            assert e[i] == rest[i - 1];
          }
        }
      } else {
        assert e == rest;
      }
    }
  }

  /** Messages appear in the fixed check order, each at most once, so there
      are never more than four. */
  lemma DefectsOrdered(r: TimeSheetRecord)
    ensures InCheckOrder(Defects(r))
    ensures |Defects(r)| <= 4
  {
    FailedMessagesOrdered(AllChecks, r, -1);
    FailedMessagesAtMost(AllChecks, r);
  }

  /** Each check adds at most one message. */
  lemma {:induction false} FailedMessagesAtMost(checks: seq<Check>, r: TimeSheetRecord)
    ensures |FailedMessages(checks, r)| <= |checks|
  {
    if checks != [] {
      FailedMessagesAtMost(checks[1..], r);
    }
  }

  /** The duration check rejects exactly the durations that are not
      positive numbers: missing, zero, negative, negative infinity and
      `NaN`. */
  lemma DurationCheckIff(r: TimeSheetRecord)
    ensures Fails(DurationCheck, r) <==> !(r.durationDecimal.Some? && r.durationDecimal.value.IsPositive())
  {
  }

  /** A record holding nothing but a valid start date fails the other three
      checks. */
  lemma OnlyValidStartDate(seconds: int)
    ensures Defects(EmptyRecord.(startDate := Some(Valid(seconds))))
         == ["No description", "No decimal hours", "No target process number"]
  {
    var r := EmptyRecord.(startDate := Some(Valid(seconds)));
    DefectsExpanded(r);
  }

  // ---------------------------------------------------------------------------
  // Ticket numbers in text

  /** `marker` followed by a digit starts at `i` (what `/TP(\d+)/` and
      `/#(\d+)/` look for). */
  predicate MarkerAt(s: string, i: int, marker: string) {
    && 0 <= i
    && i + |marker| < |s|
    && s[i..i + |marker|] == marker
    && IsDigit(s[i + |marker|])
  }

  /** `marker` followed by a digit occurs nowhere in `s`. */
  predicate NoMarker(s: string, marker: string) {
    forall i :: 0 <= i < |s| ==> !MarkerAt(s, i, marker)
  }

  /** The leftmost match of `marker` followed by a digit. */
  predicate FirstMarkerAt(s: string, i: int, marker: string) {
    MarkerAt(s, i, marker) && forall j :: 0 <= j < i ==> !MarkerAt(s, j, marker)
  }

  /** A maximal run of at least four digits starts at `i` with no word
      character (`[A-Za-z0-9_]`) on either side: what `/\b(\d{4,})\b/`
      matches, since backtracking to a shorter run would end it before
      another digit, where there is no word boundary. */
  predicate StandaloneRunAt(s: string, i: int) {
    && 0 <= i < |s|
    && IsDigit(s[i])
    && (i == 0 || !IsWordChar(s[i - 1]))
    && var n := DigitPrefix(s[i..]);
       n >= 4 && (i + n == |s| || !IsWordChar(s[i + n]))
  }

  predicate NoStandaloneRun(s: string) {
    forall i :: 0 <= i < |s| ==> !StandaloneRunAt(s, i)
  }

  predicate FirstStandaloneRunAt(s: string, i: int) {
    StandaloneRunAt(s, i) && forall j :: 0 <= j < i ==> !StandaloneRunAt(s, j)
  }

  /** The leftmost position at or after `from` where `marker` and a digit
      start. */
  function FindMarker(s: string, marker: string, from: nat): (r: Option<nat>)
    requires from <= |s|
    ensures r.Some? ==> from <= r.value && MarkerAt(s, r.value, marker)
    ensures r.Some? ==> forall j :: from <= j < r.value ==> !MarkerAt(s, j, marker)
    ensures r.None? ==> forall j :: from <= j < |s| ==> !MarkerAt(s, j, marker)
    decreases |s| - from
  {
    if from == |s| then None
    else if MarkerAt(s, from, marker) then Some(from)
    else FindMarker(s, marker, from + 1)
  }

  /** The leftmost standalone run of four or more digits at or after
      `from`. */
  function FindStandaloneRun(s: string, from: nat): (r: Option<nat>)
    requires from <= |s|
    ensures r.Some? ==> from <= r.value && StandaloneRunAt(s, r.value)
    ensures r.Some? ==> forall j :: from <= j < r.value ==> !StandaloneRunAt(s, j)
    ensures r.None? ==> forall j :: from <= j < |s| ==> !StandaloneRunAt(s, j)
    decreases |s| - from
  {
    if from == |s| then None
    else if StandaloneRunAt(s, from) then Some(from)
    else FindStandaloneRun(s, from + 1)
  }

  /** `parseInt` of the digit run starting at `k`: the greedy `\d+` group. */
  function NumberAt(s: string, k: nat): nat
    requires k <= |s|
  {
    var t := s[k..];
    DigitsValue(t[..DigitPrefix(t)])
  }

  /** `extractTPNumber`: the number after the first `TP`, else after the
      first `#`, else the first standalone run of four or more digits, else
      nothing. Each stage wins as soon as it matches, even when its number
      is 0. */
  function ExtractTPNumber(input: string): (r: Option<int>)
    ensures forall i :: FirstMarkerAt(input, i, "TP") ==> r == Some(NumberAt(input, i + 2))
    ensures NoMarker(input, "TP") ==>
      forall i :: FirstMarkerAt(input, i, "#") ==> r == Some(NumberAt(input, i + 1))
    ensures NoMarker(input, "TP") && NoMarker(input, "#") ==>
      forall i :: FirstStandaloneRunAt(input, i) ==> r == Some(NumberAt(input, i))
    ensures r.None? <==> NoMarker(input, "TP") && NoMarker(input, "#") && NoStandaloneRun(input)
    ensures r.Some? ==> r.value >= 0
  {
    match FindMarker(input, "TP", 0)
    case Some(i) => Some(NumberAt(input, i + 2))
    case None =>
      match FindMarker(input, "#", 0)
      case Some(i) => Some(NumberAt(input, i + 1))
      case None =>
        match FindStandaloneRun(input, 0)
        case Some(i) => Some(NumberAt(input, i))
        case None => None
  }

  /** No match of `marker` can start where its first character is absent. */
  lemma NoMarkerBefore(s: string, marker: string, k: nat)
    requires marker != [] && k <= |s|
    requires forall j :: 0 <= j < k ==> s[j] != marker[0]
    ensures forall j :: 0 <= j < k ==> !MarkerAt(s, j, marker)
  {
    forall j | 0 <= j < k ensures !MarkerAt(s, j, marker) {
      if j + |marker| < |s| {
        assert s[j..j + |marker|][0] == s[j];
      }
    }
  }

  /** The number read at `k` when a maximal run of `n` digits starts there. */
  lemma NumberOfRun(s: string, k: nat, n: nat)
    requires k + n <= |s|
    requires forall i :: k <= i < k + n ==> IsDigit(s[i])
    requires k + n == |s| || !IsDigit(s[k + n])
    ensures DigitPrefix(s[k..]) == n
    ensures AllDigits(s[k..k + n]) && NumberAt(s, k) == DigitsValue(s[k..k + n])
  {
    var t := s[k..];
    if k + n < |s| {
      DigitPrefixOfDigits(t, n);
    } else {
      assert t == s[k..k + n];
      DigitPrefixAll(t);
    }
    assert t[..n] == s[k..k + n];
  }

  /** The number read at the start of a digit string followed by text that
      does not start with a digit is the digit string's value. */
  lemma NumberBeforeNonDigit(s: string, k: nat, d: string, tail: string)
    requires k <= |s| && s[k..] == d + tail
    requires AllDigits(d)
    requires tail == [] || !IsDigit(tail[0])
    ensures NumberAt(s, k) == DigitsValue(d)
  {
    var t := s[k..];
    if tail == [] {
      assert t == d;
      DigitPrefixAll(t);
    } else {
      assert t[|d|] == tail[0];
      DigitPrefixOfDigits(t, |d|);
    }
    assert t[..|d|] == d;
  }

  /** `TP` and a digit written after text with no `T` is the first `TP`
      marker. */
  lemma FirstTpAfter(prefix: string, rest: string)
    requires 'T' !in prefix
    requires rest != [] && IsDigit(rest[0])
    ensures FirstMarkerAt(prefix + ("TP" + rest), |prefix|, "TP")
    ensures (prefix + ("TP" + rest))[|prefix| + 2..] == rest
  {
    var s := prefix + ("TP" + rest);
    var k := |prefix|;
    assert s[..k] == prefix && s[k..] == "TP" + rest;
    forall j | 0 <= j < k ensures s[j] != 'T' {
      assert s[j] == s[..k][j];
    }
    NoMarkerBefore(s, "TP", k);
    assert s[k..][2..] == rest;
    assert s[k..k + 2] == s[k..][..2];
  }

  /** Writing `TP` and a number into text that has no earlier `T` is read
      back as that number, whatever follows when it is not another digit. */
  lemma TpMarkerRoundTrip(prefix: string, n: nat, suffix: string)
    requires 'T' !in prefix
    requires suffix == [] || !IsDigit(suffix[0])
    ensures ExtractTPNumber(prefix + "TP" + NatToString(n) + suffix) == Some(n)
  {
    var d := NatToString(n);
    var s := prefix + "TP" + d + suffix;
    assert s == prefix + ("TP" + (d + suffix));
    FirstTpAfter(prefix, d + suffix);
    NumberBeforeNonDigit(s, |prefix| + 2, d, suffix);
    NatToStringValue(n);
  }

  /** A `TP` number in the middle of a description. */
  lemma ExtractsTpMarker(s: string)
    requires s == "Fixes TP4821 please"
    ensures ExtractTPNumber(s) == Some(4821)
  {
    assert NatToString(4821) == "4821" by {
      assert NatToString(4) == "4";
      assert NatToString(48) == "48";
      assert NatToString(482) == "482";
    }
    assert s == "Fixes " + "TP" + NatToString(4821) + " please";
    TpMarkerRoundTrip("Fixes ", 4821, " please");
  }

  /** With no `TP`, the number after `#` is taken, even a short one. */
  lemma ExtractsHashMarker(s: string)
    requires s == "See #99"
    ensures ExtractTPNumber(s) == Some(99)
  {
    NoMarkerBefore(s, "TP", |s|);
    NoMarkerBefore(s, "#", 4);
    assert s[4..5] == "#";
    assert FirstMarkerAt(s, 4, "#");
    NumberOfRun(s, 5, 2);
    assert s[5..7] == "99";
    assert DigitsValue("99") == 99 by {
      assert "99"[..1] == "9" && "9"[..0] == "";
    }
  }

  /** With neither marker, the first standalone run of four or more digits
      is taken, passing over a shorter one. */
  lemma ExtractsStandaloneRun(s: string)
    requires s == "Ref 123 and 45678"
    ensures ExtractTPNumber(s) == Some(45678)
  {
    RefExampleText(s);
    ShortRunThenLongRun(s);
  }

  /** The characters of the example that matter to the three stages. */
  lemma RefExampleText(s: string)
    requires s == "Ref 123 and 45678"
    ensures |s| == 17 && forall j :: 0 <= j < |s| ==> s[j] != 'T' && s[j] != '#'
    ensures !IsDigit(s[0]) && !IsDigit(s[1]) && !IsDigit(s[2]) && !IsDigit(s[3])
    ensures IsDigit(s[4]) && IsDigit(s[5]) && IsDigit(s[6])
    ensures !IsDigit(s[7]) && !IsDigit(s[8]) && !IsDigit(s[9]) && !IsDigit(s[10]) && !IsWordChar(s[11])
    ensures s[12..] == "45678"
  {
  }

  /** A run of three digits is passed over for a later standalone run of
      five. */
  lemma ShortRunThenLongRun(s: string)
    requires |s| == 17 && forall j :: 0 <= j < |s| ==> s[j] != 'T' && s[j] != '#'
    requires !IsDigit(s[0]) && !IsDigit(s[1]) && !IsDigit(s[2]) && !IsDigit(s[3])
    requires IsDigit(s[4]) && IsDigit(s[5]) && IsDigit(s[6])
    requires !IsDigit(s[7]) && !IsDigit(s[8]) && !IsDigit(s[9]) && !IsDigit(s[10]) && !IsWordChar(s[11])
    requires s[12..] == "45678"
    ensures ExtractTPNumber(s) == Some(45678)
  {
    NoMarkerBefore(s, "TP", |s|);
    NoMarkerBefore(s, "#", |s|);
    NumberOfRun(s, 4, 3);
    assert forall j :: 0 <= j < 12 ==> !StandaloneRunAt(s, j);
    assert AllDigits("45678");
    NumberBeforeNonDigit(s, 12, "45678", "");
    assert s[12] == '4';
    assert StandaloneRunAt(s, 12) by {
      DigitPrefixAll(s[12..]);
    }
    assert FirstStandaloneRunAt(s, 12);
    LongRunValue();
  }

  /** The digit string `45678` has the value 45678, one digit at a time. */
  lemma LongRunValue()
    ensures DigitsValue("45678") == 45678
  {
    assert DigitsValue("4") == 4 by {
      DigitsValueAppend("", '4');
      assert "" + ['4'] == "4";
    }
    assert DigitsValue("45") == 45 by {
      DigitsValueAppend("4", '5');
      assert "4" + ['5'] == "45";
    }
    assert DigitsValue("456") == 456 by {
      DigitsValueAppend("45", '6');
      assert "45" + ['6'] == "456";
    }
    assert DigitsValue("4567") == 4567 by {
      DigitsValueAppend("456", '7');
      assert "456" + ['7'] == "4567";
    }
    DigitsValueAppend("4567", '8');
    assert "4567" + ['8'] == "45678";
  }

  /** A run of fewer than four digits is no ticket. */
  lemma ShortRunIsNoTicket(s: string)
    requires s == "12 items"
    ensures ExtractTPNumber(s) == None
  {
    NoMarkerBefore(s, "TP", |s|);
    NoMarkerBefore(s, "#", |s|);
    NumberOfRun(s, 0, 2);
    forall j | 0 <= j < |s| ensures !StandaloneRunAt(s, j) {
      if j != 0 {
        assert !IsDigit(s[j]) || IsWordChar(s[j - 1]);
      }
    }
  }

  /** Digits glued to letters are not at a word boundary. */
  lemma GluedRunIsNoTicket(s: string)
    requires s == "abc12345"
    ensures ExtractTPNumber(s) == None
  {
    NoMarkerBefore(s, "TP", |s|);
    NoMarkerBefore(s, "#", |s|);
    forall j | 0 <= j < |s| ensures !StandaloneRunAt(s, j) {
      assert !IsDigit(s[j]) || IsWordChar(s[j - 1]);
    }
  }

  /** The `TP` stage wins even with the number 0, hiding a later `#12`. */
  lemma ZeroTpMarkerWins(s: string)
    requires s == "TP0 #12"
    ensures ExtractTPNumber(s) == Some(0)
  {
    assert s == "" + "TP" + NatToString(0) + " #12";
    TpMarkerRoundTrip("", 0, " #12");
  }

  /** A field that is nothing but a `TP` number. */
  lemma BareTpMarker(s: string)
    requires s == "TP5"
    ensures ExtractTPNumber(s) == Some(5)
  {
    assert s == "" + "TP" + NatToString(5) + "";
    TpMarkerRoundTrip("", 5, "");
  }

  // ---------------------------------------------------------------------------
  // Ticket number of a record

  /** The extraction from one field; an absent or empty field is skipped. */
  function FieldTicket(field: Option<string>): Option<int> {
    if field.Some? && field.value != "" then ExtractTPNumber(field.value) else None
  }

  /** The fields `getTargetProcessNumber` looks at, in order. */
  function TicketCandidates(r: TimeSheetRecord): seq<Option<int>> {
    [FieldTicket(r.description), FieldTicket(r.tags), FieldTicket(r.project)]
  }

  /** A truthy extraction: present and not 0. */
  predicate Usable(t: Option<int>) {
    t.Some? && t.value != 0
  }

  /** `getTargetProcessNumber`: the first truthy extraction from the
      description, the tags and the project, else nothing. */
  function TargetProcessNumber(record: TimeSheetRecord): (r: Option<int>)
    ensures r.Some? ==> r.value > 0
    ensures r.Some? <==> exists i :: 0 <= i < 3 && Usable(TicketCandidates(record)[i])
    ensures r.Some? ==> exists i :: 0 <= i < 3 && r == TicketCandidates(record)[i]
                          && forall j :: 0 <= j < i ==> !Usable(TicketCandidates(record)[j])
  {
    var candidates := TicketCandidates(record);
    if Usable(candidates[0]) then
      candidates[0]
    else if Usable(candidates[1]) then
      candidates[1]
    else if Usable(candidates[2]) then
      candidates[2]
    else
      None
  }

  /** Tags come before the project: with no description, a ticket in the
      tags wins. */
  lemma TagsBeforeProject(r: TimeSheetRecord)
    requires r == EmptyRecord.(tags := Some("proj TP77"), project := Some("Alpha"))
    ensures TargetProcessNumber(r) == Some(77)
  {
    var s := r.tags.value;
    NoMarkerBefore(s, "TP", 5);
    assert s[5..7] == "TP";
    assert FirstMarkerAt(s, 5, "TP");
    NumberOfRun(s, 7, 2);
    assert s[7..9] == "77";
    assert DigitsValue("77") == 77 by {
      assert "77"[..1] == "7" && "7"[..0] == "";
    }
    assert ExtractTPNumber(s) == Some(77);
    assert TicketCandidates(r)[0] == None;
    assert TicketCandidates(r)[1] == Some(77);
  }

  /** `TP0` hides a later `#12` in the same field, and the 0 it yields is
      skipped in favour of the next field. */
  lemma ZeroTicketIsSkipped(r: TimeSheetRecord)
    requires r == EmptyRecord.(description := Some("TP0 #12"), project := Some("TP5"))
    ensures TargetProcessNumber(r) == Some(5)
  {
    ZeroTpMarkerWins(r.description.value);
    BareTpMarker(r.project.value);
    assert TicketCandidates(r) == [Some(0), None, Some(5)];
  }

  /** A record as the mappers leave it: its ticket number is the one its own
      fields give, and its errors are its own defects. */
  predicate Normalised(r: TimeSheetRecord) {
    r.targetProcessNumber == TargetProcessNumber(r) && r.errors == Some(Defects(r))
  }

  /** How every mapper ends: `targetProcessNumber` from the record's own
      fields, then `errors` from the record that already carries that
      number. Nothing else changes, and the result is normalised. */
  function Finish(r: TimeSheetRecord): (f: TimeSheetRecord)
    ensures Normalised(f)
    ensures Message(TicketCheck) in f.errors.value <==> f.targetProcessNumber.None?
    ensures f.(targetProcessNumber := r.targetProcessNumber, errors := r.errors) == r
  {
    var ticketed := r.(targetProcessNumber := TargetProcessNumber(r));
    FinishFacts(ticketed, r);
    ticketed.(errors := Some(Defects(ticketed)))
  }

  /** The two facts `Finish` promises, about the record that already
      carries its ticket number. */
  lemma FinishFacts(ticketed: TimeSheetRecord, r: TimeSheetRecord)
    requires ticketed == r.(targetProcessNumber := TargetProcessNumber(r))
    ensures Normalised(ticketed.(errors := Some(Defects(ticketed))))
    ensures Message(TicketCheck) in Defects(ticketed) <==> ticketed.targetProcessNumber.None?
  {
    var done := ticketed.(errors := Some(Defects(ticketed)));
    assert TicketCandidates(done) == TicketCandidates(r);
    assert Defects(done) == Defects(ticketed) by {
      forall c | c in AllChecks ensures Fails(c, done) == Fails(c, ticketed) { }
      FailedMessagesAgree(AllChecks, done, ticketed);
    }
    DefectsIff(ticketed, TicketCheck);
  }

  /** Finishing a normalised record again changes nothing. */
  lemma FinishIdempotent(r: TimeSheetRecord)
    requires Normalised(r)
    ensures Finish(r) == r
  {
    var ticketed := r.(targetProcessNumber := TargetProcessNumber(r));
    assert ticketed == r;
  }

  /** Records that the same checks reject get the same messages. */
  lemma {:induction false} FailedMessagesAgree(checks: seq<Check>, r1: TimeSheetRecord, r2: TimeSheetRecord)
    requires forall c :: c in checks ==> Fails(c, r1) == Fails(c, r2)
    ensures FailedMessages(checks, r1) == FailedMessages(checks, r2)
  {
    if checks != [] {
      FailedMessagesAgree(checks[1..], r1, r2);
    }
  }
}
