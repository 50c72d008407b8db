/** Duration arithmetic and date parsing of the record pipeline
    (src/helper/dateHelper.ts). */
module DateHelper {
  import opened Wrappers
  import opened JsBuiltins

  /** A JavaScript `Date`: a moment in whole seconds since the epoch, or an
      Invalid Date. `isDateValid` is the test `Valid?`. */
  datatype Instant = Valid(epochSeconds: int) | Invalid

  /** The date-fns calls whose internals are not modelled: `parse(text,
      format, now)` (the reference date `now` is folded into the function),
      `parseISO(text)` and `toDate(text)`. Each may return an Invalid Date,
      and, as a call into foreign code, each may throw. */
  datatype DateLib = DateLib(
    parse: (string, string) -> Completion<Instant>,
    parseIso: string -> Completion<Instant>,
    toDate: string -> Completion<Instant>)

  /** The two fixed formats `parseDate` falls back to. */
  const SlashDateFormat: string := "yyyy/MM/dd"
  const DashDateFormat: string := "yyyy-MM-dd"

  // ---------------------------------------------------------------------------
  // Durations

  /** `secondsToDecimalHours`: the hours in `seconds`, rounded half up to a
      whole number of hundredths (what the `Number.EPSILON` nudge before
      `Math.round` achieves). The result is the one multiple of 0.01 in the
      half-open window (h - 0.005, h + 0.005] around the exact hours h. */
  function SecondsToDecimalHours(seconds: int): (r: Number)
    ensures r.Finite? && IsHundredths(r.value)
    ensures seconds as real / 3600.0 - 0.005 < r.value <= seconds as real / 3600.0 + 0.005
  {
    var q := (seconds + 18) / 36;
    assert 36 * q <= seconds + 18 < 36 * q + 36;
    assert (q as real / 100.0) * 100.0 == q as real;
    Finite(q as real / 100.0)
  }

  /** More seconds never give fewer hours. */
  lemma SecondsToDecimalHoursMonotone(s1: int, s2: int)
    requires s1 <= s2
    ensures SecondsToDecimalHours(s1).value <= SecondsToDecimalHours(s2).value
  {
    var q1, q2 := (s1 + 18) / 36, (s2 + 18) / 36;
    assert 36 * q1 <= s1 + 18;
    assert s2 + 18 < 36 * q2 + 36;
    assert q1 <= q2;
  }

  lemma RoundingExamples()
    ensures SecondsToDecimalHours(3630) == Finite(1.01)
    ensures SecondsToDecimalHours(1800) == Finite(0.5)
    ensures SecondsToDecimalHours(3599) == Finite(1.0)
    ensures SecondsToDecimalHours(18) == Finite(0.01)
    ensures SecondsToDecimalHours(17) == Finite(0.0)
    ensures SecondsToDecimalHours(-19) == Finite(-0.01)
  {
  }

  /** `stringToDecimalHours`: the first three `:`-separated parts are read
      with `parseInt` as hours, minutes and seconds; a missing part is
      `undefined`, which `parseInt` reads as `NaN`, and `NaN` propagates. */
  function StringToDecimalHours(timeString: string): (r: Number)
    ensures r.Finite? || r.NaN?
    ensures r.Finite? ==> IsHundredths(r.value)
  {
    var parts := Split(timeString, ':');
    var hours := ParseInt(parts[0]);
    var minutes := if |parts| > 1 then ParseInt(parts[1]) else None;
    var seconds := if |parts| > 2 then ParseInt(parts[2]) else None;
    if hours.Some? && minutes.Some? && seconds.Some? then
      SecondsToDecimalHours(hours.value * 3600 + minutes.value * 60 + seconds.value)
    else
      NaN
  }

  /** When `parseInt` reads the first three `:`-separated parts as `h`, `m`
      and `s`, the result is the hours of `h*3600 + m*60 + s` seconds;
      anything from a third colon on is ignored. */
  lemma ReadablePartsGiveHours(a: string, b: string, c: string, rest: string, h: int, m: int, s: int)
    requires ':' !in a && ':' !in b && ':' !in c
    requires rest == [] || rest[0] == ':'
    requires ParseInt(a) == Some(h) && ParseInt(b) == Some(m) && ParseInt(c) == Some(s)
    ensures StringToDecimalHours(a + ":" + b + ":" + c + rest) == SecondsToDecimalHours(h * 3600 + m * 60 + s)
  {
    SplitThreeParts(a, b, c, rest);
  }

  /** `H:M:S` written with digit strings of values `h`, `m` and `s`,
      zero-padded (`01:30:00`) or not, means `h*3600 + m*60 + s` seconds. */
  lemma DurationTextToDecimalHours(a: string, b: string, c: string, h: nat, m: nat, s: nat)
    requires a != [] && b != [] && c != []
    requires AllDigits(a) && AllDigits(b) && AllDigits(c)
    requires DigitsValue(a) == h && DigitsValue(b) == m && DigitsValue(c) == s
    ensures StringToDecimalHours(a + ":" + b + ":" + c) == SecondsToDecimalHours(h * 3600 + m * 60 + s)
  {
    DigitsReadAsPart(a);
    DigitsReadAsPart(b);
    DigitsReadAsPart(c);
    var text := a + ":" + b + ":" + c;
    assert text + "" == text;
    ReadablePartsGiveHours(a, b, c, "", h, m, s);
  }

  /** A digit string is a part `split(':')` keeps whole and `parseInt`
      reads as its value. */
  lemma DigitsReadAsPart(d: string)
    requires d != [] && AllDigits(d)
    ensures ':' !in d && ParseInt(d) == Some(DigitsValue(d))
  {
    assert !IsDigit(':');
    ParseIntOfDigits(d);
  }

  /** A zero-padded duration: `01:30:00` is an hour and a half. */
  lemma PaddedDurationText()
    ensures StringToDecimalHours("01:30:00") == Finite(1.5)
  {
    PaddedDurationParts();
    calc {
      StringToDecimalHours("01:30:00");
      { PaddedDurationParts(); }
      StringToDecimalHours("01" + ":" + "30" + ":" + "00");
      { DurationTextToDecimalHours("01", "30", "00", 1, 30, 0); }
      SecondsToDecimalHours(1 * 3600 + 30 * 60 + 0);
      SecondsToDecimalHours(5400);
      Finite(1.5);
    }
  }

  /** `01:30:00` is the digit strings `01`, `30` and `00` joined by colons. */
  lemma PaddedDurationParts()
    ensures "01:30:00" == "01" + ":" + "30" + ":" + "00"
    ensures AllDigits("01") && AllDigits("30") && AllDigits("00")
    ensures DigitsValue("01") == 1 && DigitsValue("30") == 30 && DigitsValue("00") == 0
  {
    DigitsValueAppend("0", '1');
    DigitsValueAppend("3", '0');
    DigitsValueAppend("0", '0');
    assert "0" + ['1'] == "01" && "3" + ['0'] == "30" && "0" + ['0'] == "00";
  }

  /** Fewer than two colons means fewer than three parts: the result is `NaN`,
      not an error. */
  lemma FewerThanThreePartsIsNaN(timeString: string)
    requires Occurrences(timeString, ':') < 2
    ensures StringToDecimalHours(timeString).NaN?
  {
  }

  /** The first three `:`-separated parts of `a:b:c` followed by nothing or
      by more parts are `a`, `b` and `c`. */
  lemma SplitThreeParts(a: string, b: string, c: string, rest: string)
    requires ':' !in a && ':' !in b && ':' !in c
    requires rest == [] || rest[0] == ':'
    ensures var parts := Split(a + ":" + b + ":" + c + rest, ':');
            |parts| >= 3 && parts[0] == a && parts[1] == b && parts[2] == c
  {
    var text := a + ":" + b + ":" + c + rest;
    assert text == a + [':'] + (b + [':'] + (c + rest));
    SplitAfterSeparatorFree(a, b + [':'] + (c + rest), ':');
    SplitAfterSeparatorFree(b, c + rest, ':');
    if rest == [] {
      assert c + rest == c;
      SplitSeparatorFree(c, ':');
    } else {
      assert c + rest == c + [':'] + rest[1..];
      SplitAfterSeparatorFree(c, rest[1..], ':');
    }
  }

  /** A part that `parseInt` cannot read makes the whole duration `NaN`. */
  lemma NonNumericPartIsNaN(a: string, b: string, c: string, rest: string)
    requires ':' !in a && ':' !in b && ':' !in c
    requires rest == [] || rest[0] == ':'
    requires ParseInt(a).None? || ParseInt(b).None? || ParseInt(c).None?
    ensures StringToDecimalHours(a + ":" + b + ":" + c + rest).NaN?
  {
    SplitThreeParts(a, b, c, rest);
  }

  /** `decimalHoursFromDates`: `secondsToDecimalHours` of the signed seconds
      from `date1` to `date2` (`differenceInSeconds`); an Invalid Date on
      either side gives `NaN`. */
  function DecimalHoursFromDates(date1: Instant, date2: Instant): (r: Number)
    ensures r.Finite? <==> date1.Valid? && date2.Valid?
    ensures r.Finite? ==> IsHundredths(r.value)
    ensures r.Finite? ==>
      var hours := (date2.epochSeconds - date1.epochSeconds) as real / 3600.0;
      hours - 0.005 < r.value <= hours + 0.005
    ensures !r.Finite? ==> r.NaN?
  {
    if date1.Valid? && date2.Valid? then
      SecondsToDecimalHours(date2.epochSeconds - date1.epochSeconds)
    else
      NaN
  }

  /** An end before its start is not rejected: it gives negative hours. */
  lemma EndBeforeStartIsNegative(start: Instant, end: Instant)
    requires start.Valid? && end.Valid?
    requires end.epochSeconds + 18 < start.epochSeconds
    ensures DecimalHoursFromDates(start, end).Finite?
    ensures DecimalHoursFromDates(start, end).value < 0.0
  {
    var d := end.epochSeconds - start.epochSeconds;
    assert (d + 18) / 36 < 0;
  }

  /** The hours between two instants `H:M:S` apart are the hours the
      duration text `H:M:S` denotes, zero-padded or not. */
  lemma ElapsedMatchesDurationText(start: int, a: string, b: string, c: string, h: nat, m: nat, s: nat)
    requires a != [] && b != [] && c != []
    requires AllDigits(a) && AllDigits(b) && AllDigits(c)
    requires DigitsValue(a) == h && DigitsValue(b) == m && DigitsValue(c) == s
    ensures DecimalHoursFromDates(Valid(start), Valid(start + h * 3600 + m * 60 + s))
         == StringToDecimalHours(a + ":" + b + ":" + c)
  {
    calc {
      DecimalHoursFromDates(Valid(start), Valid(start + h * 3600 + m * 60 + s));
      { ElapsedSeconds(start, start + h * 3600 + m * 60 + s, h * 3600 + m * 60 + s); }
      SecondsToDecimalHours(h * 3600 + m * 60 + s);
      { DurationTextToDecimalHours(a, b, c, h, m, s); }
      StringToDecimalHours(a + ":" + b + ":" + c);
    }
  }

  /** Instants `d` seconds apart give the hours of `d` seconds. */
  lemma ElapsedSeconds(start: int, end: int, d: int)
    requires end - start == d
    ensures DecimalHoursFromDates(Valid(start), Valid(end)) == SecondsToDecimalHours(d)
  {
  }

  // ---------------------------------------------------------------------------
  // Parsing dates

  /** The calls `parseDate` makes, in order: the caller's format, the two
      fixed formats, and the generic `toDate`. */
  function ParseAttempts(lib: DateLib, date: string, format: string): seq<Completion<Instant>> {
    [lib.parse(date, format), lib.parse(date, SlashDateFormat), lib.parse(date, DashDateFormat), lib.toDate(date)]
  }

  /** The fallback chain stops at attempt `k`: every earlier attempt
      returned an Invalid Date, and attempt `k` threw, returned a valid date,
      or is the last one. */
  ghost predicate StopsAt(attempts: seq<Completion<Instant>>, k: int) {
    && 0 <= k < |attempts|
    && (forall j :: 0 <= j < k ==> attempts[j].Normal? && !attempts[j].value.Valid?)
    && (k < |attempts| - 1 ==> attempts[k].Throw? || attempts[k].value.Valid?)
  }

  /** The chain stops at one attempt only. */
  lemma StopsAtUnique(attempts: seq<Completion<Instant>>, k1: int, k2: int)
    requires StopsAt(attempts, k1) && StopsAt(attempts, k2)
    ensures k1 == k2
  {
  }

  /** `parseDate`: the first attempt that returns a valid date wins; when
      none does, whatever `toDate` gives is returned, possibly an Invalid
      Date. A throw inside an attempt is not caught here. */
  function ParseDate(lib: DateLib, date: string, format: string): (r: Completion<Instant>)
    ensures exists k :: StopsAt(ParseAttempts(lib, date, format), k) && r == ParseAttempts(lib, date, format)[k]
  {
    var attempts := ParseAttempts(lib, date, format);
    if attempts[0].Throw? || attempts[0].value.Valid? then
      assert StopsAt(attempts, 0);
      attempts[0]
    else if attempts[1].Throw? || attempts[1].value.Valid? then
      assert StopsAt(attempts, 1);
      attempts[1]
    else if attempts[2].Throw? || attempts[2].value.Valid? then
      assert StopsAt(attempts, 2);
      attempts[2]
    else
      assert StopsAt(attempts, 3);
      attempts[3]
  }

  /** With the caller's format `yyyy-MM-dd` (the Toggl CSV case) the third
      attempt repeats the first, so only two formats are really tried before
      `toDate`. */
  lemma DashFormatTriesTwoFormats(lib: DateLib, date: string)
    ensures var first := lib.parse(date, DashDateFormat);
            var slash := lib.parse(date, SlashDateFormat);
            ParseDate(lib, date, DashDateFormat) ==
              if first.Throw? || first.value.Valid? then first
              else if slash.Throw? || slash.value.Valid? then slash
              else lib.toDate(date)
  {
    var attempts := ParseAttempts(lib, date, DashDateFormat);
    assert attempts[2] == attempts[0];
  }

  /** The caller's format wins whenever it yields a valid date. */
  lemma ParseDatePrefersCallerFormat(lib: DateLib, date: string, format: string)
    requires lib.parse(date, format).Normal? && lib.parse(date, format).value.Valid?
    ensures ParseDate(lib, date, format) == lib.parse(date, format)
  {
    var attempts := ParseAttempts(lib, date, format);
    var k :| StopsAt(attempts, k) && ParseDate(lib, date, format) == attempts[k];
    StopsAtUnique(attempts, k, 0);
  }

  /** date-fns itself: parsing a string never throws. */
  ghost predicate NeverThrows(lib: DateLib) {
    && (forall text, format :: lib.parse(text, format).Normal?)
    && (forall text :: lib.parseIso(text).Normal?)
    && (forall text :: lib.toDate(text).Normal?)
  }

  /** `parseDate` adds no throw of its own: over a library that never
      throws it always returns a date, possibly an Invalid Date. */
  lemma ParseDateNeverThrows(lib: DateLib, date: string, format: string)
    requires NeverThrows(lib)
    ensures ParseDate(lib, date, format).Normal?
  {
    var attempts := ParseAttempts(lib, date, format);
    assert forall i :: 0 <= i < 4 ==> attempts[i].Normal?;
  }
}
