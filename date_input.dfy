/**
 * The date field's conversions between the `YYYY-MM-DD` strings its parent
 * holds and the calendar's date: `parseDate` splits on `-` and builds a date
 * with a 0-based month; selecting a day formats it back with the month and
 * the day padded to two digits.
 */
module DateInput {
  import opened Wrappers
  import opened Strings

  /** A calendar day: full year, 0-based month (`getMonth()`), day of the month (`getDate()`). */
  datatype CalendarDate = CalendarDate(year: nat, monthIndex: nat, day: nat)

  predicate IsLeapYear(year: nat) {
    (year % 4 == 0 && year % 100 != 0) || year % 400 == 0
  }

  function DaysInMonth(year: nat, monthIndex: nat): nat
    requires monthIndex < 12
  {
    if monthIndex == 1 then (if IsLeapYear(year) then 29 else 28)
    else if monthIndex == 3 || monthIndex == 5 || monthIndex == 8 || monthIndex == 10 then 30
    else 31
  }

  /**
   * The last year all of whose days lie in the range of a `Date`: the time
   * value may not pass 8.64e15 ms either side of 1970-01-01, which ends the
   * range on 13 September 275760.
   */
  const LastYear: nat := 275759

  /**
   * A day the `Date` constructor keeps exactly as given: an existing day of
   * the (proleptic Gregorian) calendar in a year from 100 to `LastYear`.
   */
  predicate IsValidDate(d: CalendarDate) {
    100 <= d.year <= LastYear && d.monthIndex < 12 && 1 <= d.day <= DaysInMonth(d.year, d.monthIndex)
  }

  /** The component's `date` state, as `parseDate` leaves it. */
  datatype DateState =
    | NoDate
    | Day(date: CalendarDate)
    | Invalid
    | Unnormalised(year: nat, monthIndex: int, day: nat)

  /**
   * `Number(part)` for the parts this model reads: surrounding white space
   * is ignored, nothing left reads as 0, a run of decimal digits as its
   * value; anything else is taken as `NaN`.
   */
  function PartNumber(part: string): (r: Option<nat>)
    ensures r.Some? <==> AllDigits(Trim(part))
    ensures IsBlank(part) ==> r == Some(0)
  {
    var t := Trim(part);
    if AllDigits(t) then Some(DigitsValue(t)) else None
  }

  /**
   * `new Date(year, monthIndex, day)`: the day itself when it exists in a
   * year from 100 to `LastYear`; an Invalid Date when the year is 275761 or
   * later (a month index of -1 or a day of 0 steps back at most into
   * December 275760); otherwise the arguments, which the constructor would
   * roll over or remap. Those include every date in 275760 and arguments
   * whose roll-over lands past the end of the range (a day count of
   * 99999999999, say), which the constructor turns into an Invalid Date too
   * but which stay unnormalised here.
   */
  function MakeDate(year: nat, monthIndex: int, day: nat): DateState {
    if LastYear + 1 < year && -1 <= monthIndex then Invalid
    else if 100 <= year <= LastYear && 0 <= monthIndex < 12 && 1 <= day <= DaysInMonth(year, monthIndex)
    then Day(CalendarDate(year, monthIndex, day))
    else Unnormalised(year, monthIndex, day)
  }

  /**
   * The constructor keeps the day exactly when it is a valid date; the
   * model's `Invalid` case is exactly a year from 275761 on; every other
   * argument triple, including one whose roll-over passes the end of the
   * range, is left unnormalised.
   */
  lemma MakeDateMeaning(year: nat, monthIndex: int, day: nat)
    ensures var r := MakeDate(year, monthIndex, day);
            && (r.Day? <==> 0 <= monthIndex && IsValidDate(CalendarDate(year, monthIndex, day)))
            && (r.Day? ==> r.date == CalendarDate(year, monthIndex, day))
            && (r == Invalid <==> LastYear + 1 < year && -1 <= monthIndex)
            && (r.Day? || r == Invalid || r == Unnormalised(year, monthIndex, day))
  {
  }

  /** The date three `Number` results spell: year, month (stored minus one), day; invalid if any is `NaN`. */
  function DateOfNumbers(year: Option<nat>, month: Option<nat>, day: Option<nat>): DateState {
    if year.Some? && month.Some? && day.Some?
    then MakeDate(year.value, month.value as int - 1, day.value)
    else Invalid
  }

  /** The date the first three `-`-separated parts spell; invalid when there are fewer. */
  function DateOfParts(parts: seq<string>): (r: DateState)
    ensures r != NoDate
    ensures |parts| < 3 ==> r == Invalid
  {
    if |parts| < 3 then Invalid
    else DateOfNumbers(PartNumber(parts[0]), PartNumber(parts[1]), PartNumber(parts[2]))
  }

  /** `parseDate`: no date for `''`, otherwise the date the `-`-separated parts spell. */
  function ParseDate(s: string): (r: DateState)
    ensures r == NoDate <==> s == []
  {
    if s == [] then NoDate else DateOfParts(Split(s, '-'))
  }

  /** The string `handleSelect` builds: `${year}-${MM}-${DD}` with the month counted from 1. */
  function FormatDate(d: CalendarDate): string {
    NatToString(d.year) + "-" + PadStart2(NatToString(d.monthIndex + 1)) + "-" + PadStart2(NatToString(d.day))
  }

  /**
   * The formatted day is the unpadded year, `-`, the month counted from 1 in
   * exactly two digits, `-`, the day in exactly two digits.
   */
  lemma FormatDateShape(d: CalendarDate)
    requires d.monthIndex < 99 && d.day < 100
    ensures var s, n := FormatDate(d), |NatToString(d.year)|;
            && |s| == n + 6 && s[..n] == NatToString(d.year) && s[n] == '-' && s[n + 3] == '-'
            && AllDigits(s[n + 1..n + 3]) && DigitsValue(s[n + 1..n + 3]) == d.monthIndex + 1
            && AllDigits(s[n + 4..]) && DigitsValue(s[n + 4..]) == d.day
  {
    var y, m, dd := NatToString(d.year), PadStart2(NatToString(d.monthIndex + 1)), PadStart2(NatToString(d.day));
    assert |m| == 2 && AllDigits(m) && DigitsValue(m) == d.monthIndex + 1 by { PadStart2RoundTrip(d.monthIndex + 1); }
    assert |dd| == 2 && AllDigits(dd) && DigitsValue(dd) == d.day by { PadStart2RoundTrip(d.day); }
    assert FormatDate(d) == y + "-" + m + "-" + dd;
    DashJoinedPieces(y, m, dd);
  }

  /** Where the pieces of `y-m-dd` sit when the last two have two characters each. */
  lemma DashJoinedPieces(y: string, m: string, dd: string)
    requires |m| == 2 && |dd| == 2
    ensures var s, n := y + "-" + m + "-" + dd, |y|;
            && |s| == n + 6 && s[..n] == y && s[n] == '-' && s[n + 3] == '-'
            && s[n + 1..n + 3] == m && s[n + 4..] == dd
  {
  }

  lemma DigitsHaveNoDash(s: string)
    requires AllDigits(s)
    ensures '-' !in s
  {
    assert forall i :: 0 <= i < |s| ==> s[i] != '-';
  }

  /** Three dash-free pieces joined with `-` split back into exactly those pieces. */
  lemma SplitThree(a: string, b: string, c: string)
    requires '-' !in a && '-' !in b && '-' !in c
    ensures Split(a + "-" + b + "-" + c, '-') == [a, b, c]
  {
    assert a + "-" + b + "-" + c == a + ['-'] + (b + ['-'] + c);
    SplitFirstPiece(a, '-', b + ['-'] + c);
    SplitFirstPiece(b, '-', c);
    SplitNoSeparator(c, '-');
  }

  lemma PartNumberOfDigits(part: string)
    requires AllDigits(part)
    ensures PartNumber(part) == Some(DigitsValue(part))
  {
    TrimDigits(part);
  }

  lemma DateOfDigitParts(y: string, m: string, dd: string)
    requires AllDigits(y) && AllDigits(m) && AllDigits(dd)
    ensures DateOfParts([y, m, dd]) == DateOfNumbers(Some(DigitsValue(y)), Some(DigitsValue(m)), Some(DigitsValue(dd)))
  {
    var parts := [y, m, dd];
    assert parts[0] == y && parts[1] == m && parts[2] == dd;
    PartNumberOfDigits(y);
    PartNumberOfDigits(m);
    PartNumberOfDigits(dd);
  }

  /** Three digit runs joined with `-` parse as the date they spell, month minus one. */
  lemma ParseJoined(y: string, m: string, dd: string)
    requires AllDigits(y) && AllDigits(m) && AllDigits(dd)
    ensures ParseDate(y + "-" + m + "-" + dd) == DateOfNumbers(Some(DigitsValue(y)), Some(DigitsValue(m)), Some(DigitsValue(dd)))
  {
    var s := y + "-" + m + "-" + dd;
    assert Split(s, '-') == [y, m, dd] by {
      DigitsHaveNoDash(y);
      DigitsHaveNoDash(m);
      DigitsHaveNoDash(dd);
      SplitThree(y, m, dd);
    }
    assert ParseDate(s) == DateOfParts([y, m, dd]) by {
      assert s != [];
    }
    DateOfDigitParts(y, m, dd);
  }

  /** Parsing what selecting a valid day emits gives back that day. */
  lemma ParseFormat(d: CalendarDate)
    requires IsValidDate(d)
    ensures ParseDate(FormatDate(d)) == Day(d)
  {
    var y, m, dd := NatToString(d.year), PadStart2(NatToString(d.monthIndex + 1)), PadStart2(NatToString(d.day));
    assert AllDigits(y) && DigitsValue(y) == d.year by { DigitsValueOfNatToString(d.year); }
    assert AllDigits(m) && DigitsValue(m) == d.monthIndex + 1 by { PadStart2RoundTrip(d.monthIndex + 1); }
    assert AllDigits(dd) && DigitsValue(dd) == d.day by { PadStart2RoundTrip(d.day); }
    ParseJoined(y, m, dd);
  }

  /** A digit-run date whose year lies past the end of the `Date` range parses as an Invalid Date. */
  lemma ParseBeyondRange(y: string, m: string, dd: string)
    requires AllDigits(y) && AllDigits(m) && AllDigits(dd)
    requires DigitsValue(y) > LastYear + 1
    ensures ParseDate(y + "-" + m + "-" + dd) == Invalid
  {
    ParseJoined(y, m, dd);
  }

  /** A well-formed `YYYY-MM-DD` string of an existing day, without a leading zero in the year. */
  predicate IsIsoDate(s: string) {
    && |s| == 10 && s[4] == '-' && s[7] == '-'
    && AllDigits(s[..4]) && AllDigits(s[5..7]) && AllDigits(s[8..])
    && s[0] != '0'
    && 1 <= DigitsValue(s[5..7]) <= 12
    && 1 <= DigitsValue(s[8..]) <= DaysInMonth(DigitsValue(s[..4]), DigitsValue(s[5..7]) - 1)
  }

  lemma {:induction false} NatToStringLong(n: nat)
    ensures |NatToString(n)| >= 3 ==> n >= 100
  {
    if n >= 10 {
      assert NatToString(n) == NatToString(n / 10) + [DigitChar(n % 10)];
    }
  }

  /** Formatting the parsed value of a well-formed `YYYY-MM-DD` string gives that string back. */
  lemma FormatParse(s: string)
    requires IsIsoDate(s)
    ensures ParseDate(s).Day? && IsValidDate(ParseDate(s).date)
    ensures FormatDate(ParseDate(s).date) == s
  {
    var y, m, dd := s[..4], s[5..7], s[8..];
    assert s == y + "-" + m + "-" + dd;
    ParseJoined(y, m, dd);
    NatToStringOfDigitsValue(y);
    NatToStringLong(DigitsValue(y));
    assert DigitsValue(y) <= LastYear by {
      DigitsValueBelow(y);
      assert Pow10(4) == 10000;
    }
    PadStart2OfDigits(m);
    PadStart2OfDigits(dd);
  }

  /** `value ? parseDate(value) : undefined`: the date state a `value` prop sets. */
  function SyncFromValue(value: Option<string>): (r: DateState)
    ensures value.None? || value == Some([]) ==> r == NoDate
    ensures value.Some? && value.value != [] ==> r == ParseDate(value.value)
  {
    if value.Some? && value.value != [] then ParseDate(value.value) else NoDate
  }

  /**
   * `handleSelect`: the new date state, and the value handed to `onChange`
   * (the formatted day, or `''` when the selection is cleared), none without
   * an `onChange`.
   */
  function HandleSelect(selected: Option<CalendarDate>, hasOnChange: bool): (r: (DateState, Option<string>))
    ensures r.0 == if selected.Some? then Day(selected.value) else NoDate
    ensures r.1.Some? <==> hasOnChange
    ensures hasOnChange ==> r.1 == Some(if selected.Some? then FormatDate(selected.value) else [])
  {
    var state := if selected.Some? then Day(selected.value) else NoDate;
    if !hasOnChange then (state, None)
    else if selected.Some? then (state, Some(FormatDate(selected.value)))
    else (state, Some([]))
  }

  /**
   * When the parent feeds the emitted value back as the `value` prop, the
   * effect sets the same date state the selection did.
   */
  lemma SelectThenSync(selected: Option<CalendarDate>)
    requires selected.Some? ==> IsValidDate(selected.value)
    ensures var (state, emitted) := HandleSelect(selected, true);
            SyncFromValue(emitted) == state
  {
    if selected.Some? {
      ParseFormat(selected.value);
      assert FormatDate(selected.value) != [];
    }
  }
}
