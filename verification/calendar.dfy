/**
 * Proleptic Gregorian calendar dates in UTC, with the day and month rollover
 * that JavaScript's `new Date(y, m, d)` and `Date.prototype.setDate` perform,
 * and the `YYYY-MM-DD` text that `toISOString().split("T")[0]` produces and
 * that `new Date("YYYY-MM-DD")` reads.
 */
module Calendar {
  import opened JsCore

  /** A calendar date; `month` is 1-based (JavaScript's month index plus one). */
  datatype Date = Date(year: int, month: int, day: int)

  predicate IsLeapYear(y: int)
  {
    y % 4 == 0 && (y % 100 != 0 || y % 400 == 0)
  }

  function DaysInMonth(y: int, m: int): (n: int)
    requires 1 <= m <= 12
    ensures 28 <= n <= 31
    ensures n == 29 <==> m == 2 && IsLeapYear(y)
  {
    if m == 2 then (if IsLeapYear(y) then 29 else 28)
    else if m == 4 || m == 6 || m == 9 || m == 11 then 30
    else 31
  }

  predicate Valid(d: Date)
  {
    1 <= d.month <= 12 && 1 <= d.day <= DaysInMonth(d.year, d.month)
  }

  /** The first day of the month after (y, m). */
  function FirstOfNextMonth(y: int, m: int): (r: Date)
    requires 1 <= m <= 12
    ensures Valid(r) && r.day == 1
  {
    if m == 12 then Date(y + 1, 1, 1) else Date(y, m + 1, 1)
  }

  /** The reference notion of "one calendar day later". */
  function NextDay(d: Date): (r: Date)
    requires Valid(d)
    ensures Valid(r)
  {
    if d.day < DaysInMonth(d.year, d.month) then d.(day := d.day + 1)
    else FirstOfNextMonth(d.year, d.month)
  }

  /** `n` applications of NextDay. */
  function NthNextDay(d: Date, n: nat): (r: Date)
    requires Valid(d)
    ensures Valid(r)
  {
    if n == 0 then d else NextDay(NthNextDay(d, n - 1))
  }

  /**
   * ECMAScript MakeDay's day arithmetic: the date `day - 1` days after the
   * first of month (y, m), for any integer `day`; a day past the end of the
   * month carries into the following months, a day below 1 borrows from the
   * preceding ones. Nothing is clamped.
   */
  function Normalize(y: int, m: int, day: int): (r: Date)
    requires 1 <= m <= 12
    ensures Valid(r)
    decreases if day < 1 then 1 else 0, if day < 1 then -day else day
  {
    if day < 1 then
      var py := if m == 1 then y - 1 else y;
      var pm := if m == 1 then 12 else m - 1;
      Normalize(py, pm, day + DaysInMonth(py, pm))
    else if day <= DaysInMonth(y, m) then Date(y, m, day)
    else
      var next := FirstOfNextMonth(y, m);
      Normalize(next.year, next.month, day - DaysInMonth(y, m))
  }

  /** One more day of offset is one NextDay step later. */
  lemma {:induction false} NormalizeSucc(y: int, m: int, day: int)
    requires 1 <= m <= 12
    ensures Normalize(y, m, day + 1) == NextDay(Normalize(y, m, day))
    decreases if day < 1 then 1 else 0, if day < 1 then -day else day
  {
    if day < 1 {
      var py := if m == 1 then y - 1 else y;
      var pm := if m == 1 then 12 else m - 1;
      if day + 1 < 1 {
        NormalizeSucc(py, pm, day + DaysInMonth(py, pm));
      } else {
        assert Normalize(py, pm, DaysInMonth(py, pm)) == Date(py, pm, DaysInMonth(py, pm));
      }
    } else if day > DaysInMonth(y, m) {
      var next := FirstOfNextMonth(y, m);
      NormalizeSucc(next.year, next.month, day - DaysInMonth(y, m));
    } else if day == DaysInMonth(y, m) {
      var next := FirstOfNextMonth(y, m);
      assert Normalize(y, m, day + 1) == Normalize(next.year, next.month, 1);
    }
  }

  /** `date.setDate(date.getDate() + n)`. */
  function AddDays(d: Date, n: int): Date
    requires 1 <= d.month <= 12
  {
    Normalize(d.year, d.month, d.day + n)
  }

  /** Adding n days to a valid date is taking n calendar steps forward. */
  lemma {:induction false} AddDaysIsNthNextDay(d: Date, n: nat)
    requires Valid(d)
    ensures AddDays(d, n) == NthNextDay(d, n)
  {
    if n > 0 {
      AddDaysIsNthNextDay(d, n - 1);
      NormalizeSucc(d.year, d.month, d.day + n - 1);
    }
  }

  /** ECMAScript MakeDay: month indexes outside 0..11 carry into the year. */
  function MakeDate(year: int, monthIndex: int, day: int): Date
  {
    Normalize(year + monthIndex / 12, monthIndex % 12 + 1, day)
  }

  /** `new Date(year, monthIndex, day)`: a two-digit year 0..99 means 1900 + year. */
  function ConstructDate(year: int, monthIndex: int, day: int): Date
  {
    MakeDate(if 0 <= year <= 99 then 1900 + year else year, monthIndex, day)
  }

  /**
   * Month arithmetic keeps the day of the month when the target month has it,
   * and otherwise rolls the excess into the following month.
   */
  lemma MakeDateRollsOver(year: int, monthIndex: int, day: int)
    requires 1 <= day <= 31
    ensures var y := year + monthIndex / 12;
            var m := monthIndex % 12 + 1;
            && (day <= DaysInMonth(y, m) ==> MakeDate(year, monthIndex, day) == Date(y, m, day))
            && (day > DaysInMonth(y, m) ==>
                  var next := FirstOfNextMonth(y, m);
                  MakeDate(year, monthIndex, day) == Date(next.year, next.month, day - DaysInMonth(y, m)))
  {
    var y := year + monthIndex / 12;
    var m := monthIndex % 12 + 1;
    if day > DaysInMonth(y, m) {
      var next := FirstOfNextMonth(y, m);
      assert Normalize(next.year, next.month, day - DaysInMonth(y, m))
          == Date(next.year, next.month, day - DaysInMonth(y, m));
    }
  }

  // ---------------------------------------------------------------------
  // YYYY-MM-DD text

  function Digits2(n: int): (s: string)
    requires 0 <= n < 100
    ensures |s| == 2
  {
    [Digit(n / 10), Digit(n % 10)]
  }

  function Digits4(n: int): (s: string)
    requires 0 <= n < 10000
    ensures |s| == 4
  {
    [Digit(n / 1000), Digit(n / 100 % 10), Digit(n / 10 % 10), Digit(n % 10)]
  }

  /** The year as toISOString writes it: four digits, or a sign and six digits outside 0..9999. */
  function YearText(y: int): string
  {
    if 0 <= y <= 9999 then Digits4(y)
    else (if y < 0 then "-" else "+") + PadStart(NatToString(if y < 0 then -y else y), 6, '0')
  }

  /** `date.toISOString().split("T")[0]` for a date at UTC midnight. */
  function FormatIso(d: Date): string
    requires Valid(d)
  {
    YearText(d.year) + "-" + Digits2(d.month) + "-" + Digits2(d.day)
  }

  /** The text matches `^\d{4}-\d{2}-\d{2}$`. */
  predicate IsIsoShape(s: string)
  {
    && |s| == 10
    && IsDigit(s[0]) && IsDigit(s[1]) && IsDigit(s[2]) && IsDigit(s[3])
    && s[4] == '-' && IsDigit(s[5]) && IsDigit(s[6])
    && s[7] == '-' && IsDigit(s[8]) && IsDigit(s[9])
  }

  function Value2(a: char, b: char): int
    requires IsDigit(a) && IsDigit(b)
  {
    DigitValue(a) * 10 + DigitValue(b)
  }

  /**
   * `new Date("YYYY-MM-DD")`: the date-only ISO form, read as UTC; a month
   * outside 01..12 or a day the month does not have is an invalid date.
   */
  function ParseIso(s: string): (r: Option<Date>)
    ensures r.Some? ==> Valid(r.value) && 0 <= r.value.year <= 9999
  {
    if !IsIsoShape(s) then None
    else
      var y := Value2(s[0], s[1]) * 100 + Value2(s[2], s[3]);
      var m := Value2(s[5], s[6]);
      var d := Value2(s[8], s[9]);
      if 1 <= m <= 12 && 1 <= d <= DaysInMonth(y, m) then Some(Date(y, m, d)) else None
  }

  lemma Digits2Value(n: int)
    requires 0 <= n < 100
    ensures Value2(Digits2(n)[0], Digits2(n)[1]) == n
  {
  }

  lemma Digits4Value(n: int)
    requires 0 <= n < 10000
    ensures Value2(Digits4(n)[0], Digits4(n)[1]) * 100 + Value2(Digits4(n)[2], Digits4(n)[3]) == n
  {
    var s := Digits4(n);
    assert Value2(s[0], s[1]) == n / 100;
    assert Value2(s[2], s[3]) == n % 100;
  }

  /** Formatting a date of a four-digit year and reading it back gives the date. */
  lemma ParseFormatRoundTrip(d: Date)
    requires Valid(d) && 0 <= d.year <= 9999
    ensures IsIsoShape(FormatIso(d))
    ensures ParseIso(FormatIso(d)) == Some(d)
  {
    var s := FormatIso(d);
    var y, m, e := Digits4(d.year), Digits2(d.month), Digits2(d.day);
    assert s == y + "-" + m + "-" + e;
    assert s[0] == y[0] && s[1] == y[1] && s[2] == y[2] && s[3] == y[3];
    assert s[5] == m[0] && s[6] == m[1] && s[8] == e[0] && s[9] == e[1];
    Digits4Value(d.year);
    Digits2Value(d.month);
    Digits2Value(d.day);
  }

  lemma DigitsOfValue2(a: char, b: char)
    requires IsDigit(a) && IsDigit(b)
    ensures Digits2(Value2(a, b)) == [a, b]
  {
  }

  lemma DigitsOfValue4(a: char, b: char, c: char, e: char)
    requires IsDigit(a) && IsDigit(b) && IsDigit(c) && IsDigit(e)
    ensures Digits4(Value2(a, b) * 100 + Value2(c, e)) == [a, b, c, e]
  {
    var va, vb, vc, ve := DigitValue(a), DigitValue(b), DigitValue(c), DigitValue(e);
    assert 0 <= va < 10 && 0 <= vb < 10 && 0 <= vc < 10 && 0 <= ve < 10;
    var n := Value2(a, b) * 100 + Value2(c, e);
    assert n == va * 1000 + vb * 100 + vc * 10 + ve;
    assert n / 1000 == va;
    assert n / 100 == va * 10 + vb;
    assert n / 10 == va * 100 + vb * 10 + vc;
    assert (va * 10 + vb) % 10 == vb;
    assert (va * 100 + vb * 10 + vc) % 10 == vc;
    assert n % 10 == ve;
  }

  /** Every text that reads as a date is the canonical text of that date. */
  lemma FormatParseRoundTrip(s: string)
    requires ParseIso(s).Some?
    ensures FormatIso(ParseIso(s).value) == s
  {
    var d := ParseIso(s).value;
    DigitsOfValue4(s[0], s[1], s[2], s[3]);
    DigitsOfValue2(s[5], s[6]);
    DigitsOfValue2(s[8], s[9]);
    assert YearText(d.year) == s[..4];
    assert s == s[..4] + "-" + [s[5], s[6]] + "-" + [s[8], s[9]];
  }

  // ---------------------------------------------------------------------
  // Invoice dates

  /**
   * The dates a generated invoice carries, as the two clock readings give
   * them: the issue date and the date 30 days later, both as UTC
   * `YYYY-MM-DD` text.
   */
  datatype Stamp = Stamp(date: string, dueDate: string)

  /** The stamp of an invoice generated on the day `today`. */
  function StampOn(today: Date): (s: Stamp)
    requires Valid(today)
    ensures s.date == FormatIso(today) && s.dueDate == FormatIso(NthNextDay(today, 30))
  {
    AddDaysIsNthNextDay(today, 30);
    Stamp(FormatIso(today), FormatIso(AddDays(today, 30)))
  }
}
