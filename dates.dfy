/**
 * Calendar arithmetic behind the refresh-schedule start dates:
 * `datetime + relativedelta(months=+1)`, `datetime + relativedelta(weeks=+1)`
 * and `strftime('%Y-%m-%dT%H:%M:%SZ')` on the proleptic Gregorian calendar.
 */
module Dates {
  import opened Results
  import Text

  /** Python's `datetime.MAXYEAR`. */
  const MaxYear: nat := 9999

  datatype DateTime = DateTime(year: nat, month: nat, day: nat, hour: nat, minute: nat, second: nat)

  predicate IsLeap(y: nat) {
    y % 4 == 0 && (y % 100 != 0 || y % 400 == 0)
  }

  function DaysInMonth(y: nat, m: nat): (n: nat)
    requires 1 <= m <= 12
    ensures 28 <= n <= 31
  {
    if m == 2 then (if IsLeap(y) then 29 else 28)
    else if m == 4 || m == 6 || m == 9 || m == 11 then 30
    else 31
  }

  /** A calendar date and time of day (any positive year). */
  predicate ValidDate(d: DateTime) {
    d.year >= 1 && 1 <= d.month <= 12 && 1 <= d.day <= DaysInMonth(d.year, d.month)
    && d.hour < 24 && d.minute < 60 && d.second < 60
  }

  /** A value Python's `datetime` can represent. */
  predicate Representable(d: DateTime) {
    ValidDate(d) && d.year <= MaxYear
  }

  function DaysBeforeMonth(y: nat, m: nat): nat
    requires 1 <= m <= 12
  {
    if m == 1 then 0 else DaysBeforeMonth(y, m - 1) + DaysInMonth(y, m - 1)
  }

  function DaysInYear(y: nat): nat {
    if IsLeap(y) then 366 else 365
  }

  function DaysBeforeYear(y: nat): nat
    requires y >= 1
  {
    if y == 1 then 0 else DaysBeforeYear(y - 1) + DaysInYear(y - 1)
  }

  /** `date.toordinal()`: 0001-01-01 is day 1. */
  function Ordinal(d: DateTime): int
    requires ValidDate(d)
  {
    DaysBeforeYear(d.year) + DaysBeforeMonth(d.year, d.month) + d.day
  }

  lemma {:induction false} DaysBeforeDecember(y: nat)
    ensures DaysBeforeMonth(y, 12) + DaysInMonth(y, 12) == DaysInYear(y)
  {
    assert DaysBeforeMonth(y, 12) == DaysBeforeMonth(y, 11) + 30;
    assert DaysBeforeMonth(y, 11) == DaysBeforeMonth(y, 10) + 31;
    assert DaysBeforeMonth(y, 10) == DaysBeforeMonth(y, 9) + 30;
    assert DaysBeforeMonth(y, 9) == DaysBeforeMonth(y, 8) + 31;
    assert DaysBeforeMonth(y, 8) == DaysBeforeMonth(y, 7) + 31;
    assert DaysBeforeMonth(y, 7) == DaysBeforeMonth(y, 6) + 30;
    assert DaysBeforeMonth(y, 6) == DaysBeforeMonth(y, 5) + 31;
    assert DaysBeforeMonth(y, 5) == DaysBeforeMonth(y, 4) + 30;
    assert DaysBeforeMonth(y, 4) == DaysBeforeMonth(y, 3) + 31;
    assert DaysBeforeMonth(y, 3) == DaysBeforeMonth(y, 2) + DaysInMonth(y, 2);
    assert DaysBeforeMonth(y, 2) == 31;
  }

  /** The same time of day on the following calendar day. */
  function NextDay(d: DateTime): (r: DateTime)
    requires ValidDate(d)
    ensures ValidDate(r)
    ensures Ordinal(r) == Ordinal(d) + 1
    ensures r.hour == d.hour && r.minute == d.minute && r.second == d.second
  {
    if d.day < DaysInMonth(d.year, d.month) then d.(day := d.day + 1)
    else if d.month < 12 then d.(month := d.month + 1, day := 1)
    else
      DaysBeforeDecember(d.year);
      d.(year := d.year + 1, month := 1, day := 1)
  }

  /** `d + timedelta(days=n)` without the upper bound on the year. */
  function ShiftDays(d: DateTime, n: nat): (r: DateTime)
    requires ValidDate(d)
    ensures ValidDate(r)
    ensures r.hour == d.hour && r.minute == d.minute && r.second == d.second
    decreases n
  {
    if n == 0 then d else ShiftDays(NextDay(d), n - 1)
  }

  /** Shifting by `n` days moves the ordinal by exactly `n`. */
  lemma {:induction false} ShiftDaysOrdinal(d: DateTime, n: nat)
    requires ValidDate(d)
    ensures Ordinal(ShiftDays(d, n)) == Ordinal(d) + n
    decreases n
  {
    if n > 0 {
      ShiftDaysOrdinal(NextDay(d), n - 1);
    }
  }

  /** `d + relativedelta(weeks=+1)`: seven days later, OverflowError past 9999-12-31. */
  function AddWeek(d: DateTime): (r: Result<DateTime>)
    requires Representable(d)
    ensures r.Ok? ==> Representable(r.value)
    ensures r.Ok? ==> r.value.hour == d.hour && r.value.minute == d.minute && r.value.second == d.second
    ensures r.Ok? <==> ShiftDays(d, 7).year <= MaxYear
    ensures r.Err? ==> r.error == OverflowError
  {
    var shifted := ShiftDays(d, 7);
    if shifted.year > MaxYear then Err(OverflowError) else Ok(shifted)
  }

  /**
   * `d + relativedelta(months=+1)`: the same day of the next month, clamped
   * to that month's length; ValueError when the year would pass 9999.
   */
  function AddMonth(d: DateTime): (r: Result<DateTime>)
    requires Representable(d)
    ensures r.Ok? <==> d.month < 12 || d.year < MaxYear
    ensures r.Ok? ==> Representable(r.value)
    ensures r.Ok? ==> r.value.month == (if d.month == 12 then 1 else d.month + 1)
    ensures r.Ok? ==> r.value.year == (if d.month == 12 then d.year + 1 else d.year)
    ensures r.Ok? ==> r.value.day == if d.day <= DaysInMonth(r.value.year, r.value.month) then d.day
                                     else DaysInMonth(r.value.year, r.value.month)
    ensures r.Ok? ==> r.value.hour == d.hour && r.value.minute == d.minute && r.value.second == d.second
  {
    var (y, m) := if d.month == 12 then (d.year + 1, 1) else (d.year, d.month + 1);
    if y > MaxYear then Err(ValueError("year is out of range"))
    else
      var dim := DaysInMonth(y, m);
      Ok(d.(year := y, month := m, day := if d.day <= dim then d.day else dim))
  }

  /**
   * One month later lies exactly as many days ahead as the current month
   * has, less the days cut off by clamping to the shorter next month.
   */
  lemma AddMonthOrdinal(d: DateTime)
    requires Representable(d) && AddMonth(d).Ok?
    ensures Ordinal(AddMonth(d).value) == Ordinal(d) + DaysInMonth(d.year, d.month) - (d.day - AddMonth(d).value.day)
  {
    if d.month == 12 {
      DaysBeforeDecember(d.year);
    }
  }

  /** `strftime('%Y-%m-%dT%H:%M:%SZ')`; glibc renders `%Y` without padding. */
  function Format(d: DateTime): string
    requires Representable(d)
  {
    Text.NatToString(d.year) + "-" + Text.Pad2(d.month) + "-" + Text.Pad2(d.day)
    + "T" + Text.Pad2(d.hour) + ":" + Text.Pad2(d.minute) + ":" + Text.Pad2(d.second) + "Z"
  }

  /** Reads back a timestamp in the layout `Format` writes for four-digit years. */
  function Parse(s: string): Option<DateTime> {
    if |s| == 20 && s[4] == '-' && s[7] == '-' && s[10] == 'T' && s[13] == ':' && s[16] == ':' && s[19] == 'Z'
       && Text.AllDigits(s[..4]) && Text.AllDigits(s[5..7]) && Text.AllDigits(s[8..10])
       && Text.AllDigits(s[11..13]) && Text.AllDigits(s[14..16]) && Text.AllDigits(s[17..19])
    then Some(DateTime(Text.DigitsValue(s[..4]), Text.DigitsValue(s[5..7]), Text.DigitsValue(s[8..10]),
                       Text.DigitsValue(s[11..13]), Text.DigitsValue(s[14..16]), Text.DigitsValue(s[17..19])))
    else None
  }

  /** Where each field of a four-digit-year timestamp sits. */
  lemma FormatLayout(d: DateTime)
    requires Representable(d) && d.year >= 1000
    ensures var s := Format(d);
      |s| == 20 && s[4] == '-' && s[7] == '-' && s[10] == 'T' && s[13] == ':' && s[16] == ':' && s[19] == 'Z'
      && s[..4] == Text.NatToString(d.year) && s[5..7] == Text.Pad2(d.month) && s[8..10] == Text.Pad2(d.day)
      && s[11..13] == Text.Pad2(d.hour) && s[14..16] == Text.Pad2(d.minute) && s[17..19] == Text.Pad2(d.second)
  {
    Text.NatToStringFourDigits(d.year);
  }

  /** The start timestamps written into templates parse back to the instant they render. */
  lemma FormatParse(d: DateTime)
    requires Representable(d) && d.year >= 1000
    ensures Parse(Format(d)) == Some(d)
  {
    FormatLayout(d);
    Text.NatToStringValue(d.year);
    Text.Pad2Value(d.month);
    Text.Pad2Value(d.day);
    Text.Pad2Value(d.hour);
    Text.Pad2Value(d.minute);
    Text.Pad2Value(d.second);
  }
}
