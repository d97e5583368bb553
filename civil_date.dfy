/** Proleptic Gregorian calendar dates, as JavaScript's `Date` reports them
    through `getFullYear`, `getMonth() + 1`, `getDate` and `getDay`. A date
    is turned into a day count since 0001-01-01; adding days and the weekday
    are defined through that count. */
module CivilDate {
  import opened Wrappers
  import opened Text

  datatype Date = Date(year: int, month: int, day: int)

  predicate IsLeapYear(y: int)
  {
    (y % 4 == 0 && y % 100 != 0) || y % 400 == 0
  }

  function DaysInMonth(y: int, m: int): (n: int)
    requires 1 <= m <= 12
    ensures 28 <= n <= 31
    ensures m == 2 ==> (n == 29 <==> IsLeapYear(y))
  {
    if m == 2 then (if IsLeapYear(y) then 29 else 28)
    else if m == 4 || m == 6 || m == 9 || m == 11 then 30
    else 31
  }

  function DaysInYear(y: int): int
  {
    if IsLeapYear(y) then 366 else 365
  }

  /** A real calendar day from year 1 on. */
  predicate Valid(d: Date)
  {
    d.year >= 1 && 1 <= d.month <= 12 && 1 <= d.day <= DaysInMonth(d.year, d.month)
  }

  /** Days in the months of year y before month m. */
  function DaysBeforeMonth(y: int, m: int): nat
    requires 1 <= m <= 13
  {
    if m == 1 then 0 else DaysBeforeMonth(y, m - 1) + DaysInMonth(y, m - 1)
  }

  lemma YearLength(y: int)
    ensures DaysBeforeMonth(y, 13) == DaysInYear(y)
  {
    var feb := DaysInMonth(y, 2);
    assert DaysBeforeMonth(y, 2) == 31;
    assert DaysBeforeMonth(y, 3) == 31 + feb;
    assert DaysBeforeMonth(y, 4) == 62 + feb;
    assert DaysBeforeMonth(y, 5) == 92 + feb;
    assert DaysBeforeMonth(y, 6) == 123 + feb;
    assert DaysBeforeMonth(y, 7) == 153 + feb;
    assert DaysBeforeMonth(y, 8) == 184 + feb;
    assert DaysBeforeMonth(y, 9) == 215 + feb;
    assert DaysBeforeMonth(y, 10) == 245 + feb;
    assert DaysBeforeMonth(y, 11) == 276 + feb;
    assert DaysBeforeMonth(y, 12) == 306 + feb;
  }

  /** Days in the years 1 .. y-1. */
  function DaysBeforeYear(y: int): nat
    requires y >= 1
  {
    if y == 1 then 0 else DaysBeforeYear(y - 1) + DaysInYear(y - 1)
  }

  /** Days since 0001-01-01 (which is day 0). */
  function DayNumber(d: Date): nat
    requires Valid(d)
  {
    DaysBeforeYear(d.year) + DaysBeforeMonth(d.year, d.month) + d.day - 1
  }

  /** `getDay()`: 0 for Sunday through 6 for Saturday; 0001-01-01 was a Monday. */
  function Weekday(d: Date): (w: int)
    requires Valid(d)
    ensures 0 <= w < 7
  {
    (DayNumber(d) + 1) % 7
  }

  // ---------------------------------------------------------------------------
  // Moving by one day.

  function NextDate(d: Date): (r: Date)
    requires Valid(d)
    ensures Valid(r)
  {
    if d.day < DaysInMonth(d.year, d.month) then Date(d.year, d.month, d.day + 1)
    else if d.month < 12 then Date(d.year, d.month + 1, 1)
    else Date(d.year + 1, 1, 1)
  }

  function PrevDate(d: Date): (r: Date)
    requires Valid(d) && DayNumber(d) > 0
    ensures Valid(r)
  {
    if d.day > 1 then Date(d.year, d.month, d.day - 1)
    else if d.month > 1 then Date(d.year, d.month - 1, DaysInMonth(d.year, d.month - 1))
    else Date(d.year - 1, 12, 31)
  }

  lemma NextDayNumber(d: Date)
    requires Valid(d)
    ensures DayNumber(NextDate(d)) == DayNumber(d) + 1
  {
    if d.day == DaysInMonth(d.year, d.month) && d.month == 12 {
      YearLength(d.year);
    }
  }

  lemma PrevDayNumber(d: Date)
    requires Valid(d) && DayNumber(d) > 0
    ensures DayNumber(PrevDate(d)) == DayNumber(d) - 1
  {
    var p := PrevDate(d);
    if d.day > 1 {
      assert p == Date(d.year, d.month, d.day - 1);
    } else if d.month > 1 {
      assert p == Date(d.year, d.month - 1, DaysInMonth(d.year, d.month - 1));
      assert DaysBeforeMonth(d.year, d.month) == DaysBeforeMonth(d.year, d.month - 1) + DaysInMonth(d.year, d.month - 1);
    } else {
      assert d.year > 1;
      assert p == Date(d.year - 1, 12, 31);
      YearLength(d.year - 1);
      assert DaysBeforeYear(d.year) == DaysBeforeYear(d.year - 1) + DaysInYear(d.year - 1);
      assert DaysBeforeMonth(d.year - 1, 13) == DaysBeforeMonth(d.year - 1, 12) + 31;
    }
  }

  /** The date n days after d (before it when n < 0): `setDate(getDate() + n)`. */
  function AddDays(d: Date, n: int): (r: Date)
    requires Valid(d) && DayNumber(d) + n >= 0
    ensures Valid(r) && DayNumber(r) == DayNumber(d) + n
    decreases if n >= 0 then n else -n
  {
    if n == 0 then d
    else if n > 0 then (NextDayNumber(d); AddDays(NextDate(d), n - 1))
    else (PrevDayNumber(d); AddDays(PrevDate(d), n + 1))
  }

  /** Every date from year 2 on lies at least a year after day 0, so a week
      can always be stepped back. */
  lemma LaterYears(d: Date)
    requires Valid(d) && d.year >= 2
    ensures DayNumber(d) >= 365
  {
    assert DaysBeforeYear(d.year) == DaysBeforeYear(d.year - 1) + DaysInYear(d.year - 1);
  }

  // ---------------------------------------------------------------------------
  // Week starts.

  /** The Sunday on or before d: `setDate(getDate() - getDay())`. */
  function SundayOf(d: Date): (r: Date)
    requires Valid(d) && d.year >= 2
    ensures Valid(r) && DayNumber(r) == DayNumber(d) - Weekday(d)
  {
    LaterYears(d);
    AddDays(d, -Weekday(d))
  }

  /** Days back to the Monday of d's Monday-to-Sunday week:
      `dayOfWeek === 0 ? 6 : dayOfWeek - 1`. */
  function MondayOffset(d: Date): (k: int)
    requires Valid(d)
    ensures 0 <= k <= 6
  {
    if Weekday(d) == 0 then 6 else Weekday(d) - 1
  }

  /** The Monday on or before d: `setDate(getDate() - mondayOffset)`. */
  function MondayOf(d: Date): (r: Date)
    requires Valid(d) && d.year >= 2
    ensures Valid(r) && DayNumber(r) == DayNumber(d) - MondayOffset(d)
  {
    LaterYears(d);
    AddDays(d, -MondayOffset(d))
  }

  /** k days after a date, for k within a week either way, the weekday
      has moved on by k, wrapping around the week. */
  lemma WeekdayShift(a: Date, b: Date, k: int)
    requires Valid(a) && Valid(b) && DayNumber(b) == DayNumber(a) + k && -7 <= k <= 7
    ensures 0 <= Weekday(a) + k < 7 ==> Weekday(b) == Weekday(a) + k
    ensures Weekday(a) + k >= 7 ==> Weekday(b) == Weekday(a) + k - 7
    ensures Weekday(a) + k < 0 ==> Weekday(b) == Weekday(a) + k + 7
  {
    var n := DayNumber(a) + 1;
    SplitSeven(n);
    var q, w := n / 7, n % 7;
    if w + k >= 7 {
      RemainderSeven(n + k, q + 1, w + k - 7);
    } else if w + k < 0 {
      RemainderSeven(n + k, q - 1, w + k + 7);
    } else {
      RemainderSeven(n + k, q, w + k);
    }
  }

  /** A number is seven times its quotient plus its remainder. */
  lemma SplitSeven(k: int)
    ensures k == 7 * (k / 7) + k % 7 && 0 <= k % 7 < 7
  {
  }

  /** Euclidean division by seven is unique. */
  lemma RemainderSeven(k: int, q: int, r: int)
    requires 0 <= r < 7 && k == 7 * q + r
    ensures k % 7 == r && k / 7 == q
  {
  }

  /** `SundayOf` is a Sunday at most six days back, and a Sunday is its own. */
  lemma SundayOfCorrect(d: Date)
    requires Valid(d) && d.year >= 2
    ensures Weekday(SundayOf(d)) == 0
    ensures DayNumber(d) - 6 <= DayNumber(SundayOf(d)) <= DayNumber(d)
    ensures Weekday(d) == 0 <==> SundayOf(d) == d
  {
    var s := SundayOf(d);
    WeekdayShift(d, s, -Weekday(d));
    DayNumberOrder(s, d);
  }

  /** `MondayOf` is a Monday at most six days back; a Monday is its own and a
      Sunday goes back six days. */
  lemma MondayOfCorrect(d: Date)
    requires Valid(d) && d.year >= 2
    ensures Weekday(MondayOf(d)) == 1
    ensures DayNumber(d) - 6 <= DayNumber(MondayOf(d)) <= DayNumber(d)
    ensures Weekday(d) == 1 <==> MondayOf(d) == d
    ensures Weekday(d) == 0 ==> DayNumber(MondayOf(d)) == DayNumber(d) - 6
  {
    var m := MondayOf(d);
    WeekdayShift(d, m, -MondayOffset(d));
    DayNumberOrder(m, d);
  }

  // ---------------------------------------------------------------------------
  // Order.

  /** Calendar order: year, then month, then day. */
  predicate DateLess(a: Date, b: Date)
  {
    a.year < b.year
    || (a.year == b.year && a.month < b.month)
    || (a.year == b.year && a.month == b.month && a.day < b.day)
  }

  lemma {:induction false} DaysBeforeYearGrows(a: int, b: int)
    requires 1 <= a <= b
    ensures DaysBeforeYear(a) + (if a < b then DaysInYear(a) else 0) <= DaysBeforeYear(b)
    decreases b - a
  {
    if a < b - 1 {
      DaysBeforeYearGrows(a, b - 1);
    }
  }

  lemma {:induction false} DaysBeforeMonthGrows(y: int, a: int, b: int)
    requires 1 <= a <= b <= 13
    ensures DaysBeforeMonth(y, a) + (if a < b && a <= 12 then DaysInMonth(y, a) else 0) <= DaysBeforeMonth(y, b)
    decreases b - a
  {
    if a < b - 1 {
      DaysBeforeMonthGrows(y, a, b - 1);
    }
  }

  /** The day number is strictly increasing in calendar order. */
  lemma DayNumberMonotone(a: Date, b: Date)
    requires Valid(a) && Valid(b) && DateLess(a, b)
    ensures DayNumber(a) < DayNumber(b)
  {
    if a.year < b.year {
      DaysBeforeMonthGrows(a.year, a.month, 13);
      YearLength(a.year);
      DaysBeforeYearGrows(a.year, b.year);
    } else if a.month < b.month {
      DaysBeforeMonthGrows(a.year, a.month, b.month);
    }
  }

  /** Calendar order and day-number order agree, and equal day numbers mean
      the same date. */
  lemma DayNumberOrder(a: Date, b: Date)
    requires Valid(a) && Valid(b)
    ensures DateLess(a, b) <==> DayNumber(a) < DayNumber(b)
    ensures a == b <==> DayNumber(a) == DayNumber(b)
  {
    if DateLess(a, b) { DayNumberMonotone(a, b); }
    else if DateLess(b, a) { DayNumberMonotone(b, a); }
  }

  /** A date at most 365 days after a lies no later than a's next year. */
  lemma NearYear(a: Date, b: Date)
    requires Valid(a) && Valid(b) && DayNumber(b) <= DayNumber(a) + 365
    ensures b.year <= a.year + 1
  {
    var next, after := Date(a.year + 1, 1, 1), Date(a.year + 2, 1, 1);
    DayNumberOrder(a, next);
    assert DaysBeforeYear(a.year + 2) == DaysBeforeYear(a.year + 1) + DaysInYear(a.year + 1);
    DayNumberOrder(b, after);
  }

  // ---------------------------------------------------------------------------
  // Rendering.

  /** The ISO day `YYYY-MM-DD` that `toISOString().split('T')[0]` yields. */
  function IsoDay(d: Date): (s: string)
    requires Valid(d) && d.year <= 9999
    ensures |s| == 10 && s[4] == '-' && s[7] == '-'
  {
    Pad(d.year, 4) + ("-" + (Pad(d.month, 2) + ("-" + Pad(d.day, 2))))
  }

  /** ISO day strings compare exactly like the dates they show, which is what
      makes the front end's plain string comparisons of due dates sound. */
  lemma IsoDayOrder(a: Date, b: Date)
    requires Valid(a) && Valid(b) && a.year <= 9999 && b.year <= 9999
    ensures StrLess(IsoDay(a), IsoDay(b)) <==> DateLess(a, b)
    ensures IsoDay(a) == IsoDay(b) <==> a == b
  {
    var ym, yd := Pad(a.month, 2), Pad(a.day, 2);
    var zm, zd := Pad(b.month, 2), Pad(b.day, 2);
    PadOrder(a.year, b.year, 4);
    PadOrder(a.month, b.month, 2);
    PadOrder(a.day, b.day, 2);
    StrLessConcat(Pad(a.year, 4), Pad(b.year, 4), "-" + (ym + ("-" + yd)), "-" + (zm + ("-" + zd)));
    StrLessConcat("-", "-", ym + ("-" + yd), zm + ("-" + zd));
    StrLessConcat(ym, zm, "-" + yd, "-" + zd);
    StrLessConcat("-", "-", yd, zd);
    IsoDayInjective(a, b);
  }

  lemma IsoDayInjective(a: Date, b: Date)
    requires Valid(a) && Valid(b) && a.year <= 9999 && b.year <= 9999
    ensures IsoDay(a) == IsoDay(b) <==> a == b
  {
    if IsoDay(a) == IsoDay(b) {
      FieldsEqual(Pad(a.year, 4), Pad(a.month, 2), Pad(a.day, 2), Pad(b.year, 4), Pad(b.month, 2), Pad(b.day, 2));
      PadOrder(a.year, b.year, 4);
      PadOrder(a.month, b.month, 2);
      PadOrder(a.day, b.day, 2);
    }
  }

  /** Equal `YYYY-MM-DD` strings have equal fields. */
  lemma FieldsEqual(y: string, m: string, d: string, y': string, m': string, d': string)
    requires |y| == |y'| == 4 && |m| == |m'| == 2 && |d| == |d'| == 2
    requires y + ("-" + (m + ("-" + d))) == y' + ("-" + (m' + ("-" + d')))
    ensures y == y' && m == m' && d == d'
  {
    var s, t := y + ("-" + (m + ("-" + d))), y' + ("-" + (m' + ("-" + d')));
    assert s[..4] == y && t[..4] == y';
    assert s[5..7] == m && t[5..7] == m';
    assert s[8..] == d && t[8..] == d';
  }

  /** `${year}-${MM}-${DD}` built from `getFullYear()` and two zero-padded
      fields: the year itself is not padded. */
  function YmdString(d: Date): (s: string)
    requires Valid(d)
    ensures |s| >= 7
  {
    NatToString(d.year) + ("-" + (Pad(d.month, 2) + ("-" + Pad(d.day, 2))))
  }

  /** For four-digit years the hand-built string is exactly the ISO day. */
  lemma YmdIsIsoDay(d: Date)
    requires Valid(d) && 1000 <= d.year <= 9999
    ensures YmdString(d) == IsoDay(d)
  {
    NatToStringPadded(d.year, 4);
  }

  /** A four-digit year prints the same with or without zero padding. */
  lemma {:induction false} NatToStringPadded(n: nat, w: nat)
    requires w >= 1 && Pow10(w - 1) <= n < Pow10(w)
    ensures NatToString(n) == Pad(n, w)
    decreases w
  {
    if w > 1 {
      NatToStringPadded(n / 10, w - 1);
    }
  }

  // ---------------------------------------------------------------------------
  // Reading.

  /** Reads an ISO day `YYYY-MM-DD` back into a date from year 1 on;
      anything else (another shape, a day the month lacks) gives `None`. */
  function ParseIsoDay(s: string): (r: Option<Date>)
    ensures r.Some? ==> Valid(r.value) && r.value.year <= 9999
  {
    if |s| == 10 && s[4] == '-' && s[7] == '-' &&
      AllDigits(s[..4]) && AllDigits(s[5..7]) && AllDigits(s[8..])
    then
      var d := Date(DecimalValue(s[..4]), DecimalValue(s[5..7]), DecimalValue(s[8..]));
      if Valid(d) && d.year <= 9999 then Some(d) else None
    else None
  }

  /** Every ISO day reads back as the date it shows. */
  lemma ParseIsoDayRoundTrip(d: Date)
    requires Valid(d) && d.year <= 9999
    ensures ParseIsoDay(IsoDay(d)) == Some(d)
  {
    var s := IsoDay(d);
    assert s[..4] == Pad(d.year, 4);
    assert s[5..7] == Pad(d.month, 2);
    assert s[8..] == Pad(d.day, 2);
    PadRoundTrip(d.year, 4);
    PadRoundTrip(d.month, 2);
    PadRoundTrip(d.day, 2);
  }

  /** `new Date(s).toISOString().split('T')[0]` for the strings the task
      editors meet: an ISO day gives itself back, an ISO day followed by
      `T` and a time gives that day (a UTC clock is assumed). Whatever
      follows the `T` is not read, so an ISO day followed by `T` and text
      that is no time still gives that day, where `new Date` would give an
      invalid date. `None` is an invalid date, for which `toISOString`
      throws. */
  function DateStringDay(s: string): (r: Option<string>)
    ensures ParseIsoDay(s).Some? ==> r == Some(IsoDay(ParseIsoDay(s).value))
    ensures r.Some? ==> exists d :: Valid(d) && d.year <= 9999 && r.value == IsoDay(d)
  {
    if ParseIsoDay(s).Some? then Some(IsoDay(ParseIsoDay(s).value))
    else if |s| > 10 && s[10] == 'T' && ParseIsoDay(s[..10]).Some? then Some(IsoDay(ParseIsoDay(s[..10]).value))
    else None
  }

  /** An ISO day passes through unchanged. */
  lemma DateStringDayOfIsoDay(d: Date)
    requires Valid(d) && d.year <= 9999
    ensures DateStringDay(IsoDay(d)) == Some(IsoDay(d))
  {
    ParseIsoDayRoundTrip(d);
  }
}
