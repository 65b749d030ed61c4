/** The proleptic Gregorian calendar that Go's `time` package works with, in one fixed zone.
    Day 0 is Monday 1 January of year 1; minutes and instants count from its midnight. */
module Calendar {

  predicate IsLeap(y: nat) {
    y % 4 == 0 && (y % 100 != 0 || y % 400 == 0)
  }

  function YearDays(y: nat): nat {
    if IsLeap(y) then 366 else 365
  }

  function MonthDays(y: nat, m: nat): nat {
    if m == 2 then if IsLeap(y) then 29 else 28
    else if m in {4, 6, 9, 11} then 30
    else 31
  }

  function DaysBeforeYear(y: nat): nat
    requires y >= 1
  {
    if y == 1 then 0 else DaysBeforeYear(y - 1) + YearDays(y - 1)
  }

  function DaysBeforeMonth(y: nat, m: nat): nat
    requires m >= 1
    decreases m
  {
    if m == 1 then 0 else DaysBeforeMonth(y, m - 1) + MonthDays(y, m - 1)
  }

  datatype Date = Date(year: nat, month: nat, day: nat)

  predicate IsDate(d: Date) {
    d.year >= 1 && 1 <= d.month <= 12 && 1 <= d.day <= MonthDays(d.year, d.month)
  }

  /** The day number of a date; a day past the end of its month runs on into the next. */
  function DayNumber(d: Date): nat
    requires d.year >= 1 && d.month >= 1 && d.day >= 1
  {
    DaysBeforeYear(d.year) + DaysBeforeMonth(d.year, d.month) + d.day - 1
  }

  lemma MonthsFillYear(y: nat)
    ensures DaysBeforeMonth(y, 12) + MonthDays(y, 12) == YearDays(y)
  {
    assert DaysBeforeMonth(y, 4) == 31 + MonthDays(y, 2) + 31;
    assert DaysBeforeMonth(y, 8) == DaysBeforeMonth(y, 4) + 30 + 31 + 30 + 31;
    assert DaysBeforeMonth(y, 12) == DaysBeforeMonth(y, 8) + 31 + 30 + 31 + 30;
  }

  function YearFrom(day: nat, y: nat): (r: nat)
    requires y >= 1 && DaysBeforeYear(y) <= day
    ensures r >= y && DaysBeforeYear(r) <= day < DaysBeforeYear(r) + YearDays(r)
    decreases day - DaysBeforeYear(y)
  {
    if day < DaysBeforeYear(y) + YearDays(y) then y else YearFrom(day, y + 1)
  }

  function MonthFrom(y: nat, offset: nat, m: nat): (r: nat)
    requires 1 <= m <= 12 && DaysBeforeMonth(y, m) <= offset < YearDays(y)
    ensures m <= r <= 12 && DaysBeforeMonth(y, r) <= offset < DaysBeforeMonth(y, r) + MonthDays(y, r)
    decreases 12 - m
  {
    MonthsFillYear(y);
    if offset < DaysBeforeMonth(y, m) + MonthDays(y, m) then m else MonthFrom(y, offset, m + 1)
  }

  /** The date of a day number. */
  function DateOf(day: nat): (d: Date)
    ensures IsDate(d) && DayNumber(d) == day
  {
    var y := YearFrom(day, 1);
    var offset := day - DaysBeforeYear(y);
    var m := MonthFrom(y, offset, 1);
    Date(y, m, offset - DaysBeforeMonth(y, m) + 1)
  }

  lemma {:induction false} YearsInOrder(y: nat, z: nat)
    requires 1 <= y < z
    ensures DaysBeforeYear(y) + YearDays(y) <= DaysBeforeYear(z)
    decreases z
  {
    if y < z - 1 {
      YearsInOrder(y, z - 1);
    }
  }

  lemma {:induction false} MonthsInOrder(y: nat, m: nat, n: nat)
    requires 1 <= m < n
    ensures DaysBeforeMonth(y, m) + MonthDays(y, m) <= DaysBeforeMonth(y, n)
    decreases n
  {
    if m < n - 1 {
      MonthsInOrder(y, m, n - 1);
    }
  }

  lemma DayInYear(d: Date)
    requires IsDate(d)
    ensures DaysBeforeYear(d.year) <= DayNumber(d) < DaysBeforeYear(d.year) + YearDays(d.year)
  {
    MonthsFillYear(d.year);
    if d.month < 12 {
      MonthsInOrder(d.year, d.month, 12);
    }
  }

  /** Dates and day numbers correspond one to one. */
  lemma DateRoundTrip(d: Date)
    requires IsDate(d)
    ensures DateOf(DayNumber(d)) == d
  {
    var e := DateOf(DayNumber(d));
    DayInYear(d);
    DayInYear(e);
    if d.year < e.year {
      YearsInOrder(d.year, e.year);
    } else if e.year < d.year {
      YearsInOrder(e.year, d.year);
    }
    if d.month < e.month {
      MonthsInOrder(d.year, d.month, e.month);
    } else if e.month < d.month {
      MonthsInOrder(d.year, e.month, d.month);
    }
  }

  // ---------------------------------------------------------------- minutes

  function DayOf(minute: nat): nat { minute / 1440 }

  function MinuteOfHour(minute: nat): nat { minute % 60 }

  function HourOfDay(minute: nat): nat { minute % 1440 / 60 }

  /** Sunday is 0; day 0 was a Monday. */
  function Weekday(minute: nat): nat { (DayOf(minute) + 1) % 7 }

  function YearsLater(d: Date, years: nat): (day: nat)
    requires IsDate(d)
  {
    DayNumber(d.(year := d.year + years))
  }

  /** `AddDate(years, 0, 0)`: 29 February runs on to 1 March in a common year. */
  function AddYears(minute: nat, years: nat): nat {
    YearsLater(DateOf(DayOf(minute)), years) * 1440 + minute % 1440
  }

  lemma YearsLaterIsLater(d: Date, years: nat)
    requires IsDate(d) && years > 0
    ensures YearsLater(d, years) >= DayNumber(d) + 364
  {
    YearsInOrder(d.year, d.year + years);
    MonthOffsets(d.year, d.year + years, d.month);
  }

  lemma AddYearsIsLater(minute: nat, years: nat)
    requires years > 0
    ensures AddYears(minute, years) > minute
  {
    YearsLaterIsLater(DateOf(DayOf(minute)), years);
  }

  lemma {:induction false} MonthOffsets(y: nat, z: nat, m: nat)
    requires m >= 1
    ensures -1 <= DaysBeforeMonth(z, m) - DaysBeforeMonth(y, m) <= 1
    ensures m <= 2 ==> DaysBeforeMonth(z, m) == DaysBeforeMonth(y, m)
    decreases m
  {
    if m > 1 {
      MonthOffsets(y, z, m - 1);
    }
    if m > 3 {
      MonthOffsetsConstant(y, z, m);
    }
  }

  lemma {:induction false} MonthOffsetsConstant(y: nat, z: nat, m: nat)
    requires m >= 3
    ensures DaysBeforeMonth(z, m) - DaysBeforeMonth(y, m) == MonthDays(z, 2) - MonthDays(y, 2)
    decreases m
  {
    if m > 3 {
      MonthOffsetsConstant(y, z, m - 1);
    } else {
      assert DaysBeforeMonth(z, 2) == DaysBeforeMonth(y, 2) == 31;
    }
  }

  // ---------------------------------------------------------------- anchored dates

  lemma DivStep(n: nat, d: nat)
    requires d > 0
    ensures (n + 1) / d == n / d + if (n + 1) % d == 0 then 1 else 0
  {
    var q, r := n / d, n % d;
    assert n == d * q + r;
    if r == d - 1 {
      QuotientIs(n + 1, d, q + 1, 0);
    } else {
      QuotientIs(n + 1, d, q, r + 1);
    }
  }

  lemma QuotientIs(n: nat, d: nat, q: nat, r: nat)
    requires d > 0 && n == d * q + r && r < d
    ensures n / d == q && n % d == r
  {
    var k := n / d - q;
    assert d * k == r - n % d;
  }

  /** Every fourth year is a leap year, except that only every fourth century is. */
  lemma {:induction false} YearsInDays(y: nat)
    requires y >= 1
    ensures DaysBeforeYear(y) == 365 * (y - 1) + (y - 1) / 4 - (y - 1) / 100 + (y - 1) / 400
    decreases y
  {
    if y > 1 {
      YearsInDays(y - 1);
      NextYearsLeapDays(y - 2);
    }
  }

  lemma NextYearsLeapDays(n: nat)
    ensures (n + 1) / 4 - (n + 1) / 100 + (n + 1) / 400 == n / 4 - n / 100 + n / 400 + if IsLeap(n + 1) then 1 else 0
  {
    DivStep(n, 4);
    DivStep(n, 100);
    DivStep(n, 400);
    LeapDays(n + 1);
  }

  lemma LeapDays(y: nat)
    ensures (if y % 4 == 0 then 1 else 0) - (if y % 100 == 0 then 1 else 0) + (if y % 400 == 0 then 1 else 0) ==
            if IsLeap(y) then 1 else 0
  {
    assert y % 100 == 0 ==> y % 4 == 0;
    assert y % 400 == 0 ==> y % 100 == 0;
  }

  /** Weekdays follow each other, and Thursday 1 January 1970 is one of them: day of week 4. */
  lemma WeekdaysAreAnchored(minute: nat)
    ensures Weekday(DayNumber(Date(1970, 1, 1)) * 1440) == 4
    ensures Weekday(minute + 1440) == (Weekday(minute) + 1) % 7
    ensures Weekday(minute) == Weekday(DayOf(minute) * 1440)
  {
    YearsInDays(1970);
    assert DayNumber(Date(1970, 1, 1)) == 719162;
    assert DayOf(719162 * 1440) == 719162;
    assert DayOf(minute + 1440) == DayOf(minute) + 1;
    assert DayOf(DayOf(minute) * 1440) == DayOf(minute);
  }

  /** The same date so many years on, unless it is a 29 February that the later year lacks. */
  lemma YearsLaterIs(minute: nat, years: nat)
    requires var d := DateOf(DayOf(minute)); IsDate(d.(year := d.year + years))
    ensures var d := DateOf(DayOf(minute));
            && DateOf(DayOf(AddYears(minute, years))) == d.(year := d.year + years)
            && AddYears(minute, years) % 1440 == minute % 1440
  {
    YearsLaterIsDate(DateOf(DayOf(minute)), years, minute % 1440);
  }

  lemma YearsLaterIsDate(d: Date, years: nat, m: nat)
    requires IsDate(d) && IsDate(d.(year := d.year + years)) && m < 1440
    ensures var minute := YearsLater(d, years) * 1440 + m;
            DateOf(DayOf(minute)) == d.(year := d.year + years) && minute % 1440 == m
  {
    DayAndMinute(YearsLater(d, years), m);
    DateOfDay(d.(year := d.year + years), YearsLater(d, years));
  }

  lemma DateOfDay(d: Date, day: nat)
    requires IsDate(d) && day == DayNumber(d)
    ensures DateOf(day) == d
  {
    DateRoundTrip(d);
  }

  lemma DayAndMinute(day: nat, m: nat)
    requires m < 1440
    ensures DayOf(day * 1440 + m) == day && (day * 1440 + m) % 1440 == m
  {
  }
}
