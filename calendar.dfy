/**
 * The calendar arithmetic behind `datetime.strptime(s, '%Y-%m-%d')`,
 * `date.weekday()` and the day count of a `timedelta`: the proleptic
 * Gregorian calendar with day 1 = 0001-01-01, as Python's `datetime`
 * module numbers days (`toordinal`).
 */
module Calendar {

  /** A calendar date taken apart into numbers; it may be invalid. */
  datatype Date = Date(year: int, month: int, day: int)

  predicate IsLeap(year: int) {
    year % 4 == 0 && (year % 100 != 0 || year % 400 == 0)
  }

  function DaysInMonth(year: int, month: int): (n: nat)
    requires 1 <= month <= 12
    ensures 28 <= n <= 31
  {
    if month == 2 then (if IsLeap(year) then 29 else 28)
    else if month == 4 || month == 6 || month == 9 || month == 11 then 30
    else 31
  }

  /** What `strptime` accepts: year 1 to 9999 and a day that exists in its month. */
  predicate IsValid(d: Date) {
    1 <= d.year <= 9999 && 1 <= d.month <= 12 && 1 <= d.day <= DaysInMonth(d.year, d.month)
  }

  /** Days of the year `year` before the first of `month`. */
  function DaysBeforeMonth(year: int, month: int): (n: nat)
    requires 1 <= month <= 12
    ensures month > 1 ==> n == DaysBeforeMonth(year, month - 1) + DaysInMonth(year, month - 1)
  {
    if month == 1 then 0 else DaysBeforeMonth(year, month - 1) + DaysInMonth(year, month - 1)
  }

  /** Days before 1 January of `year`, counted from 0001-01-01. */
  function DaysBeforeYear(year: int): (n: int)
    requires year >= 1
    ensures n >= 0
  {
    var y := year - 1;
    y * 365 + y / 4 - y / 100 + y / 400
  }

  /** `date.toordinal()`. */
  function Ordinal(d: Date): (n: int)
    requires IsValid(d)
    ensures n >= 1
  {
    DaysBeforeYear(d.year) + DaysBeforeMonth(d.year, d.month) + d.day
  }

  /** `date.weekday()`: Monday is 0 and Sunday is 6. */
  function Weekday(d: Date): (w: nat)
    requires IsValid(d)
    ensures w < 7
  {
    (Ordinal(d) + 6) % 7
  }

  /** Within a month, the next day has the next ordinal and the next weekday. */
  lemma NextDayInMonth(d: Date)
    requires IsValid(d) && d.day < DaysInMonth(d.year, d.month)
    ensures IsValid(Date(d.year, d.month, d.day + 1))
    ensures Ordinal(Date(d.year, d.month, d.day + 1)) == Ordinal(d) + 1
    ensures Weekday(Date(d.year, d.month, d.day + 1)) == (Weekday(d) + 1) % 7
  {
    var next := Date(d.year, d.month, d.day + 1);
    assert Ordinal(next) == Ordinal(d) + 1;
    WeekdayStep(Ordinal(d) + 6);
  }

  lemma WeekdayStep(a: int)
    ensures (a + 1) % 7 == (a % 7 + 1) % 7
  {
    var q, r := a / 7, a % 7;
    assert a == q * 7 + r;
    if r < 6 {
      assert a + 1 == q * 7 + (r + 1);
    } else {
      assert a + 1 == (q + 1) * 7;
    }
  }

  /** Across a month boundary the ordinal also advances by one. */
  lemma NextDayAcrossMonth(d: Date)
    requires IsValid(d) && d.month < 12 && d.day == DaysInMonth(d.year, d.month)
    ensures IsValid(Date(d.year, d.month + 1, 1))
    ensures Ordinal(Date(d.year, d.month + 1, 1)) == Ordinal(d) + 1
  {
  }

  /** Across a year boundary the ordinal also advances by one. */
  lemma {:induction false} NextDayAcrossYear(year: int)
    requires 1 <= year < 9999
    ensures Ordinal(Date(year + 1, 1, 1)) == Ordinal(Date(year, 12, 31)) + 1
  {
    DaysInYear(year);
  }

  lemma {:induction false} DaysInYear(year: int)
    requires year >= 1
    ensures DaysBeforeMonth(year, 12) + 31 == (if IsLeap(year) then 366 else 365)
    ensures DaysBeforeYear(year + 1) == DaysBeforeYear(year) + (if IsLeap(year) then 366 else 365)
  {
    var feb := DaysInMonth(year, 2);
    assert DaysBeforeMonth(year, 3) == 31 + feb;
    assert DaysBeforeMonth(year, 5) == 92 + feb;
    assert DaysBeforeMonth(year, 7) == 153 + feb;
    assert DaysBeforeMonth(year, 9) == 215 + feb;
    assert DaysBeforeMonth(year, 11) == 276 + feb;
    assert DaysBeforeMonth(year, 12) == 306 + feb;
    YearStep(year);
  }

  /** One year more before 1 January adds that year's length. */
  lemma YearStep(year: int)
    requires year >= 1
    ensures DaysBeforeYear(year + 1) == DaysBeforeYear(year) + (if IsLeap(year) then 366 else 365)
  {
    var y := year - 1;
    assert year / 4 == y / 4 + (if year % 4 == 0 then 1 else 0) by {
      var q, r := y / 4, y % 4;
      assert y == 4 * q + r;
      if r == 3 { assert year == 4 * (q + 1); } else { assert year == 4 * q + (r + 1); }
    }
    assert year / 100 == y / 100 + (if year % 100 == 0 then 1 else 0) by {
      var q, r := y / 100, y % 100;
      assert y == 100 * q + r;
      if r == 99 { assert year == 100 * (q + 1); } else { assert year == 100 * q + (r + 1); }
    }
    assert year / 400 == y / 400 + (if year % 400 == 0 then 1 else 0) by {
      var q, r := y / 400, y % 400;
      assert y == 400 * q + r;
      if r == 399 { assert year == 400 * (q + 1); } else { assert year == 400 * q + (r + 1); }
    }
    if year % 400 == 0 { CenturyOfFourHundred(year); }
    if year % 100 == 0 { LeapOfCentury(year); }
    assert DaysBeforeYear(year + 1) - DaysBeforeYear(year)
        == 365 + (year / 4 - y / 4) - (year / 100 - y / 100) + (year / 400 - y / 400);
  }

  lemma CenturyOfFourHundred(year: int)
    requires year % 400 == 0
    ensures year % 100 == 0
  {
    var k := year / 400;
    assert year == 100 * (4 * k);
  }

  lemma LeapOfCentury(year: int)
    requires year % 100 == 0
    ensures year % 4 == 0
  {
    var k := year / 100;
    assert year == 4 * (25 * k);
  }

  /** 2024-01-15 was a Monday. */
  lemma Monday2024January15()
    ensures IsValid(Date(2024, 1, 15))
    ensures Ordinal(Date(2024, 1, 15)) == 738900
    ensures Weekday(Date(2024, 1, 15)) == 0
  {
  }

  lemma Saturday2024January13()
    ensures IsValid(Date(2024, 1, 13))
    ensures Weekday(Date(2024, 1, 13)) == 5
  {
    Monday2024January15();
  }
}
