/** The proleptic Gregorian calendar as JavaScript's `Date` sees it: the weekday
    of `new Date(y, m - 1, d)`, and the names `getDayInText` and
    `getMonthInText` give to weekday and month indexes. */
module Calendar {
  import opened Wrappers

  predicate IsLeapYear(y: int)
  {
    y % 4 == 0 && (y % 100 != 0 || y % 400 == 0)
  }

  function DaysInMonth(y: int, m: int): (n: nat)
    requires 1 <= m <= 12
    ensures 28 <= n <= 31
  {
    if m == 2 then (if IsLeapYear(y) then 29 else 28)
    else if m == 4 || m == 6 || m == 9 || m == 11 then 30
    else 31
  }

  /** Days in the months of year y that come before month m. */
  function DaysBeforeMonth(y: int, m: int): nat
    requires 1 <= m <= 12
  {
    if m == 1 then 0 else DaysBeforeMonth(y, m - 1) + DaysInMonth(y, m - 1)
  }

  /** Days from 1 January of year 1 to 1 January of year y (negative before year 1). */
  function DaysBeforeYear(y: int): int
  {
    var p := y - 1;
    365 * p + p / 4 - p / 100 + p / 400
  }

  /** The serial number of a day, 1 January of year 1 being day 1. As in
      JavaScript's `Date`, a month outside 1..12 rolls into a neighbouring year
      and a day outside its month rolls into a neighbouring month. */
  function DayNumber(y: int, m: int, d: int): int
  {
    var y' := y + (m - 1) / 12;
    var m' := (m - 1) % 12 + 1;
    DaysBeforeYear(y') + DaysBeforeMonth(y', m') + d
  }

  /** The weekday of a day, 0 being Sunday, as `Date.prototype.getDay` numbers
      them (1 January of year 1 was a Monday). */
  function Weekday(y: int, m: int, d: int): (w: nat)
    ensures w < 7
  {
    DayNumber(y, m, d) % 7
  }

  /** `new Date(y, m0, d).getDay()`: the month counts from 0, and a year from 0
      to 99 is read as 1900 to 1999. */
  function DateWeekday(y: int, m0: int, d: int): (w: nat)
    ensures w < 7
  {
    Weekday(if 0 <= y <= 99 then 1900 + y else y, m0 + 1, d)
  }

  predicate ValidDate(y: int, m: int, d: int)
  {
    1 <= m <= 12 && 1 <= d <= DaysInMonth(y, m)
  }

  /** The calendar day after a valid date. */
  function NextDate(y: int, m: int, d: int): (r: (int, int, int))
    requires ValidDate(y, m, d)
    ensures ValidDate(r.0, r.1, r.2)
  {
    if d < DaysInMonth(y, m) then (y, m, d + 1)
    else if m < 12 then (y, m + 1, 1)
    else (y + 1, 1, 1)
  }

  /** A year has 366 days when it is a leap year and 365 otherwise. */
  lemma YearLength(y: int)
    ensures DaysBeforeYear(y + 1) - DaysBeforeYear(y) == if IsLeapYear(y) then 366 else 365
  {
    assert y / 4 - (y - 1) / 4 == if y % 4 == 0 then 1 else 0;
    assert y / 100 - (y - 1) / 100 == if y % 100 == 0 then 1 else 0;
    assert y / 400 - (y - 1) / 400 == if y % 400 == 0 then 1 else 0;
    if y % 400 == 0 {
      assert y % 100 == 0 && y % 4 == 0;
    } else if y % 100 == 0 {
      assert y % 4 == 0;
    }
  }

  /** January to November hold 334 days, or 335 in a leap year. */
  lemma DaysBeforeDecember(y: int)
    ensures DaysBeforeMonth(y, 12) == if IsLeapYear(y) then 335 else 334
  {
    assert DaysBeforeMonth(y, 2) == 31;
    assert DaysBeforeMonth(y, 3) == DaysBeforeMonth(y, 2) + DaysInMonth(y, 2);
    assert DaysBeforeMonth(y, 4) == DaysBeforeMonth(y, 3) + 31;
    assert DaysBeforeMonth(y, 5) == DaysBeforeMonth(y, 4) + 30;
    assert DaysBeforeMonth(y, 6) == DaysBeforeMonth(y, 5) + 31;
    assert DaysBeforeMonth(y, 7) == DaysBeforeMonth(y, 6) + 30;
    assert DaysBeforeMonth(y, 8) == DaysBeforeMonth(y, 7) + 31;
    assert DaysBeforeMonth(y, 9) == DaysBeforeMonth(y, 8) + 31;
    assert DaysBeforeMonth(y, 10) == DaysBeforeMonth(y, 9) + 30;
    assert DaysBeforeMonth(y, 11) == DaysBeforeMonth(y, 10) + 31;
    assert DaysBeforeMonth(y, 12) == DaysBeforeMonth(y, 11) + 30;
  }

  /** Consecutive calendar days have consecutive day numbers. */
  lemma NextDateIsNextDay(y: int, m: int, d: int)
    requires ValidDate(y, m, d)
    ensures DayNumber(NextDate(y, m, d).0, NextDate(y, m, d).1, NextDate(y, m, d).2) == DayNumber(y, m, d) + 1
  {
    if d < DaysInMonth(y, m) {
      NextDayInMonth(y, m, d);
    } else if m < 12 {
      NextDayNextMonth(y, m);
    } else {
      NextDayNextYear(y);
    }
  }

  lemma NextDayInMonth(y: int, m: int, d: int)
    requires 1 <= m <= 12
    ensures DayNumber(y, m, d + 1) == DayNumber(y, m, d) + 1
  {
    DayNumberInYear(y, m, d);
    DayNumberInYear(y, m, d + 1);
  }

  lemma NextDayNextMonth(y: int, m: int)
    requires 1 <= m < 12
    ensures DayNumber(y, m + 1, 1) == DayNumber(y, m, DaysInMonth(y, m)) + 1
  {
    DayNumberInYear(y, m, DaysInMonth(y, m));
    DayNumberInYear(y, m + 1, 1);
  }

  lemma NextDayNextYear(y: int)
    ensures DayNumber(y + 1, 1, 1) == DayNumber(y, 12, 31) + 1
  {
    DayNumberInYear(y, 12, 31);
    DayNumberInYear(y + 1, 1, 1);
    YearLength(y);
    DaysBeforeDecember(y);
  }

  /** A month in 1..12 does not roll into another year. */
  lemma DayNumberInYear(y: int, m: int, d: int)
    requires 1 <= m <= 12
    ensures DayNumber(y, m, d) == DaysBeforeYear(y) + DaysBeforeMonth(y, m) + d
  {
    assert (m - 1) / 12 == 0 && (m - 1) % 12 + 1 == m;
  }

  lemma ModSuccessor(n: int)
    ensures (n + 1) % 7 == (n % 7 + 1) % 7
  {
  }

  /** The weekday of the next calendar day is the next weekday. */
  lemma NextDateWeekday(y: int, m: int, d: int)
    requires ValidDate(y, m, d)
    ensures Weekday(NextDate(y, m, d).0, NextDate(y, m, d).1, NextDate(y, m, d).2) == (Weekday(y, m, d) + 1) % 7
  {
    var r := NextDate(y, m, d);
    NextDateIsNextDay(y, m, d);
    var n := DayNumber(y, m, d);
    assert DayNumber(r.0, r.1, r.2) == n + 1;
    ModSuccessor(n);
  }

  /** 23 August 2016 was a Tuesday. */
  lemma Weekday20160823()
    ensures DateWeekday(2016, 7, 23) == 2
  {
    assert DaysBeforeYear(2016) == 735963;
    assert DaysBeforeMonth(2016, 8) == 213;
    assert DayNumber(2016, 8, 23) == 736199;
  }

  const DaysOfWeek: seq<string> := ["Sunday", "Monday", "Tuesday", "Wednesday", "Thursday", "Friday", "Saturday"]

  const MonthsOfYear: seq<string> :=
    ["January", "February", "March", "April", "May", "June", "July", "August",
     "September", "October", "November", "December"]

  /** `getDayInText(num)`: the weekday's name, undefined outside 0..6. */
  function DayInText(num: int): (r: Option<string>)
    ensures r.Some? <==> 0 <= num < 7
  {
    if 0 <= num < |DaysOfWeek| then Some(DaysOfWeek[num]) else None
  }

  /** `getMonthInText(num)`: the month's name, undefined outside 0..11. */
  function MonthInText(num: int): (r: Option<string>)
    ensures r.Some? <==> 0 <= num < 12
  {
    if 0 <= num < |MonthsOfYear| then Some(MonthsOfYear[num]) else None
  }

  /** Distinct weekday indexes have distinct names. */
  lemma DayInTextInjective(i: int, j: int)
    requires 0 <= i < 7 && 0 <= j < 7 && DayInText(i) == DayInText(j)
    ensures i == j
  {
  }
}
