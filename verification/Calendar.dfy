// Calendar dates and their day numbers, counted from January 1 of year 1.
module Calendar {

  datatype DateParts = DateParts(year: nat, month: nat, day: nat)

  type Date = d: DateParts | 1 <= d.year <= 9999 && 1 <= d.month <= 12 && 1 <= d.day <= DaysIn(d.year, d.month)
    witness DateParts(1, 1, 1)

  predicate IsLeap(year: nat) {
    year % 4 == 0 && (year % 100 != 0 || year % 400 == 0)
  }

  function DaysIn(year: nat, month: nat): (n: nat)
    ensures 28 <= n <= 31
  {
    if month == 2 then (if IsLeap(year) then 29 else 28)
    else if month == 4 || month == 6 || month == 9 || month == 11 then 30 else 31
  }

  function DaysBeforeYear(year: nat): int
    requires year >= 1
  {
    var y := year - 1;
    365 * y + y / 4 - y / 100 + y / 400
  }

  function DaysBeforeMonth(year: nat, month: nat): nat
    requires 1 <= month <= 12
  {
    [0, 31, 59, 90, 120, 151, 181, 212, 243, 273, 304, 334][month - 1] + if month > 2 && IsLeap(year) then 1 else 0
  }

  function Ordinal(d: Date): int {
    DaysBeforeYear(d.year) + DaysBeforeMonth(d.year, d.month) + d.day
  }

  predicate Before(d: Date, e: Date) {
    d.year < e.year || (d.year == e.year && (d.month < e.month || (d.month == e.month && d.day < e.day)))
  }

  lemma YearLength(year: nat)
    requires year >= 1
    ensures DaysBeforeYear(year + 1) == DaysBeforeYear(year) + 365 + if IsLeap(year) then 1 else 0
  {
    Quotients(year);
    Multiples(year);
  }

  lemma Multiples(year: nat)
    ensures year % 400 == 0 ==> year % 100 == 0
    ensures year % 100 == 0 ==> year % 4 == 0
  {
    if year % 400 == 0 {
      var q := year / 400;
      assert year == 100 * (4 * q);
    }
    if year % 100 == 0 {
      var q := year / 100;
      assert year == 4 * (25 * q);
    }
  }

  lemma Quotients(year: nat)
    requires year >= 1
    ensures year / 4 == (year - 1) / 4 + if year % 4 == 0 then 1 else 0
    ensures year / 100 == (year - 1) / 100 + if year % 100 == 0 then 1 else 0
    ensures year / 400 == (year - 1) / 400 + if year % 400 == 0 then 1 else 0
  {}

  lemma {:induction false} YearsGrow(year: nat, later: nat)
    requires 1 <= year < later
    ensures DaysBeforeYear(later) >= DaysBeforeYear(year) + 365 + if IsLeap(year) then 1 else 0
    decreases later
  {
    YearLength(later - 1);
    if year < later - 1 {
      YearsGrow(year, later - 1);
    }
  }

  lemma MonthsGrow(year: nat, month: nat, later: nat)
    requires 1 <= month <= later <= 12
    ensures month < later ==> DaysBeforeMonth(year, later) >= DaysBeforeMonth(year, month) + DaysIn(year, month)
    ensures DaysBeforeMonth(year, month) + DaysIn(year, month) <= 365 + if IsLeap(year) then 1 else 0
  {}

  lemma EarlierIsSmaller(d: Date, e: Date)
    requires Before(d, e)
    ensures Ordinal(d) < Ordinal(e)
  {
    if d.year < e.year {
      YearsGrow(d.year, e.year);
      MonthsGrow(d.year, d.month, d.month);
    } else if d.month < e.month {
      MonthsGrow(d.year, d.month, e.month);
    }
  }

  // Day numbers order dates as the calendar does, and tell any two apart.
  lemma OrdinalOrders(d: Date, e: Date)
    ensures Ordinal(d) < Ordinal(e) <==> Before(d, e)
    ensures Ordinal(d) == Ordinal(e) <==> d == e
  {
    if Before(d, e) {
      EarlierIsSmaller(d, e);
    } else if Before(e, d) {
      EarlierIsSmaller(e, d);
    }
  }

  // The day after, as the calendar has it.
  function NextDay(d: Date): (e: Date)
    requires d != DateParts(9999, 12, 31)
    ensures Before(d, e)
  {
    if d.day < DaysIn(d.year, d.month) then DateParts(d.year, d.month, d.day + 1)
    else if d.month < 12 then DateParts(d.year, d.month + 1, 1)
    else DateParts(d.year + 1, 1, 1)
  }

  lemma MonthLength(year: nat, month: nat)
    requires 1 <= month <= 12
    ensures month < 12 ==> DaysBeforeMonth(year, month + 1) == DaysBeforeMonth(year, month) + DaysIn(year, month)
    ensures month == 12 ==> DaysBeforeMonth(year, month) + DaysIn(year, month) == 365 + if IsLeap(year) then 1 else 0
  {}

  // Day numbers count days without gaps.
  lemma OrdinalCounts(d: Date)
    requires d != DateParts(9999, 12, 31)
    ensures Ordinal(NextDay(d)) == Ordinal(d) + 1
  {
    YearLength(d.year);
    MonthLength(d.year, d.month);
  }

  // The first day of the calendar, the day from which the clock counts, and a known Sunday.
  lemma KnownDays(d: Date)
    ensures d.year == 1 && d.month == 1 && d.day == 1 ==> Ordinal(d) == 1
    ensures d.year == 1970 && d.month == 1 && d.day == 1 ==> Ordinal(d) == 719_163
    ensures d.year == 2024 && d.month == 1 && d.day == 7 ==> Ordinal(d) == 738_892
  {}
}
