/** Dates of the proleptic Gregorian calendar, day numbers and month addition with clamping. */
module Calendar {
  datatype RawDate = Date(year: int, month: int, day: int)

  predicate Leap(year: int) {
    year % 4 == 0 && (year % 100 != 0 || year % 400 == 0)
  }

  function DaysIn(year: int, month: int): (n: int)
    ensures 28 <= n <= 31
  {
    if month == 2 then if Leap(year) then 29 else 28
    else if month in {4, 6, 9, 11} then 30
    else 31
  }

  type Date = d: RawDate | d.year >= 1 && 1 <= d.month <= 12 && 1 <= d.day <= DaysIn(d.year, d.month)
    witness Date(1, 1, 1)

  // Months since the start of year 1.
  function MonthIndex(d: Date): nat {
    12 * (d.year - 1) + d.month - 1
  }

  function Length(month: nat): int {
    DaysIn(month / 12 + 1, month % 12 + 1)
  }

  function DaysBefore(month: nat): nat {
    if month == 0 then 0 else DaysBefore(month - 1) + Length(month - 1)
  }

  // Day number; day 1 is the first of January of year 1.
  function Ordinal(d: Date): int {
    DaysBefore(MonthIndex(d)) + d.day
  }

  // The same day one month later, or the last day of that month.
  function AddMonth(d: Date): Date {
    var year := if d.month == 12 then d.year + 1 else d.year;
    var month := if d.month == 12 then 1 else d.month + 1;
    Date(year, month, if d.day <= DaysIn(year, month) then d.day else DaysIn(year, month))
  }

  function AddMonths(d: Date, n: nat): Date {
    if n == 0 then d else AddMonth(AddMonths(d, n - 1))
  }

  lemma LengthOfMonth(d: Date)
    ensures Length(MonthIndex(d)) == DaysIn(d.year, d.month)
  {
    assert MonthIndex(d) / 12 == d.year - 1 && MonthIndex(d) % 12 == d.month - 1;
  }

  lemma {:induction false} DaysBeforeGrows(m: nat, n: nat)
    requires m < n
    ensures DaysBefore(m) + Length(m) <= DaysBefore(n)
  {
    if n == m + 1 {
    } else {
      DaysBeforeGrows(m, n - 1);
    }
  }

  // Day numbers order dates as the calendar does.
  lemma OrdinalOrder(a: Date, b: Date)
    ensures Ordinal(a) <= Ordinal(b) <==>
            (a.year < b.year || (a.year == b.year && (a.month < b.month || (a.month == b.month && a.day <= b.day))))
  {
    LengthOfMonth(a);
    LengthOfMonth(b);
    if MonthIndex(a) < MonthIndex(b) {
      DaysBeforeGrows(MonthIndex(a), MonthIndex(b));
    } else if MonthIndex(b) < MonthIndex(a) {
      DaysBeforeGrows(MonthIndex(b), MonthIndex(a));
    }
  }

  function NextDay(d: Date): Date {
    if d.day < DaysIn(d.year, d.month) then Date(d.year, d.month, d.day + 1)
    else if d.month == 12 then Date(d.year + 1, 1, 1)
    else Date(d.year, d.month + 1, 1)
  }

  lemma LastDayNext(d: Date)
    requires d.day == DaysIn(d.year, d.month)
    ensures MonthIndex(NextDay(d)) == MonthIndex(d) + 1 && NextDay(d).day == 1
  {
  }

  lemma NextDayOrdinal(d: Date)
    ensures Ordinal(NextDay(d)) == Ordinal(d) + 1
  {
    if d.day == DaysIn(d.year, d.month) {
      LengthOfMonth(d);
      LastDayNext(d);
    }
  }

  function DateOf(n: int): Date
    requires n >= 1
  {
    if n == 1 then Date(1, 1, 1) else NextDay(DateOf(n - 1))
  }

  // Every day number from 1 on is the number of exactly one date.
  lemma {:induction false} OrdinalOfDate(n: int)
    requires n >= 1
    ensures Ordinal(DateOf(n)) == n
  {
    if n == 1 {
    } else {
      OrdinalOfDate(n - 1);
      NextDayOrdinal(DateOf(n - 1));
    }
  }

  lemma AddMonthAdvances(d: Date)
    ensures MonthIndex(AddMonth(d)) == MonthIndex(d) + 1
    ensures AddMonth(d).day == if d.day <= Length(MonthIndex(d) + 1) then d.day else Length(MonthIndex(d) + 1)
  {
    LengthOfMonth(AddMonth(d));
  }

  // One month later is 28 to 31 days later.
  lemma MonthGap(d: Date)
    ensures 28 <= Ordinal(AddMonth(d)) - Ordinal(d) <= 31
  {
    AddMonthAdvances(d);
    LengthOfMonth(d);
  }

  // After n additions the date lies n months on, at the smallest of the starting day
  // and the lengths of the months passed.
  lemma {:induction false} AddMonthsClosed(d: Date, n: nat)
    ensures MonthIndex(AddMonths(d, n)) == MonthIndex(d) + n
    ensures AddMonths(d, n).day <= d.day
    ensures forall m :: MonthIndex(d) < m <= MonthIndex(d) + n ==> AddMonths(d, n).day <= Length(m)
    ensures AddMonths(d, n).day == d.day
            || exists m :: MonthIndex(d) < m <= MonthIndex(d) + n && AddMonths(d, n).day == Length(m)
  {
    if n == 0 {
    } else {
      AddMonthsClosed(d, n - 1);
      AddMonthAdvances(AddMonths(d, n - 1));
    }
  }

  lemma {:induction false} AddMonthsAdd(d: Date, a: nat, b: nat)
    ensures AddMonths(AddMonths(d, a), b) == AddMonths(d, a + b)
  {
    if b == 0 {
    } else {
      AddMonthsAdd(d, a, b - 1);
    }
  }
}
