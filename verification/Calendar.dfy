/** Civil months and days, and the dates a card's statements close and fall due on. */
module Calendar {

  /** A calendar month, counted from January of year 0: month - 1 of year y is 12 * y + (month - 1). */
  type Month = int

  datatype Date = Date(month: Month, day: int)

  function Min(a: int, b: int): int { if a <= b then a else b }

  function DaysInMonth(m: Month): (d: int)
    ensures 28 <= d <= 31
  {
    var year, month := m / 12, m % 12 + 1;
    if month == 2 then
      (if year % 4 == 0 && (year % 100 != 0 || year % 400 == 0) then 29 else 28)
    else if month in {4, 6, 9, 11} then 30 else 31
  }

  /** The days of the first n months from m. */
  function DaysOf(m: Month, n: nat): int { if n == 0 then 0 else DaysOf(m, n - 1) + DaysInMonth(m + n - 1) }

  /** The days before January of a year, counted from that of year 0, one leap day every 4 years but 3 in 400. */
  function DaysBefore(year: int): int { 365 * year + (year + 3) / 4 - (year + 99) / 100 + (year + 399) / 400 }

  lemma MonthAt(year: int, i: int)
    requires 0 <= i < 12 && i != 1
    ensures DaysInMonth(12 * year + i) == if i in {3, 5, 8, 10} then 30 else 31
  {
    assert (12 * year + i) % 12 == i;
  }

  /** All but February have their days whatever the year. */
  lemma {:induction false} YearOfMonths(year: int, n: nat)
    requires 2 <= n <= 12
    ensures DaysOf(12 * year, n) == DaysInMonth(12 * year + 1) + [31, 62, 92, 123, 153, 184, 215, 245, 276, 306, 337][n - 2]
  {
    if n == 2 {
      MonthAt(year, 0);
      assert DaysOf(12 * year, 1) == DaysOf(12 * year, 0) + DaysInMonth(12 * year);
    } else {
      MonthAt(year, n - 1);
      YearOfMonths(year, n - 1);
    }
  }

  /** The months of every year add up to it. */
  lemma MonthsMakeTheYear(year: int)
    ensures DaysOf(12 * year, 12) == DaysBefore(year + 1) - DaysBefore(year)
  {
    YearOfMonths(year, 12);
    assert (12 * year + 1) / 12 == year && (12 * year + 1) % 12 == 1;
    EveryFourth(year);
    EveryHundredth(year);
    EveryFourHundredth(year);
  }

  lemma EveryFourth(year: int)
    ensures (year + 4) / 4 - (year + 3) / 4 == (if year % 4 == 0 then 1 else 0)
  {
  }

  lemma EveryHundredth(year: int)
    ensures (year + 100) / 100 - (year + 99) / 100 == (if year % 100 == 0 then 1 else 0)
    ensures year % 100 == 0 ==> year % 4 == 0
  {
  }

  lemma EveryFourHundredth(year: int)
    ensures (year + 400) / 400 - (year + 399) / 400 == (if year % 400 == 0 then 1 else 0)
    ensures year % 400 == 0 ==> year % 100 == 0
  {
  }

  predicate ValidDate(d: Date) { 1 <= d.day <= DaysInMonth(d.month) }

  predicate Before(a: Date, b: Date) { a.month < b.month || (a.month == b.month && a.day < b.day) }

  function Clamp(m: Month, day: int): Date { Date(m, Min(day, DaysInMonth(m))) }

  function ClosingDate(m: Month, closingDay: int): Date { Clamp(m, closingDay) }

  function DueDate(m: Month, closingDay: int, dueDay: int): (d: Date)
    requires 1 <= closingDay <= 31 && 1 <= dueDay <= 31
    ensures ValidDate(d) && Before(ClosingDate(m, closingDay), d)
    ensures d == Clamp(m, dueDay) || d == Clamp(m + 1, dueDay)
  {
    var d := Clamp(m, dueDay);
    if Before(ClosingDate(m, closingDay), d) then d else Clamp(m + 1, dueDay)
  }

  function StatementFor(purchase: Date, closingDay: int): Month {
    if purchase.day <= Min(closingDay, DaysInMonth(purchase.month)) then purchase.month else purchase.month + 1
  }

  /** A purchase is billed on the one statement whose period (previous closing, closing] holds its day. */
  lemma StatementForIsThePeriod(purchase: Date, closingDay: int, m: Month)
    requires ValidDate(purchase) && 1 <= closingDay <= 31
    ensures m == StatementFor(purchase, closingDay)
       <==> !Before(ClosingDate(m, closingDay), purchase) && Before(ClosingDate(m - 1, closingDay), purchase)
  {
    var d := purchase;
    if m < d.month || m > d.month + 1 {
    } else if m == d.month {
      assert ClosingDate(m - 1, closingDay).month == m - 1;
    } else {
      assert ClosingDate(m - 1, closingDay) == Date(d.month, Min(closingDay, DaysInMonth(d.month)));
    }
  }
}
