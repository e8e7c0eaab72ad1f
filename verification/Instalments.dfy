/** The repayment plan of a purchase on credit: equal instalments, the last taking the rest, one a month. */
module Instalments {
  import opened Money

  // ----- amounts -----

  /** An interest rate in percent, as an exact fraction. */
  datatype Rate = Rate(num: nat, den: nat)

  predicate ValidRate(r: Rate) {
    r.den > 0
  }

  datatype Plan = Plan(total: nat, monthly: nat, final: nat)

  /** The principal with interest, rounded half up; equal shares rounded down; the rest comes last. */
  function Terms(principal: nat, months: nat, rate: Rate): Plan
    requires months >= 1 && ValidRate(rate)
  {
    var n, d := principal * (100 * rate.den + rate.num), 100 * rate.den;
    NonNegative(n, d, HalfUp(n, d));
    var total: nat := HalfUp(n, d);
    var monthly := total / months;
    RestIsPositive(total, months);
    Plan(total, monthly, total - monthly * (months - 1))
  }

  lemma RestIsPositive(total: nat, months: nat)
    requires months >= 1
    ensures total - total / months * (months - 1) == total / months + total % months
  {
    assert total == total / months * months + total % months;
    Distribute(total / months, months - 1, 1);
  }

  /** Interest is never negative, and the total is within half a kobo of the exact amount. */
  lemma TotalCoversPrincipal(principal: nat, months: nat, rate: Rate)
    requires months >= 1 && ValidRate(rate)
    ensures Terms(principal, months, rate).total >= principal
    ensures var t := Terms(principal, months, rate).total;
            2 * principal * (100 * rate.den + rate.num) - 100 * rate.den < 2 * (100 * rate.den) * t
            <= 2 * principal * (100 * rate.den + rate.num) + 100 * rate.den
  {
    var d := 100 * rate.den;
    var t := Terms(principal, months, rate).total;
    Twice(principal, d + rate.num);
    Distribute(principal, d, rate.num);
    Scale(t + 1, principal, d);
    Distribute(2 * d, t, 1);
    Twice(d, principal);
  }

  /** Every instalment but the last is the monthly amount. */
  function Amount(p: Plan, months: nat, index: nat): nat {
    if index + 1 == months then p.final else p.monthly
  }

  function Paid(p: Plan, months: nat, upTo: nat): nat {
    if upTo == 0 then 0 else Paid(p, months, upTo - 1) + Amount(p, months, upTo - 1)
  }

  lemma {:induction false} EqualShares(p: Plan, months: nat, upTo: nat)
    requires upTo < months
    ensures Paid(p, months, upTo) == upTo * p.monthly
  {
    if upTo > 0 {
      EqualShares(p, months, upTo - 1);
      Distribute(p.monthly, upTo - 1, 1);
    }
  }

  /** The instalments add up to the total, to the kobo. */
  lemma InstalmentsAddUp(principal: nat, months: nat, rate: Rate)
    requires months >= 1 && ValidRate(rate)
    ensures var p := Terms(principal, months, rate); Paid(p, months, months) == p.total
  {
    var p := Terms(principal, months, rate);
    EqualShares(p, months, months - 1);
    Twice(p.monthly, months - 1);
  }

  /** The last instalment is the largest, by fewer kobo than there are months. */
  lemma LastIsBarelyLargest(principal: nat, months: nat, rate: Rate, index: nat)
    requires months >= 1 && ValidRate(rate) && index < months
    ensures var p := Terms(principal, months, rate);
            && Amount(p, months, index) <= Amount(p, months, months - 1)
            && Amount(p, months, months - 1) - Amount(p, months, index) < months
  {
    RestIsPositive(Terms(principal, months, rate).total, months);
  }

  // ----- dates -----

  /** A calendar day; months count from 0. */
  datatype Date = Date(year: int, month: int, day: int)

  predicate Leap(year: int) {
    year % 4 == 0 && (year % 100 != 0 || year % 400 == 0)
  }

  function DaysIn(year: int, month: int): int {
    if month == 1 then if Leap(year) then 29 else 28
    else if month in {3, 5, 8, 10} then 30 else 31
  }

  // ----- the calendar, counted out -----

  /** Days of the months before the given one. */
  function DaysBefore(year: int, month: nat): int {
    if month == 0 then 0 else DaysBefore(year, month - 1) + DaysIn(year, month - 1)
  }

  /** Days from the beginning of one year over a number of years. */
  function DaysOver(year: int, years: nat): int {
    if years == 0 then 0 else DaysOver(year, years - 1) + DaysBefore(year + years - 1, 12)
  }

  /** Thirty days have September, April, June and November; February alone depends on the year. */
  lemma MonthLengths(year: int)
    ensures forall m :: 0 <= m < 12 && m != 1 ==> DaysIn(year, m) == [31, 0, 31, 30, 31, 30, 31, 31, 30, 31, 30, 31][m]
    ensures DaysIn(year, 1) == 28 || DaysIn(year, 1) == 29
  {
  }

  lemma QuarterLengths(year: int)
    ensures DaysBefore(year, 3) == 62 + DaysIn(year, 1) && DaysBefore(year, 6) == DaysBefore(year, 3) + 91
  {
    assert DaysBefore(year, 0) == 0;
    assert DaysBefore(year, 1) == DaysBefore(year, 0) + DaysIn(year, 0);
    assert DaysBefore(year, 2) == DaysBefore(year, 1) + DaysIn(year, 1);
    assert DaysBefore(year, 3) == DaysBefore(year, 2) + DaysIn(year, 2);
    assert DaysBefore(year, 4) == DaysBefore(year, 3) + DaysIn(year, 3);
    assert DaysBefore(year, 5) == DaysBefore(year, 4) + DaysIn(year, 4);
    assert DaysBefore(year, 6) == DaysBefore(year, 5) + DaysIn(year, 5);
  }

  lemma YearLength(year: int)
    ensures DaysBefore(year, 12) == 337 + DaysIn(year, 1)
  {
    QuarterLengths(year);
    assert DaysBefore(year, 7) == DaysBefore(year, 6) + DaysIn(year, 6);
    assert DaysBefore(year, 8) == DaysBefore(year, 7) + DaysIn(year, 7);
    assert DaysBefore(year, 9) == DaysBefore(year, 8) + DaysIn(year, 8);
    assert DaysBefore(year, 10) == DaysBefore(year, 9) + DaysIn(year, 9);
    assert DaysBefore(year, 11) == DaysBefore(year, 10) + DaysIn(year, 10);
    assert DaysBefore(year, 12) == DaysBefore(year, 11) + DaysIn(year, 11);
  }

  /** Leap days before a year: every fourth, but not every hundredth, but every four-hundredth. */
  function LeapDays(year: int): int {
    (year + 3) / 4 - (year + 99) / 100 + (year + 399) / 400
  }

  lemma EveryFourth(y: int)
    ensures (y + 4) / 4 - (y + 3) / 4 == if y % 4 == 0 then 1 else 0
  {
  }

  lemma EveryHundredth(y: int)
    ensures (y + 100) / 100 - (y + 99) / 100 == if y % 100 == 0 then 1 else 0
  {
  }

  lemma EveryFourHundredth(y: int)
    ensures (y + 400) / 400 - (y + 399) / 400 == if y % 400 == 0 then 1 else 0
  {
  }

  lemma CenturiesAreFourths(y: int)
    ensures y % 100 == 0 ==> y % 4 == 0
    ensures y % 400 == 0 ==> y % 100 == 0
  {
  }

  lemma OneYear(year: int)
    ensures DaysBefore(year, 12) == 365 + LeapDays(year + 1) - LeapDays(year)
  {
    YearLength(year);
    hide DaysBefore;
    EveryFourth(year);
    EveryHundredth(year);
    EveryFourHundredth(year);
    CenturiesAreFourths(year);
    assert DaysIn(year, 1) == if Leap(year) then 29 else 28;
  }

  lemma {:induction false} YearsAddUp(year: int, years: nat)
    ensures DaysOver(year, years) == 365 * years + LeapDays(year + years) - LeapDays(year)
  {
    hide LeapDays, DaysBefore;
    if years > 0 {
      YearsAddUp(year, years - 1);
      OneYear(year + years - 1);
    }
  }

  lemma Periods(n: int, size: int, periods: int)
    requires size > 0
    ensures (n + size * periods) / size == n / size + periods
  {
    var q, r := n / size, n % size;
    assert n + size * periods == size * (q + periods) + r;
    DivisionUnique(n + size * periods, size, q + periods, r);
  }

  lemma DivisionUnique(n: int, size: int, q: int, r: int)
    requires size > 0 && n == size * q + r && 0 <= r < size
    ensures n / size == q
  {
    var d := n / size - q;
    assert n == size * (n / size) + n % size;
    assert size * d == r - n % size;
    if d >= 1 {
      Distribute(size, d - 1, 1);
    } else if d <= -1 {
      Distribute(size, d, 1);
    }
  }

  lemma LeapDaysOfACycle(year: int)
    ensures LeapDays(year + 400) == LeapDays(year) + 97
  {
    Periods(year + 3, 4, 100);
    Periods(year + 99, 100, 4);
    Periods(year + 399, 400, 1);
  }

  /** The Gregorian cycle: 146 097 days in any four hundred years, whatever year they begin with. */
  lemma FourCenturies(year: int)
    ensures DaysOver(year, 400) == 146097
  {
    hide DaysOver, LeapDays;
    YearsAddUp(year, 400);
    LeapDaysOfACycle(year);
  }

  /** Where the cycle begins: 2000 was a leap year, 1900 was not, and 10 957 days lie between 1970 and 2000. */
  lemma Anchors()
    ensures DaysIn(2000, 1) == 29 && DaysIn(1900, 1) == 28 && DaysOver(1970, 30) == 10957
  {
    hide DaysOver;
    YearsAddUp(1970, 30);
  }

  // ----- due dates -----

  predicate ValidDate(d: Date) {
    0 <= d.month < 12 && 1 <= d.day <= DaysIn(d.year, d.month)
  }

  predicate Before(a: Date, b: Date) {
    || a.year < b.year
    || (a.year == b.year && (a.month < b.month || (a.month == b.month && a.day < b.day)))
  }

  function MonthNumber(d: Date): int {
    12 * d.year + d.month
  }

  /** The first of the month so many months on, then the start day or the month's last. */
  function DueDate(start: Date, offset: nat): Date {
    var m := start.month + offset;
    var year, month := start.year + m / 12, m % 12;
    var last := DaysIn(year, month);
    Date(year, month, if start.day < last then start.day else last)
  }

  /**
   Each due date falls in its own calendar month, on the greatest day of that month that is
   not past the start day.
   */
  lemma DueInItsMonth(start: Date, offset: nat)
    requires ValidDate(start)
    ensures var d := DueDate(start, offset);
            && ValidDate(d) && MonthNumber(d) == MonthNumber(start) + offset && d.day <= start.day
            && forall day :: d.day < day <= start.day ==> !ValidDate(d.(day := day))
  {
    var m := start.month + offset;
    assert m == 12 * (m / 12) + m % 12;
  }

  lemma EarlierMonthIsBefore(a: Date, b: Date)
    requires ValidDate(a) && ValidDate(b) && MonthNumber(a) < MonthNumber(b)
    ensures Before(a, b)
  {
  }

  /** Due dates are strictly increasing, and all lie after the start. */
  lemma DueDatesIncrease(start: Date, i: nat, j: nat)
    requires ValidDate(start) && i < j
    ensures Before(DueDate(start, i), DueDate(start, j))
    ensures Before(start, DueDate(start, j))
  {
    DueInItsMonth(start, i);
    DueInItsMonth(start, j);
    EarlierMonthIsBefore(DueDate(start, i), DueDate(start, j));
    EarlierMonthIsBefore(start, DueDate(start, j));
  }

  // ----- the schedule -----

  datatype Row = Row(sequence: nat, amount: nat, due: Date)

  function Schedule(p: Plan, months: nat, start: Date): (rows: seq<Row>)
    ensures |rows| == months
    ensures forall i :: 0 <= i < months ==> rows[i] == Row(i + 1, Amount(p, months, i), DueDate(start, i + 1))
  {
    seq(months, i requires 0 <= i < months => Row(i + 1, Amount(p, months, i), DueDate(start, i + 1)))
  }

  function Sum(rows: seq<Row>): nat {
    if rows == [] then 0 else Sum(rows[..|rows| - 1]) + rows[|rows| - 1].amount
  }

  lemma {:induction false} SumIsPaid(p: Plan, months: nat, start: Date, k: nat)
    requires k <= months
    ensures Sum(Schedule(p, months, start)[..k]) == Paid(p, months, k)
  {
    if k > 0 {
      var rows := Schedule(p, months, start);
      SumIsPaid(p, months, start, k - 1);
      assert rows[..k][..k - 1] == rows[..k - 1];
    }
  }

  /** The schedule repays the total exactly, month after month. */
  lemma ScheduleIsSound(principal: nat, months: nat, rate: Rate, start: Date)
    requires months >= 1 && ValidRate(rate) && ValidDate(start)
    ensures var p := Terms(principal, months, rate);
            var rows := Schedule(p, months, start);
            && Sum(rows) == p.total
            && (forall i :: 0 <= i < months ==>
              rows[i].due.day <= start.day && MonthNumber(rows[i].due) == MonthNumber(start) + i + 1)
            && (forall i, j :: 0 <= i < j < months ==> Before(rows[i].due, rows[j].due))
  {
    var p := Terms(principal, months, rate);
    var rows := Schedule(p, months, start);
    InstalmentsAddUp(principal, months, rate);
    SumIsPaid(p, months, start, months);
    assert rows[..months] == rows;
    forall i | 0 <= i < months
      ensures rows[i].due.day <= start.day && MonthNumber(rows[i].due) == MonthNumber(start) + i + 1
    {
      DueInItsMonth(start, i + 1);
    }
    forall i, j | 0 <= i < j < months ensures Before(rows[i].due, rows[j].due) {
      DueDatesIncrease(start, i + 1, j + 1);
    }
  }
}
