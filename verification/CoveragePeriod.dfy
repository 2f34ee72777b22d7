/** The coverage period: the calendar date a number of months later, clamped to the end of its
    month, over the proleptic Gregorian calendar. */
module CoveragePeriod {
  import opened Results

  // ---------------------------------------------------------------- the calendar

  datatype Date = Date(year: int, month: int, day: int)

  const MAX_YEAR := 9999

  predicate Leap(year: int) {
    year % 4 == 0 && (year % 100 != 0 || year % 400 == 0)
  }

  function DaysInMonth(year: int, month: int): (d: int)
    ensures 28 <= d <= 31
  {
    if month == 2 then (if Leap(year) then 29 else 28)
    else if month == 4 || month == 6 || month == 9 || month == 11 then 30
    else 31
  }

  /** The dates the date constructor accepts. */
  predicate Valid(d: Date) {
    1 <= d.year <= MAX_YEAR && 1 <= d.month <= 12 && 1 <= d.day <= DaysInMonth(d.year, d.month)
  }

  predicate Before(a: Date, b: Date) {
    a.year < b.year || (a.year == b.year && (a.month < b.month || (a.month == b.month && a.day < b.day)))
  }

  /** The number of a day, counted from the first of January of year one. */
  function Ordinal(d: Date): int
    requires Valid(d)
  {
    DaysBeforeYear(d.year) + DaysBeforeMonth(d.year, d.month) + d.day
  }

  function DaysBeforeYear(year: int): int {
    var y := year - 1;
    365 * y + y / 4 - y / 100 + y / 400
  }

  function DaysBeforeMonth(year: int, month: int): int
    requires 1 <= month <= 13
    decreases month
  {
    if month == 1 then 0 else DaysBeforeMonth(year, month - 1) + DaysInMonth(year, month - 1)
  }

  function DaysInYear(year: int): int {
    if Leap(year) then 366 else 365
  }

  lemma TwelveMonths(year: int)
    ensures DaysBeforeMonth(year, 13) == DaysInYear(year)
    ensures DaysBeforeMonth(year, 2) == 31 && DaysBeforeMonth(year, 3) == 31 + DaysInMonth(year, 2)
  {
    assert DaysBeforeMonth(year, 5) == 31 + DaysInMonth(year, 2) + 31 + 30;
    assert DaysBeforeMonth(year, 9) == DaysBeforeMonth(year, 5) + 31 + 30 + 31 + 31;
    assert DaysBeforeMonth(year, 13) == DaysBeforeMonth(year, 9) + 30 + 31 + 30 + 31;
  }

  lemma NextYear(year: int)
    ensures DaysBeforeYear(year + 1) == DaysBeforeYear(year) + DaysInYear(year)
  {
    assert year / 4 - (year - 1) / 4 == if year % 4 == 0 then 1 else 0;
    assert year / 100 - (year - 1) / 100 == if year % 100 == 0 then 1 else 0;
    assert year / 400 - (year - 1) / 400 == if year % 400 == 0 then 1 else 0;
  }

  lemma {:induction false} MonthsAreOrdered(year: int, a: int, b: int)
    requires 1 <= a < b <= 13
    ensures DaysBeforeMonth(year, a) + DaysInMonth(year, a) <= DaysBeforeMonth(year, b)
    decreases b
  {
    if a < b - 1 {
      MonthsAreOrdered(year, a, b - 1);
    }
  }

  lemma {:induction false} YearsAreOrdered(a: int, b: int)
    requires a < b
    ensures DaysBeforeYear(a) + DaysInYear(a) <= DaysBeforeYear(b)
    decreases b - a
  {
    NextYear(b - 1);
    if a < b - 1 {
      YearsAreOrdered(a, b - 1);
    }
  }

  /** Day numbers order the dates. */
  lemma OrdinalOrders(a: Date, b: Date)
    requires Valid(a) && Valid(b)
    ensures Ordinal(a) < Ordinal(b) <==> Before(a, b)
  {
    if Before(a, b) {
      OrdinalRises(a, b);
    } else if Before(b, a) {
      OrdinalRises(b, a);
    }
  }

  lemma OrdinalRises(a: Date, b: Date)
    requires Valid(a) && Valid(b) && Before(a, b)
    ensures Ordinal(a) < Ordinal(b)
  {
    hide Leap, DaysInMonth, DaysBeforeYear, DaysBeforeMonth;
    if a.year < b.year {
      YearsAreOrdered(a.year, b.year);
      MonthsAreOrdered(a.year, a.month, 13);
      TwelveMonths(a.year);
      FirstMonth(b.year);
      if b.month > 1 {
        MonthsAreOrdered(b.year, 1, b.month);
      }
    } else if a.month < b.month {
      MonthsAreOrdered(a.year, a.month, b.month);
    }
  }

  lemma FirstMonth(year: int)
    ensures DaysBeforeMonth(year, 1) == 0
  {
  }

  // ---------------------------------------------------------------- the period

  datatype PeriodError = DurationTooShort | NumberTooLarge

  /** Months counted from the first month of year zero. */
  function MonthIndex(d: Date): int {
    12 * d.year + d.month - 1
  }

  function TargetYear(start: Date, months: int): int {
    start.year + (start.month - 1 + months) / 12
  }

  function TargetMonth(start: Date, months: int): int {
    (start.month - 1 + months) % 12 + 1
  }

  function Min(a: int, b: int): int {
    if a <= b then a else b
  }

  /** The end of the period. */
  function End(start: Date, months: int): Date {
    var year, month := TargetYear(start, months), TargetMonth(start, months);
    Date(year, month, Min(start.day, DaysInMonth(year, month)))
  }

  /** The numbers the interpreter's date constructor takes at all: beyond a C int it raises an
      overflow, which the loop does not catch. */
  predicate CInt(n: int) {
    -0x8000_0000 <= n < 0x8000_0000
  }

  /** `coverage_period`. The clamping loop tries the day and, while the month does not have it,
      the day before: within the years a date can have it tries at most four days, and beyond
      them it counts down until the constructor overflows. */
  method Period(approvedOn: Date, months: int) returns (r: Result<(Date, Date), PeriodError>, ghost tried: nat)
    requires Valid(approvedOn)
    ensures r == Err(DurationTooShort) <==> months < 1
    ensures r.Err? <==> months < 1 || TargetYear(approvedOn, months) > MAX_YEAR
    ensures r.Ok? ==> r.value == (approvedOn, End(approvedOn, months)) && Valid(r.value.1)
    ensures r.Ok? ==> tried <= 4
  {
    tried := 0;
    if months < 1 {
      return Err(DurationTooShort), 0;
    }
    var monthIndex := approvedOn.month - 1 + months;
    var year := approvedOn.year + monthIndex / 12;
    var month := monthIndex % 12 + 1;
    var day := approvedOn.day;
    tried := 1;
    while CInt(year) && CInt(day) && !Valid(Date(year, month, day))
      invariant day <= approvedOn.day && (year <= MAX_YEAR ==> Min(approvedOn.day, DaysInMonth(year, month)) <= day)
      invariant tried == approvedOn.day - day + 1
      decreases day + 0x8000_0001
    {
      day := day - 1;
      tried := tried + 1;
    }
    r := if CInt(year) && CInt(day) then Ok((approvedOn, Date(year, month, day))) else Err(NumberTooLarge);
  }

  /** Beyond the last year no day is ever found, however far the loop counts down. */
  lemma NoDayAfterTheLastYear(start: Date, months: int)
    requires Valid(start) && months >= 1
    ensures (exists d: int :: Valid(Date(TargetYear(start, months), TargetMonth(start, months), d)))
       <==> TargetYear(start, months) <= MAX_YEAR
  {
    if TargetYear(start, months) <= MAX_YEAR {
      assert Valid(End(start, months));
      assert Valid(Date(TargetYear(start, months), TargetMonth(start, months), End(start, months).day));
    }
  }

  /** The end is exactly that many months on, on the same day or the last of a shorter month. */
  lemma EndIsMonthsLater(start: Date, months: int)
    requires Valid(start) && months >= 1 && TargetYear(start, months) <= MAX_YEAR
    ensures var end := End(start, months);
      && Valid(end)
      && MonthIndex(end) == MonthIndex(start) + months
      && (end.day == start.day || (end.day == DaysInMonth(end.year, end.month) && end.day < start.day))
      && Ordinal(start) < Ordinal(end)
  {
    OrdinalOrders(start, End(start, months));
  }

  /** A later approval never ends earlier. */
  lemma EndIsMonotone(a: Date, b: Date, months: int)
    requires Valid(a) && Valid(b) && months >= 1
    requires TargetYear(a, months) <= MAX_YEAR && TargetYear(b, months) <= MAX_YEAR
    requires Ordinal(a) <= Ordinal(b)
    ensures Ordinal(End(a, months)) <= Ordinal(End(b, months))
  {
    hide Ordinal, DaysInMonth;
    var c, d := End(a, months), End(b, months);
    OrdinalOrders(b, a);
    EndIsMonthsLater(a, months);
    EndIsMonthsLater(b, months);
    OrdinalOrders(d, c);
  }

  /** The leap day between a date and the same date a year later, if there is one. */
  function LeapDays(start: Date): int {
    if start.month > 2 then (if Leap(start.year + 1) then 1 else 0)
    else if start.month == 2 && start.day == 29 then 0
    else if Leap(start.year) then 1 else 0
  }

  /** Twelve months are 365 days, or 366 when a leap day falls in between. */
  lemma TwelveMonthsAreAYear(start: Date)
    requires Valid(start) && start.year < MAX_YEAR
    ensures TargetYear(start, 12) == start.year + 1
    ensures Valid(End(start, 12)) && Ordinal(End(start, 12)) - Ordinal(start) == 365 + LeapDays(start)
  {
    var y := start.year;
    hide DaysBeforeYear;
    NextYear(y);
    SameMonthNextYear(y, start.month);
    assert Leap(y) ==> !Leap(y + 1);
  }

  lemma {:induction false} SameMonthNextYear(year: int, month: int)
    requires 1 <= month <= 13
    ensures DaysBeforeMonth(year + 1, month) - DaysBeforeMonth(year, month)
         == if month <= 2 then 0 else DaysInMonth(year + 1, 2) - DaysInMonth(year, 2)
    decreases month
  {
    if month > 1 {
      SameMonthNextYear(year, month - 1);
    }
  }
}
