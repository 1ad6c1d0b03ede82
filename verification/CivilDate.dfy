/** The civil-date conversion of `utc_now_rfc3339`, against a calendar counted day by day. */
module CivilDate {

  datatype Date = Date(year: int, month: int, day: int)

  datatype Instant = Instant(date: Date, hour: int, minute: int, second: int)

  // ---------- the conversion, as the ledger computes it ----------

  /** Division of signed 64-bit integers truncates toward zero. */
  function TruncDiv(a: int, b: int): int
    requires b > 0
  {
    if a >= 0 then a / b else -((-a) / b)
  }

  function YearOfEra(doe: int): int {
    TruncDiv(doe - TruncDiv(doe, 1_460) + TruncDiv(doe, 36_524) - TruncDiv(doe, 146_096), 365)
  }

  /** Days of the era before March 1st of its year `yoe`. */
  function DaysBeforeYearOfEra(yoe: int): int {
    365 * yoe + TruncDiv(yoe, 4) - TruncDiv(yoe, 100)
  }

  /** Month and day from the day counted since March 1st, with the year that month falls in. */
  function FromMarch(marchYear: int, doy: int): Date {
    var monthPart := TruncDiv(5 * doy + 2, 153);
    var day := doy - TruncDiv(153 * monthPart + 2, 5) + 1;
    var month := monthPart + (if monthPart < 10 then 3 else -9);
    Date(marchYear + (if month <= 2 then 1 else 0), month, day)
  }

  function FromEra(era: int, doe: int): Date {
    var yoe := YearOfEra(doe);
    FromMarch(yoe + era * 400, doe - DaysBeforeYearOfEra(yoe))
  }

  function FromDays(days: int): Date {
    var z := days + 719_468;
    var era := TruncDiv(if z >= 0 then z else z - 146_096, 146_097);
    FromEra(era, z - era * 146_097)
  }

  function FromSeconds(seconds: nat): Instant {
    var daySeconds := seconds % 86_400;
    Instant(FromDays(seconds / 86_400), daySeconds / 3_600, (daySeconds % 3_600) / 60, daySeconds % 60)
  }

  // ---------- the Gregorian calendar, counted from 1970-01-01 ----------

  predicate IsLeap(year: int) {
    year % 4 == 0 && (year % 100 != 0 || year % 400 == 0)
  }

  function DaysInYear(year: int): int {
    if IsLeap(year) then 366 else 365
  }

  function DaysInMonth(year: int, month: int): int {
    if month == 2 then (if IsLeap(year) then 29 else 28)
    else if month in {4, 6, 9, 11} then 30
    else 31
  }

  /** Section 5.7 and Appendix C of RFC 3339, restricted to years the clock can show. */
  predicate Valid(d: Date) {
    1970 <= d.year && 1 <= d.month <= 12 && 1 <= d.day <= DaysInMonth(d.year, d.month)
  }

  function DaysBeforeYear(year: int): int
    requires 1970 <= year
    decreases year
  {
    if year == 1970 then 0 else DaysBeforeYear(year - 1) + DaysInYear(year - 1)
  }

  function DaysBeforeMonth(year: int, month: int): int
    requires 1 <= month <= 12
    decreases month
  {
    if month == 1 then 0 else DaysBeforeMonth(year, month - 1) + DaysInMonth(year, month - 1)
  }

  /** How many days after 1970-01-01 a date lies. */
  function DayNumber(d: Date): int
    requires Valid(d)
  {
    DaysBeforeYear(d.year) + DaysBeforeMonth(d.year, d.month) + d.day - 1
  }

  function Tomorrow(d: Date): Date {
    if d.day < DaysInMonth(d.year, d.month) then d.(day := d.day + 1)
    else if d.month < 12 then Date(d.year, d.month + 1, 1)
    else Date(d.year + 1, 1, 1)
  }

  // ---------- closed forms ----------

  /** Days before March 1st of a year, counted from March 1st of year 0. */
  function MarchDays(year: int): int {
    365 * year + year / 4 - year / 100 + year / 400
  }

  lemma QuotientSteps(y: nat)
    ensures (y + 1) / 4 == y / 4 + (if (y + 1) % 4 == 0 then 1 else 0)
    ensures (y + 1) / 100 == y / 100 + (if (y + 1) % 100 == 0 then 1 else 0)
    ensures (y + 1) / 400 == y / 400 + (if (y + 1) % 400 == 0 then 1 else 0)
    ensures (y + 1) % 400 == 0 ==> (y + 1) % 100 == 0
    ensures (y + 1) % 100 == 0 ==> (y + 1) % 4 == 0
  {
  }

  /** A March year is as long as the civil year it ends in. */
  lemma MarchDaysStep(year: nat)
    ensures MarchDays(year + 1) - MarchDays(year) == DaysInYear(year + 1)
  {
    QuotientSteps(year);
  }

  lemma {:induction false} DaysBeforeYearClosed(year: int)
    requires 1970 <= year
    ensures DaysBeforeYear(year) == MarchDays(year - 1) + 306 - 719_468
    decreases year
  {
    if year > 1970 {
      DaysBeforeYearClosed(year - 1);
      MarchDaysStep(year - 2);
    }
  }

  /** Days before each month of the year that starts in March. */
  function DaysBeforeMarchMonth(monthPart: int): int {
    (153 * monthPart + 2) / 5
  }

  lemma DaysBeforeMonthClosed(year: int, month: int)
    requires 1 <= month <= 12
    ensures DaysBeforeMonth(year, month) ==
            if month <= 2 then DaysBeforeMarchMonth(month + 9) - 306
            else DaysBeforeMarchMonth(month - 3) + (if IsLeap(year) then 60 else 59)
  {
    var march := if IsLeap(year) then 60 else 59;
    assert DaysBeforeMonth(year, 3) == march;
    assert DaysBeforeMonth(year, 6) == march + 92;
    assert DaysBeforeMonth(year, 9) == march + 184;
    assert DaysBeforeMonth(year, 12) == march + 275;
  }

  // ---------- where the year-of-era formula lands ----------

  /** A day of the era, as century, four-year cycle, year of the cycle and day of the March year. */
  datatype EraDay = EraDay(century: int, cycle: int, step: int, doy: int) {
    predicate Ok() {
      && 0 <= century <= 3 && 0 <= cycle <= 24 && 0 <= step <= 3 && 0 <= doy <= 365
      && (doy == 365 ==> step == 3 && (cycle < 24 || century == 3))
    }

    function Index(): int {
      36_524 * century + 1_461 * cycle + 365 * step + doy
    }

    function Year(): int {
      100 * century + 4 * cycle + step
    }
  }

  lemma SplitEra(doe: int) returns (e: EraDay)
    requires 0 <= doe < 146_097
    ensures e.Ok() && e.Index() == doe
  {
    var century := if doe == 146_096 then 3 else doe / 36_524;
    var rest := doe - 36_524 * century;
    var cycle := rest / 1_461;
    var tail := rest - 1_461 * cycle;
    var step := if tail == 1_460 then 3 else tail / 365;
    e := EraDay(century, cycle, step, tail - 365 * step);
  }

  /** The three quotients the formula corrects the day by. */
  lemma EraCorrections(e: EraDay, last: bool)
    requires e.Ok() && last == (e.century == 3 && e.cycle == 24 && e.step == 3 && e.doy == 365)
    ensures e.Index() / 36_524 == if last then 4 else e.century
    ensures e.Index() / 146_096 == if last then 1 else 0
    ensures 25 * e.century + e.cycle <= e.Index() / 1_460 <= 25 * e.century + e.cycle + 1
    ensures e.Index() / 1_460 == 25 * e.century + e.cycle + 1 ==>
              365 * e.step + e.doy >= 1_460 - 24 * e.century - e.cycle
    ensures e.Index() / 1_460 == 25 * e.century + e.cycle ==> 365 * e.step + e.doy < 1_460 - 24 * e.century - e.cycle
  {
  }

  lemma YearOfEraFormula(e: EraDay)
    requires e.Ok()
    ensures YearOfEra(e.Index()) == e.Year()
  {
    var doe := e.Index();
    EraCorrections(e, e.century == 3 && e.cycle == 24 && e.step == 3 && e.doy == 365);
    var shifted := doe - doe / 1_460 + doe / 36_524 - doe / 146_096;
    Quotients(shifted, e.Year());
  }

  lemma Quotients(n: int, q: int)
    ensures 365 * q <= n < 365 * q + 365 ==> n / 365 == q
    ensures 100 * q <= n < 100 * q + 100 ==> n / 100 == q
    ensures 4 * q <= n < 4 * q + 4 ==> n / 4 == q
    ensures 400 * q <= n < 400 * q + 400 ==> n / 400 == q
  {
  }

  lemma DayOfMarchYear(e: EraDay)
    requires e.Ok()
    ensures e.Index() - DaysBeforeYearOfEra(e.Year()) == e.doy
  {
    Quotients(e.Year(), 25 * e.century + e.cycle);
    Quotients(e.Year(), e.century);
  }

  lemma FromEraDay(era: nat, e: EraDay)
    requires e.Ok()
    ensures FromEra(era, e.Index()) == FromMarch(e.Year() + era * 400, e.doy)
  {
    YearOfEraFormula(e);
    DayOfMarchYear(e);
  }

  lemma FromDaysInEra(days: nat, era: nat, doe: int)
    requires days + 719_468 == era * 146_097 + doe && 0 <= doe < 146_097
    ensures FromDays(days) == FromEra(era, doe)
  {
    EraOf(days + 719_468, era, doe);
    assert days + 719_468 - era * 146_097 == doe;
  }

  lemma EraIndexRange(e: EraDay)
    requires e.Ok()
    ensures 0 <= e.Index() < 146_097
  {
  }

  lemma EraOf(z: nat, era: nat, doe: int)
    requires z == era * 146_097 + doe && 0 <= doe < 146_097
    ensures z / 146_097 == era
  {
  }

  /** The March year and day of year behind a day number. */
  lemma MarchDate(days: nat) returns (year: nat, doy: nat)
    ensures FromDays(days) == FromMarch(year, doy)
    ensures days + 719_468 == MarchDays(year) + doy
    ensures doy <= 365 && (doy == 365 ==> IsLeap(year + 1))
  {
    var z := days + 719_468;
    var era := z / 146_097;
    var e := SplitEra(z - era * 146_097);
    year, doy := e.Year() + era * 400, e.doy;
    FromEraDay(era, e);
    EraIndexRange(e);
    FromDaysInEra(days, era, e.Index());
    EraQuotients(era, e);
  }

  /** The March year and the year after it, by their place in the era. */
  lemma YearQuotients(era: nat, e: EraDay)
    requires e.Ok()
    ensures var year := e.Year() + era * 400;
            && year / 4 == 100 * era + 25 * e.century + e.cycle
            && year / 100 == 4 * era + e.century
            && year / 400 == era
  {
    var year := e.Year() + era * 400;
    Quotients(year, 100 * era + 25 * e.century + e.cycle);
    Quotients(year, 4 * era + e.century);
    Quotients(year, era);
  }

  lemma NotOfTheCentury(year: int, century: int, rest: int)
    requires year == 100 * century + rest && 0 < rest < 100
    ensures year % 100 != 0
  {
  }

  lemma FourthYear(year: int, quarter: int)
    requires year == 4 * quarter
    ensures year % 4 == 0
  {
  }

  /** A March year of 366 days ends in a leap year. */
  lemma LongYearIsLeap(era: nat, e: EraDay)
    requires e.Ok() && e.doy == 365
    ensures IsLeap(e.Year() + era * 400 + 1)
  {
    var next := e.Year() + era * 400 + 1;
    FourthYear(next, 100 * era + 25 * e.century + e.cycle + 1);
    if e.cycle < 24 {
      NotOfTheCentury(next, 4 * era + e.century, 4 * (e.cycle + 1));
    } else {
      assert next == 400 * (era + 1);
    }
  }

  lemma EraQuotients(era: nat, e: EraDay)
    requires e.Ok()
    ensures MarchDays(e.Year() + era * 400) + e.doy == era * 146_097 + e.Index()
    ensures e.doy == 365 ==> IsLeap(e.Year() + era * 400 + 1)
  {
    YearQuotients(era, e);
    if e.doy == 365 {
      LongYearIsLeap(era, e);
    }
  }

  lemma MarchDaysFrom1969(year: nat)
    ensures year <= 1968 ==> MarchDays(year) + 366 <= 719_468
    ensures MarchDays(1969) + 306 == 719_468
    ensures year >= 1969 ==> MarchDays(year) + 306 >= 719_468
  {
  }

  // ---------- main results ----------

  /** Months of the March year: the month part, its length and its place. */
  lemma MonthOfMarchYear(doy: nat) returns (monthPart: nat)
    requires doy <= 365
    ensures monthPart == TruncDiv(5 * doy + 2, 153) <= 11
    ensures DaysBeforeMarchMonth(monthPart) <= doy
    ensures monthPart < 11 ==> doy < DaysBeforeMarchMonth(monthPart + 1)
  {
    monthPart := (5 * doy + 2) / 153;
  }

  lemma MarchDateValid(year: nat, doy: nat)
    requires year >= 1969 && doy <= 365 && (doy == 365 ==> IsLeap(year + 1))
    requires year == 1969 ==> doy >= 306
    ensures Valid(FromMarch(year, doy))
  {
    var monthPart := MonthOfMarchYear(doy);
    assert FromMarch(year, doy).day == doy - DaysBeforeMarchMonth(monthPart) + 1;
  }

  lemma MarchDateNumber(year: nat, doy: nat)
    requires doy <= 365 && Valid(FromMarch(year, doy))
    ensures DayNumber(FromMarch(year, doy)) == MarchDays(year) + doy - 719_468
  {
    var monthPart := MonthOfMarchYear(doy);
    var d := FromMarch(year, doy);
    DaysBeforeMonthClosed(d.year, d.month);
    DaysBeforeYearClosed(d.year);
    if monthPart < 10 {
      MarchDaysStep(year - 1);
      assert DaysBeforeYear(d.year) == MarchDays(year) - DaysInYear(year) + 306 - 719_468;
    } else {
      assert d.year == year + 1;
      assert DaysBeforeYear(d.year) == MarchDays(year) + 306 - 719_468;
    }
  }

  /** Every day number from 0 on gives a real Gregorian date, the one that many days after 1970-01-01. */
  lemma FromDaysIsCalendar(days: nat)
    ensures Valid(FromDays(days))
    ensures DayNumber(FromDays(days)) == days
  {
    var year, doy := MarchDate(days);
    MarchDaysFrom1969(year);
    MarchDateValid(year, doy);
    MarchDateNumber(year, doy);
  }

  predicate Before(a: Date, b: Date) {
    a.year < b.year || (a.year == b.year && (a.month < b.month || (a.month == b.month && a.day < b.day)))
  }

  lemma {:induction false} YearsAscend(low: int, high: int)
    requires 1970 <= low < high
    ensures DaysBeforeYear(low) + DaysInYear(low) <= DaysBeforeYear(high)
    decreases high
  {
    if low < high - 1 {
      YearsAscend(low, high - 1);
    }
  }

  lemma {:induction false} MonthsAscend(year: int, low: int, high: int)
    requires 1 <= low < high <= 12
    ensures DaysBeforeMonth(year, low) + DaysInMonth(year, low) <= DaysBeforeMonth(year, high)
    decreases high
  {
    if low < high - 1 {
      MonthsAscend(year, low, high - 1);
    }
  }

  lemma DayNumberAscends(a: Date, b: Date)
    requires Valid(a) && Valid(b) && Before(a, b)
    ensures DayNumber(a) < DayNumber(b)
  {
    if a.year < b.year {
      YearsAscend(a.year, b.year);
      DaysBeforeMonthClosed(a.year, a.month);
      DaysBeforeMonthClosed(b.year, b.month);
    } else if a.month < b.month {
      MonthsAscend(a.year, a.month, b.month);
    }
  }

  /** Counting to a date and converting back returns the date: the conversion is onto all dates from 1970. */
  lemma CalendarRoundTrip(d: Date)
    requires Valid(d)
    ensures DayNumber(d) >= 0 && FromDays(DayNumber(d)) == d
  {
    DaysBeforeMonthClosed(d.year, d.month);
    DaysBeforeYearClosed(d.year);
    MarchDaysFrom1969(d.year - 1);
    var back := FromDays(DayNumber(d));
    FromDaysIsCalendar(DayNumber(d));
    if Before(back, d) {
      DayNumberAscends(back, d);
    } else if Before(d, back) {
      DayNumberAscends(d, back);
    }
  }

  lemma TomorrowIsNext(d: Date)
    requires Valid(d)
    ensures Valid(Tomorrow(d)) && DayNumber(Tomorrow(d)) == DayNumber(d) + 1
  {
    if d.day == DaysInMonth(d.year, d.month) && d.month == 12 {
      DaysBeforeMonthClosed(d.year, 12);
    }
  }

  lemma Epoch()
    ensures FromDays(0) == Date(1970, 1, 1)
  {
    assert YearOfEra(135_080) == 369;
  }

  lemma FromDayNumber(d: Date, days: nat)
    requires Valid(d) && DayNumber(d) == days
    ensures FromDays(days) == d
  {
    CalendarRoundTrip(d);
  }

  /** Consecutive day numbers are consecutive calendar days. */
  lemma NextDayIsTomorrow(days: nat)
    ensures FromDays(days + 1) == Tomorrow(FromDays(days))
  {
    var today := FromDays(days);
    assert Valid(today) && DayNumber(today) == days by {
      FromDaysIsCalendar(days);
    }
    TomorrowIsNext(today);
    FromDayNumber(Tomorrow(today), days + 1);
  }

  /** The instant shown is a real one and determines the second. */
  lemma FromSecondsRoundTrip(seconds: nat)
    ensures var t := FromSeconds(seconds);
            && Valid(t.date) && 0 <= t.hour < 24 && 0 <= t.minute < 60 && 0 <= t.second < 60
            && DayNumber(t.date) * 86_400 + t.hour * 3_600 + t.minute * 60 + t.second == seconds
  {
    var days := seconds / 86_400;
    assert Valid(FromDays(days)) && DayNumber(FromDays(days)) == days by {
      FromDaysIsCalendar(days);
    }
    ClockFields(seconds % 86_400);
  }

  lemma ClockFields(s: nat)
    requires s < 86_400
    ensures s / 3_600 < 24 && s / 3_600 * 3_600 + (s % 3_600) / 60 * 60 + s % 60 == s
  {
    assert s % 60 == (s % 3_600) % 60;
  }
}
