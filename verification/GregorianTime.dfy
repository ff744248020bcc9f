/** Calendar text for a count of seconds from the Unix epoch. The calendar itself is defined
    by counting days year by year and month by month (leap years as in appendix C of RFC 3339). */
module GregorianTime {

  const SECONDS_PER_DAY: nat := 86_400

  /** Days from 1 January of year 1 to the Unix epoch, and to the end of year 9999. */
  const EPOCH_DAY: nat := 719_162
  const DAY_LIMIT: nat := 3_652_059

  const UNAVAILABLE := "Time unavailable"

  datatype Date = Date(year: nat, month: nat, day: nat)

  datatype Clock = Clock(hour: nat, minute: nat, second: nat)

  // ---------------------------------------------------------------- the calendar

  predicate Leap(year: nat) {
    year % 4 == 0 && (year % 100 != 0 || year % 400 == 0)
  }

  function YearLength(year: nat): nat {
    if Leap(year) then 366 else 365
  }

  function MonthLength(year: nat, month: nat): nat {
    if month == 2 then (if Leap(year) then 29 else 28)
    else if month == 4 || month == 6 || month == 9 || month == 11 then 30
    else 31
  }

  function DaysBeforeYear(year: nat): nat {
    if year <= 1 then 0 else DaysBeforeYear(year - 1) + YearLength(year - 1)
  }

  function DaysBeforeMonth(year: nat, month: nat): nat {
    if month <= 1 then 0 else DaysBeforeMonth(year, month - 1) + MonthLength(year, month - 1)
  }

  predicate ValidDate(date: Date) {
    1 <= date.year <= 9999 && 1 <= date.month <= 12 && 1 <= date.day <= MonthLength(date.year, date.month)
  }

  /** Days since 1 January of year 1. */
  function DayNumber(date: Date): nat
    requires date.day >= 1
  {
    DaysBeforeYear(date.year) + DaysBeforeMonth(date.year, date.month) + (date.day - 1)
  }

  lemma TwelveMonths(year: nat)
    ensures DaysBeforeMonth(year, 13) == YearLength(year)
  {
    var february := MonthLength(year, 2);
    assert DaysBeforeMonth(year, 2) == 31 && DaysBeforeMonth(year, 3) == 31 + february;
    assert DaysBeforeMonth(year, 4) == 62 + february && DaysBeforeMonth(year, 5) == 92 + february;
    assert DaysBeforeMonth(year, 6) == 123 + february && DaysBeforeMonth(year, 7) == 153 + february;
    assert DaysBeforeMonth(year, 8) == 184 + february && DaysBeforeMonth(year, 9) == 215 + february;
    assert DaysBeforeMonth(year, 10) == 245 + february && DaysBeforeMonth(year, 11) == 276 + february;
    assert DaysBeforeMonth(year, 12) == 306 + february;
  }

  lemma {:induction false} MonthsAccumulate(year: nat, a: nat, b: nat)
    requires 1 <= a < b
    ensures DaysBeforeMonth(year, a) + MonthLength(year, a) <= DaysBeforeMonth(year, b)
  {
    if a + 1 < b {
      MonthsAccumulate(year, a, b - 1);
    }
  }

  lemma {:induction false} YearsAccumulate(a: nat, b: nat)
    requires 1 <= a < b
    ensures DaysBeforeYear(a) + YearLength(a) <= DaysBeforeYear(b)
  {
    if a + 1 < b {
      YearsAccumulate(a, b - 1);
    }
  }

  lemma DayOfYearBound(date: Date)
    requires ValidDate(date)
    ensures DaysBeforeMonth(date.year, date.month) + (date.day - 1) < YearLength(date.year)
  {
    TwelveMonths(date.year);
    MonthsAccumulate(date.year, date.month, 13);
  }

  /** A day has one date. */
  lemma DatesAreDistinct(a: Date, b: Date)
    requires ValidDate(a) && ValidDate(b) && DayNumber(a) == DayNumber(b)
    ensures a == b
  {
    DayOfYearBound(a);
    DayOfYearBound(b);
    if a.year < b.year {
      YearsAccumulate(a.year, b.year);
    } else if b.year < a.year {
      YearsAccumulate(b.year, a.year);
    } else if a.month < b.month {
      MonthsAccumulate(a.year, a.month, b.month);
    } else if b.month < a.month {
      MonthsAccumulate(a.year, b.month, a.month);
    }
  }

  /** Every fourth year, but not every hundredth, but every four hundredth. */
  lemma {:induction false} DaysBeforeYearFormula(year: nat)
    requires year >= 1
    ensures DaysBeforeYear(year) == 365 * (year - 1) + (year - 1) / 4 - (year - 1) / 100 + (year - 1) / 400
  {
    if year > 1 {
      DaysBeforeYearFormula(year - 1);
      OneMoreYear(year - 1);
    }
  }

  lemma Multiples(year: nat)
    requires year >= 1
    ensures year / 4 - (year - 1) / 4 == (if year % 4 == 0 then 1 else 0)
    ensures year / 100 - (year - 1) / 100 == (if year % 100 == 0 then 1 else 0)
    ensures year / 400 - (year - 1) / 400 == (if year % 400 == 0 then 1 else 0)
  {
  }

  lemma NestedMultiples(year: nat)
    ensures year % 400 == 0 ==> year % 100 == 0
    ensures year % 100 == 0 ==> year % 4 == 0
  {
    if year % 400 == 0 {
      assert year == 100 * (4 * (year / 400));
    }
    if year % 100 == 0 {
      assert year == 4 * (25 * (year / 100));
    }
  }

  lemma LengthByMultiples(year: nat)
    ensures YearLength(year) == 365 + (if year % 4 == 0 then 1 else 0) - (if year % 100 == 0 then 1 else 0) + (if year % 400 == 0 then 1 else 0)
  {
    NestedMultiples(year);
  }

  lemma OneMoreYear(year: nat)
    requires year >= 1
    ensures YearLength(year) == 365 + (year / 4 - (year - 1) / 4) - (year / 100 - (year - 1) / 100) + (year / 400 - (year - 1) / 400)
  {
    Multiples(year);
    LengthByMultiples(year);
  }

  // ---------------------------------------------------------------- cycles

  /** A position in the 400-year cycle. */
  datatype Cycle = Cycle(cycles: nat, centuries: nat, groups: nat, years: nat)

  function YearAt(c: Cycle): nat {
    1 + c.cycles * 400 + c.centuries * 100 + c.groups * 4 + c.years
  }

  predicate InRange(c: Cycle) {
    c.centuries <= 3 && c.groups <= 24 && c.years <= 3
  }

  lemma CycleQuotients(c: Cycle)
    requires InRange(c)
    ensures var y := YearAt(c) - 1;
            y / 4 == 100 * c.cycles + 25 * c.centuries + c.groups && y / 100 == 4 * c.cycles + c.centuries && y / 400 == c.cycles
  {
    var y := YearAt(c) - 1;
    assert y == 4 * (100 * c.cycles + 25 * c.centuries + c.groups) + c.years;
    assert y == 100 * (4 * c.cycles + c.centuries) + (4 * c.groups + c.years);
    assert y == 400 * c.cycles + (100 * c.centuries + 4 * c.groups + c.years);
  }

  lemma CycleDays(c: Cycle)
    requires InRange(c)
    ensures DaysBeforeYear(YearAt(c)) == 146_097 * c.cycles + 36_524 * c.centuries + 1461 * c.groups + 365 * c.years
  {
    DaysBeforeYearFormula(YearAt(c));
    CycleQuotients(c);
  }

  /** Only the last year of a group can be a leap year, and the last group of a century has one
      only at the end of the whole cycle. */
  lemma CycleLeap(c: Cycle)
    requires InRange(c) && c.years == 3 && (c.groups < 24 || c.centuries == 3)
    ensures Leap(YearAt(c))
  {
    var y := YearAt(c);
    assert y == 4 * (100 * c.cycles + 25 * c.centuries + c.groups + 1);
    if c.groups < 24 {
      assert y == 100 * (4 * c.cycles + c.centuries) + (4 * c.groups + 4);
    } else {
      assert y == 400 * (c.cycles + 1);
    }
  }

  lemma CycleYearFits(c: Cycle)
    requires InRange(c) && 146_097 * c.cycles + 36_524 * c.centuries + 1461 * c.groups + 365 * c.years < DAY_LIMIT
    ensures YearAt(c) <= 9999
  {
    assert c.cycles <= 24;
    if c.cycles == 24 {
      assert 36_524 * c.centuries + 1461 * c.groups + 365 * c.years < 145_731;
      assert c.centuries == 3 && c.groups == 24 ==> c.years < 3;
    }
  }

  // ---------------------------------------------------------------- conversion

  function Least(a: nat, b: nat): nat {
    if a < b then a else b
  }

  /** How the conversion cuts a position in the cycle down: by centuries, groups of four years
      and years, the last of each taking the leftover day. */
  lemma CyclePosition(position: nat)
    requires position < 146_097
    ensures var centuries := Least(position / 36_524, 3);
            var inCentury := position - centuries * 36_524;
            var inGroup := inCentury % 1461;
            var years := Least(inGroup / 365, 3);
            && 0 <= inCentury && inCentury / 1461 <= 24 && inCentury == 1461 * (inCentury / 1461) + inGroup
            && 0 <= inGroup - years * 365 <= 365
            && (inGroup - years * 365 == 365 ==> years == 3 && (inCentury / 1461 < 24 || centuries == 3))
  {
  }

  /** The year of a day, and the days left in it. */
  method YearOf(days: nat) returns (year: nat, remaining: nat)
    requires days < DAY_LIMIT
    ensures 1 <= year <= 9999 && remaining < YearLength(year) && DaysBeforeYear(year) + remaining == days
  {
    remaining := days % 146_097;
    CyclePosition(remaining);
    var centuries := Least(remaining / 36_524, 3);
    remaining := remaining - centuries * 36_524;
    var groups := remaining / 1461;
    remaining := remaining % 1461;
    var years := Least(remaining / 365, 3);
    remaining := remaining - years * 365;
    year := 1 + (days / 146_097) * 400 + centuries * 100 + groups * 4 + years;
    ghost var c := Cycle(days / 146_097, centuries, groups, years);
    CycleDays(c);
    CycleYearFits(c);
    if remaining == 365 {
      CycleLeap(c);
    }
  }

  /** The month of a day of the year, and the days left in it. */
  method MonthOf(year: nat, dayOfYear: nat) returns (month: nat, remaining: nat)
    requires dayOfYear < YearLength(year)
    ensures 1 <= month <= 12 && remaining < MonthLength(year, month) && DaysBeforeMonth(year, month) + remaining == dayOfYear
  {
    var lengths := [31, if Leap(year) then 29 else 28, 31, 30, 31, 30, 31, 31, 30, 31, 30, 31];
    TwelveMonths(year);
    month, remaining := 1, dayOfYear;
    while month <= 12 && remaining >= lengths[month - 1]
      invariant 1 <= month <= 13 && DaysBeforeMonth(year, month) + remaining == dayOfYear
      decreases 13 - month
    {
      remaining := remaining - lengths[month - 1];
      month := month + 1;
    }
  }

  // ---------------------------------------------------------------- text

  function Digit(n: nat): char
    requires n < 10
  {
    '0' + n as char
  }

  /** The last `width` decimal digits. */
  function Padded(n: nat, width: nat): (r: string)
    ensures |r| == width
  {
    if width == 0 then "" else Padded(n / 10, width - 1) + [Digit(n % 10)]
  }

  function Value(text: string): int {
    if text == "" then 0 else 10 * Value(text[..|text| - 1]) + (text[|text| - 1] as int - '0' as int)
  }

  function Power10(width: nat): nat {
    if width == 0 then 1 else 10 * Power10(width - 1)
  }

  lemma {:induction false} PaddedReadsBack(n: nat, width: nat)
    requires n < Power10(width)
    ensures Value(Padded(n, width)) == n
  {
    if width > 0 {
      PaddedReadsBack(n / 10, width - 1);
      assert Padded(n, width)[..width - 1] == Padded(n / 10, width - 1);
    }
  }

  function Rendered(date: Date, clock: Clock): string {
    Padded(date.year, 4) + "-" + Padded(date.month, 2) + "-" + Padded(date.day, 2) + " "
    + Padded(clock.hour, 2) + ":" + Padded(clock.minute, 2) + ":" + Padded(clock.second, 2) + " UTC"
  }

  lemma {:induction false} PaddedIsDigits(n: nat, width: nat)
    ensures forall k :: 0 <= k < width ==> '0' <= Padded(n, width)[k] <= '9'
  {
    if width > 0 {
      PaddedIsDigits(n / 10, width - 1);
      assert Padded(n, width)[width - 1] == Digit(n % 10);
    }
  }

  lemma RenderedParts(date: Date, clock: Clock)
    ensures var text := Rendered(date, clock);
            && |text| == 23
            && text[..4] == Padded(date.year, 4) && text[5..7] == Padded(date.month, 2) && text[8..10] == Padded(date.day, 2)
            && text[11..13] == Padded(clock.hour, 2) && text[14..16] == Padded(clock.minute, 2) && text[17..19] == Padded(clock.second, 2)
  {
  }

  predicate ValidClock(clock: Clock) {
    clock.hour < 24 && clock.minute < 60 && clock.second < 60
  }

  /** The text determines the date and the time of day. */
  lemma RenderedReadsBack(date: Date, clock: Clock)
    requires ValidDate(date) && ValidClock(clock)
    ensures var text := Rendered(date, clock);
            && |text| == 23 && text != UNAVAILABLE
            && Value(text[..4]) == date.year && Value(text[5..7]) == date.month && Value(text[8..10]) == date.day
            && Value(text[11..13]) == clock.hour && Value(text[14..16]) == clock.minute && Value(text[17..19]) == clock.second
            && text[4] == text[7] == '-' && text[10] == ' ' && text[13] == text[16] == ':' && text[19..] == " UTC"
            && forall k :: 0 <= k < 19 && k !in {4, 7, 10, 13, 16} ==> '0' <= text[k] <= '9'
  {
    RenderedParts(date, clock);
    assert Power10(2) == 100 && Power10(4) == 10000;
    PaddedReadsBack(date.year, 4);
    PaddedReadsBack(date.month, 2);
    PaddedReadsBack(date.day, 2);
    PaddedReadsBack(clock.hour, 2);
    PaddedReadsBack(clock.minute, 2);
    PaddedReadsBack(clock.second, 2);
    RenderedIsDigits(date, clock);
  }

  lemma RenderedIsDigits(date: Date, clock: Clock)
    ensures var text := Rendered(date, clock);
            && text[4] == text[7] == '-' && text[10] == ' ' && text[13] == text[16] == ':' && text[19..] == " UTC"
            && forall k :: 0 <= k < 19 && k !in {4, 7, 10, 13, 16} ==> '0' <= text[k] <= '9'
  {
    PaddedIsDigits(date.year, 4);
    PaddedIsDigits(date.month, 2);
    PaddedIsDigits(date.day, 2);
    PaddedIsDigits(clock.hour, 2);
    PaddedIsDigits(clock.minute, 2);
    PaddedIsDigits(clock.second, 2);
  }

  /** The moment a date and a time of day stand for. */
  function Moment(date: Date, clock: Clock): int
    requires date.day >= 1
  {
    (DayNumber(date) - EPOCH_DAY) * SECONDS_PER_DAY + clock.hour * 3600 + clock.minute * 60 + clock.second
  }

  lemma MomentsAreDistinct(a: Date, s: Clock, b: Date, t: Clock)
    requires ValidDate(a) && ValidDate(b) && ValidClock(s) && ValidClock(t) && Moment(a, s) == Moment(b, t)
    ensures a == b && s == t
  {
    var x, y := s.hour * 3600 + s.minute * 60 + s.second, t.hour * 3600 + t.minute * 60 + t.second;
    assert 0 <= x < SECONDS_PER_DAY && 0 <= y < SECONDS_PER_DAY;
    assert DayNumber(a) == DayNumber(b);
    DatesAreDistinct(a, b);
  }

  /** The epoch is second zero. */
  lemma EpochIsZero()
    ensures Moment(Date(1970, 1, 1), Clock(0, 0, 0)) == 0
  {
    DaysBeforeYearFormula(1970);
  }

  function NextDay(date: Date): Date {
    if date.day < MonthLength(date.year, date.month) then date.(day := date.day + 1)
    else if date.month < 12 then Date(date.year, date.month + 1, 1)
    else Date(date.year + 1, 1, 1)
  }

  /** The date and the time of day that a calendar and a clock show one second later. */
  function NextSecond(date: Date, clock: Clock): (Date, Clock) {
    if clock.second < 59 then (date, clock.(second := clock.second + 1))
    else if clock.minute < 59 then (date, Clock(clock.hour, clock.minute + 1, 0))
    else if clock.hour < 23 then (date, Clock(clock.hour + 1, 0, 0))
    else (NextDay(date), Clock(0, 0, 0))
  }

  /** Second by second the count follows the calendar and the clock. */
  lemma SecondsAreCounted(date: Date, clock: Clock)
    requires ValidDate(date) && ValidClock(clock)
    ensures var (day, time) := NextSecond(date, clock); day.day >= 1 && ValidClock(time) && Moment(day, time) == Moment(date, clock) + 1
  {
    if date.day == MonthLength(date.year, date.month) && date.month == 12 {
      TwelveMonths(date.year);
    }
  }

  /** The days of the years 1 to 9999 are exactly those below the limit. */
  lemma DatesAreBelowLimit(date: Date)
    requires ValidDate(date)
    ensures DayNumber(date) < DAY_LIMIT
  {
    DayOfYearBound(date);
    DaysBeforeYearFormula(9999);
    if date.year < 9999 {
      YearsAccumulate(date.year, 9999);
    }
  }

  /** Text of the one valid date and time of day of the second, or the refusal if the years 1
      to 9999 have none. */
  method FormatUtcSeconds(seconds: int) returns (text: string)
    ensures (exists date, clock :: ValidDate(date) && ValidClock(clock) && Moment(date, clock) == seconds && text == Rendered(date, clock))
            || (text == UNAVAILABLE && forall date, clock :: ValidDate(date) && ValidClock(clock) ==> Moment(date, clock) != seconds)
  {
    var days := seconds / SECONDS_PER_DAY + EPOCH_DAY;
    if !(0 <= days < DAY_LIMIT) {
      forall date, clock | ValidDate(date) && ValidClock(clock) ensures Moment(date, clock) != seconds {
        DatesAreBelowLimit(date);
        SecondOfDay(DayNumber(date) - EPOCH_DAY, clock);
      }
      return UNAVAILABLE;
    }
    var year, dayOfYear := YearOf(days);
    var month, remaining := MonthOf(year, dayOfYear);
    var daySeconds := seconds % SECONDS_PER_DAY;
    var date, clock := Date(year, month, remaining + 1), Clock(daySeconds / 3600, daySeconds / 60 % 60, daySeconds % 60);
    TimeOfDay(daySeconds);
    assert DayNumber(date) == days;
    text := Rendered(date, clock);
  }

  lemma SecondOfDay(day: int, clock: Clock)
    requires ValidClock(clock)
    ensures (day * SECONDS_PER_DAY + clock.hour * 3600 + clock.minute * 60 + clock.second) / SECONDS_PER_DAY == day
  {
    var rest := clock.hour * 3600 + clock.minute * 60 + clock.second;
    assert 0 <= rest < SECONDS_PER_DAY;
  }

  lemma TimeOfDay(daySeconds: nat)
    requires daySeconds < SECONDS_PER_DAY
    ensures ValidClock(Clock(daySeconds / 3600, daySeconds / 60 % 60, daySeconds % 60))
    ensures daySeconds / 3600 * 3600 + daySeconds / 60 % 60 * 60 + daySeconds % 60 == daySeconds
  {
    var minutes := daySeconds / 60;
    assert minutes / 60 == daySeconds / 3600;
  }
}
