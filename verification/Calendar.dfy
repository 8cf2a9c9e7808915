/** The civil calendar and the monthly budget boundary of budgeting.py.
    Instants are whole microseconds since 1970-01-01 00:00 UTC; days are counted
    from 0001-01-01, which is day 0. */
module Calendar {
  import opened Common

  const MICROS_PER_DAY := 86_400_000_000
  const EPOCH_DAY := 719_162       // 1970-01-01
  const LAST_DAY := 3_652_058      // 9999-12-31, the last day a datetime can hold

  datatype Date = Date(year: int, month: int, day: int)

  predicate IsLeap(year: int) {
    year % 4 == 0 && (year % 100 != 0 || year % 400 == 0)
  }

  function DaysInMonth(year: int, month: int): int {
    if month == 2 then (if IsLeap(year) then 29 else 28)
    else if month == 4 || month == 6 || month == 9 || month == 11 then 30
    else 31
  }

  predicate ValidDate(date: Date) {
    1 <= date.year && 1 <= date.month <= 12 && 1 <= date.day <= DaysInMonth(date.year, date.month)
  }

  // ---- Dates to days, in closed form ---------------------------------------

  function DaysBeforeYear(year: int): int {
    365 * (year - 1) + (year - 1) / 4 - (year - 1) / 100 + (year - 1) / 400
  }

  function DaysBeforeMonth(year: int, month: int): int
    requires 1 <= month <= 12
  {
    [0, 31, 59, 90, 120, 151, 181, 212, 243, 273, 304, 334][month - 1]
    + (if month > 2 && IsLeap(year) then 1 else 0)
  }

  function DayOf(date: Date): int
    requires 1 <= date.month <= 12
  {
    DaysBeforeYear(date.year) + DaysBeforeMonth(date.year, date.month) + date.day - 1
  }

  // ---- Days to dates, month by month ---------------------------------------

  datatype Month = Month(year: int, number: int) {
    predicate Valid() { 1 <= year && 1 <= number <= 12 }
    function Serial(): int { 12 * year + number }
    function Next(): Month { if number == 12 then Month(year + 1, 1) else Month(year, number + 1) }
    function Previous(): Month { if number == 1 then Month(year - 1, 12) else Month(year, number - 1) }
    function Length(): int { DaysInMonth(year, number) }
  }

  const FIRST_MONTH := Month(1, 1)

  /** The day a month begins on, adding up the months before it. */
  function MonthStart(month: Month): (day: nat)
    requires month.Valid()
    decreases month.Serial()
  {
    if month == FIRST_MONTH then 0 else MonthStart(month.Previous()) + month.Previous().Length()
  }

  predicate InMonth(day: int, month: Month)
    requires month.Valid()
  {
    MonthStart(month) <= day < MonthStart(month) + month.Length()
  }

  function MonthFrom(day: nat, from: Month): (month: Month)
    requires from.Valid() && MonthStart(from) <= day
    ensures month.Valid() && InMonth(day, month)
    decreases day - MonthStart(from)
  {
    if day < MonthStart(from) + from.Length() then from else MonthFrom(day, from.Next())
  }

  function MonthOf(day: nat): (month: Month)
    ensures month.Valid() && InMonth(day, month)
  {
    MonthFrom(day, FIRST_MONTH)
  }

  function DateOf(day: nat): Date {
    var month := MonthOf(day);
    Date(month.year, month.number, day - MonthStart(month) + 1)
  }

  lemma {:induction false} MonthStartGrows(a: Month, b: Month)
    requires a.Valid() && b.Valid() && a.Serial() < b.Serial()
    ensures MonthStart(a) + a.Length() <= MonthStart(b)
    decreases b.Serial()
  {
    if a != b.Previous() {
      MonthStartGrows(a, b.Previous());
    }
  }

  lemma MonthOfUnique(day: nat, month: Month)
    requires month.Valid() && InMonth(day, month)
    ensures MonthOf(day) == month
  {
    var found := MonthOf(day);
    if found.Serial() < month.Serial() {
      MonthStartGrows(found, month);
    } else if month.Serial() < found.Serial() {
      MonthStartGrows(month, found);
    }
  }

  lemma YearLength(year: int)
    ensures DaysBeforeYear(year + 1) == DaysBeforeYear(year) + (if IsLeap(year) then 366 else 365)
  {
    FourthYears(year);
    Centuries(year);
    FourthCenturies(year);
    RulesNest(year);
  }

  lemma FourthYears(year: int)
    ensures year / 4 == (year - 1) / 4 + if year % 4 == 0 then 1 else 0
  {
  }

  lemma Centuries(year: int)
    ensures year / 100 == (year - 1) / 100 + if year % 100 == 0 then 1 else 0
  {
  }

  lemma FourthCenturies(year: int)
    ensures year / 400 == (year - 1) / 400 + if year % 400 == 0 then 1 else 0
  {
  }

  lemma RulesNest(year: int)
    ensures year % 400 == 0 ==> year % 100 == 0
    ensures year % 100 == 0 ==> year % 4 == 0
  {
  }

  /** The running total of month lengths is the closed formula, leap years included. */
  lemma {:induction false} MonthStartClosedForm(month: Month)
    requires month.Valid()
    ensures MonthStart(month) == DayOf(Date(month.year, month.number, 1))
    decreases month.Serial()
  {
    if month != FIRST_MONTH {
      var previous := month.Previous();
      MonthStartClosedForm(previous);
      assert MonthStart(month) == MonthStart(previous) + previous.Length();
      if month.number == 1 {
        YearLength(previous.year);
      }
    }
  }

  /** Day numbers and valid dates are in bijection. */
  lemma DateOfInvertsDayOf(date: Date)
    requires ValidDate(date)
    ensures DayOf(date) >= 0 && DateOf(DayOf(date)) == date
  {
    var month := Month(date.year, date.month);
    MonthStartClosedForm(month);
    MonthOfUnique(DayOf(date), month);
  }

  lemma DayOfInvertsDateOf(day: nat)
    ensures ValidDate(DateOf(day)) && DayOf(DateOf(day)) == day
  {
    MonthStartClosedForm(MonthOf(day));
  }

  // ---- The monthly period ---------------------------------------------------

  function Min(a: int, b: int): int { if a < b then a else b }
  function Max(a: int, b: int): int { if a < b then b else a }

  function ClampDay(resetDay: int): int { Max(1, Min(resetDay, 31)) }

  function DayNumber(now: int): int { now / MICROS_PER_DAY + EPOCH_DAY }

  function Midnight(day: int): int { (day - EPOCH_DAY) * MICROS_PER_DAY }

  predicate Representable(now: int) {
    0 <= DayNumber(now) <= LAST_DAY
  }

  /** The day on which the current budget period began, by the date arithmetic
      of the budget gate. */
  function PeriodStartDay(day: nat, resetDay: int): Option<int> {
    var reset := ClampDay(resetDay);
    var current := DateOf(day);
    DayOfInvertsDateOf(day);
    var currentReset := Min(reset, DaysInMonth(current.year, current.month));
    if current.day < currentReset then
      var previousLast := DayOf(current.(day := 1)) - 1;
      if previousLast < 0 then None
      else
        var previous := DateOf(previousLast);
        Some(DayOf(previous.(day := Min(reset, DaysInMonth(previous.year, previous.month)))))
    else
      Some(DayOf(current.(day := currentReset)))
  }

  /** The instant the current budget period began; None where the datetime
      arithmetic leaves the years 1 to 9999. */
  function MonthlyPeriodStart(now: int, resetDay: int): Option<int> {
    if !Representable(now) then None
    else
      match PeriodStartDay(DayNumber(now), resetDay)
      case Some(day) => Some(Midnight(day))
      case None => None
  }

  /** The day in a month on which the period turns over: the reset day, or the
      month's last day when the month is shorter. */
  function ResetDayIn(month: Month, resetDay: int): (day: nat)
    requires month.Valid()
    ensures InMonth(day, month)
  {
    MonthStart(month) + Min(ClampDay(resetDay), month.Length()) - 1
  }

  /** Boundaries are the midnights (UTC) of every month's reset day. */
  ghost predicate IsBoundary(instant: int, resetDay: int) {
    exists month: Month :: month.Valid() && instant == Midnight(ResetDayIn(month, resetDay))
  }

  ghost predicate GreatestBoundary(b: int, now: int, resetDay: int) {
    IsBoundary(b, resetDay) && b <= now && forall c | IsBoundary(c, resetDay) && c <= now :: c <= b
  }

  lemma MidnightOrder(now: int, day: int)
    ensures Midnight(day) <= now <==> day <= DayNumber(now)
  {
    var q := now / MICROS_PER_DAY;
    assert q * MICROS_PER_DAY <= now < (q + 1) * MICROS_PER_DAY;
  }

  lemma DayOfMidnight(day: int)
    ensures DayNumber(Midnight(day)) == day
  {
  }

  lemma ResetDaysGrow(a: Month, b: Month, resetDay: int)
    requires a.Valid() && b.Valid() && a.Serial() < b.Serial()
    ensures ResetDayIn(a, resetDay) < ResetDayIn(b, resetDay)
  {
    MonthStartGrows(a, b);
  }

  lemma DayInMonth(month: Month, day: int)
    requires month.Valid()
    ensures DayOf(Date(month.year, month.number, day)) == MonthStart(month) + day - 1
  {
    MonthStartClosedForm(month);
  }

  /** The month whose reset day opens the period that `day` belongs to. */
  function OpeningMonth(day: nat, resetDay: int): (month: Month)
    ensures ResetDayIn(MonthOf(day), resetDay) <= day || MonthOf(day) != FIRST_MONTH ==> month.Valid()
  {
    if ResetDayIn(MonthOf(day), resetDay) <= day then MonthOf(day) else MonthOf(day).Previous()
  }

  /** No reset day up to `day` is later than the opening month's. */
  lemma OpeningMonthIsLatest(day: nat, resetDay: int, month: Month)
    requires month.Valid() && ResetDayIn(month, resetDay) <= day
    ensures OpeningMonth(day, resetDay).Valid()
    ensures ResetDayIn(month, resetDay) <= ResetDayIn(OpeningMonth(day, resetDay), resetDay) <= day
  {
    var current, latest := MonthOf(day), OpeningMonth(day, resetDay);
    if current.Serial() < month.Serial() {
      MonthStartGrows(current, month);
    } else if latest.Valid() && month.Serial() < latest.Serial() {
      ResetDaysGrow(month, latest, resetDay);
    }
  }

  lemma CurrentMonthStart(day: nat, resetDay: int)
    requires ResetDayIn(MonthOf(day), resetDay) <= day
    ensures PeriodStartDay(day, resetDay) == Some(ResetDayIn(MonthOf(day), resetDay))
  {
    var month := MonthOf(day);
    DayInMonth(month, Min(ClampDay(resetDay), month.Length()));
  }

  lemma PreviousMonthStart(day: nat, resetDay: int)
    requires day < ResetDayIn(MonthOf(day), resetDay)
    ensures PeriodStartDay(day, resetDay) ==
            if MonthOf(day) == FIRST_MONTH then None else Some(ResetDayIn(MonthOf(day).Previous(), resetDay))
  {
    hide DayOf, MonthOf;
    var month := MonthOf(day);
    DayInMonth(month, 1);
    if month != FIRST_MONTH {
      var previous := month.Previous();
      MonthOfUnique(MonthStart(month) - 1, previous);
      DayInMonth(previous, Min(ClampDay(resetDay), previous.Length()));
    }
  }

  /** The date arithmetic of the budget gate arrives at the opening month's reset day. */
  lemma PeriodStartByMonth(day: nat, resetDay: int)
    ensures var month := OpeningMonth(day, resetDay);
            PeriodStartDay(day, resetDay) == if month.Valid() then Some(ResetDayIn(month, resetDay)) else None
  {
    if ResetDayIn(MonthOf(day), resetDay) <= day {
      CurrentMonthStart(day, resetDay);
    } else {
      PreviousMonthStart(day, resetDay);
    }
  }

  lemma OpeningMonthReached(day: nat, resetDay: int)
    requires OpeningMonth(day, resetDay).Valid()
    ensures ResetDayIn(OpeningMonth(day, resetDay), resetDay) <= day
  {
  }

  /** `MonthlyPeriodStart` is the greatest boundary not after `now`; it fails
      exactly where a datetime cannot represent `now` or no boundary precedes it. */
  lemma PeriodStartIsGreatestBoundary(now: int, resetDay: int)
    ensures match MonthlyPeriodStart(now, resetDay)
              case Some(b) => GreatestBoundary(b, now, resetDay)
              case None => !Representable(now) || !exists c :: IsBoundary(c, resetDay) && c <= now
  {
    if Representable(now) {
      var day := DayNumber(now);
      var opening := OpeningMonth(day, resetDay);
      PeriodStartByMonth(day, resetDay);
      forall c | IsBoundary(c, resetDay) && c <= now
        ensures opening.Valid() && c <= Midnight(ResetDayIn(opening, resetDay))
      {
        var month: Month :| month.Valid() && c == Midnight(ResetDayIn(month, resetDay));
        MidnightOrder(now, ResetDayIn(month, resetDay));
        OpeningMonthIsLatest(day, resetDay, month);
      }
      if opening.Valid() {
        OpeningMonthReached(day, resetDay);
        MidnightOrder(now, ResetDayIn(opening, resetDay));
      }
    }
  }

  lemma PeriodStartMonotone(s: int, t: int, resetDay: int)
    requires s <= t
    ensures var a, b := MonthlyPeriodStart(s, resetDay), MonthlyPeriodStart(t, resetDay);
            a.Some? && b.Some? ==> a.value <= b.value
  {
    PeriodStartIsGreatestBoundary(s, resetDay);
    PeriodStartIsGreatestBoundary(t, resetDay);
  }

  lemma PeriodStartIdempotent(now: int, resetDay: int)
    requires MonthlyPeriodStart(now, resetDay).Some?
    ensures MonthlyPeriodStart(MonthlyPeriodStart(now, resetDay).value, resetDay) == MonthlyPeriodStart(now, resetDay)
  {
    var opening := OpeningMonth(DayNumber(now), resetDay);
    PeriodStartByMonth(DayNumber(now), resetDay);
    OpeningMonthReached(DayNumber(now), resetDay);
    var first := ResetDayIn(opening, resetDay);
    DayOfMidnight(first);
    MonthOfUnique(first, opening);
    PeriodStartByMonth(first, resetDay);
  }

  /** The filter `started_at >= period start of t` keeps exactly the instants of
      t's own period, among those not after t. */
  lemma FilterKeepsExactlyThisPeriod(s: int, t: int, resetDay: int)
    requires s <= t
    ensures var a, b := MonthlyPeriodStart(s, resetDay), MonthlyPeriodStart(t, resetDay);
            a.Some? && b.Some? ==> (s >= b.value <==> a == b)
  {
    var a, b := MonthlyPeriodStart(s, resetDay), MonthlyPeriodStart(t, resetDay);
    PeriodStartIsGreatestBoundary(s, resetDay);
    PeriodStartIsGreatestBoundary(t, resetDay);
    if a.Some? && b.Some? {
      BoundariesSplitTime(s, t, a.value, b.value, resetDay);
    }
  }

  lemma BoundariesSplitTime(s: int, t: int, a: int, b: int, resetDay: int)
    requires s <= t && GreatestBoundary(a, s, resetDay) && GreatestBoundary(b, t, resetDay)
    ensures s >= b <==> a == b
  {
  }

  const END_OF_TIME := (LAST_DAY + 1 - EPOCH_DAY) * MICROS_PER_DAY

  /** Every instant from 1970 to 9999 has a period. */
  lemma PeriodExists(now: int, resetDay: int)
    requires 0 <= now < END_OF_TIME
    ensures MonthlyPeriodStart(now, resetDay).Some?
  {
    assert ResetDayIn(FIRST_MONTH, resetDay) < 31 <= DayNumber(now);
    OpeningMonthIsLatest(DayNumber(now), resetDay, FIRST_MONTH);
    PeriodStartByMonth(DayNumber(now), resetDay);
  }

  /** The day-number constants are the dates they stand for. */
  lemma CalendarAnchors()
    ensures DayOf(Date(1970, 1, 1)) == EPOCH_DAY
    ensures DayOf(Date(9999, 12, 31)) == LAST_DAY
    ensures DayOf(Date(1, 1, 1)) == 0
  {
  }

  /** The day of a month on which a period begins: the reset day itself, but
      the first for anything earlier, and the month's last for anything later. */
  predicate IsResetDate(date: Date, resetDay: int) {
    && ValidDate(date)
    && (resetDay < 1 ==> date.day == 1)
    && (1 <= resetDay <= DaysInMonth(date.year, date.month) ==> date.day == resetDay)
    && (resetDay > DaysInMonth(date.year, date.month) ==> date.day == DaysInMonth(date.year, date.month))
  }

  /** Microseconds from the beginning of 1970 to the midnight a date begins with. */
  function MidnightOf(date: Date): int
    requires 1 <= date.month <= 12
  {
    (DayOf(date) - DayOf(Date(1970, 1, 1))) * (24 * 60 * 60 * 1_000_000)
  }

  lemma MidnightsAgree(date: Date)
    requires 1 <= date.month <= 12
    ensures MidnightOf(date) == Midnight(DayOf(date))
  {
    CalendarAnchors();
    DayLength();
  }

  lemma DayLength()
    ensures 24 * 60 * 60 * 1_000_000 == MICROS_PER_DAY
  {
  }

  lemma ResetDateOf(month: Month, resetDay: int)
    requires month.Valid()
    ensures var date := Date(month.year, month.number, Min(ClampDay(resetDay), month.Length()));
            IsResetDate(date, resetDay) && DayOf(date) == ResetDayIn(month, resetDay)
  {
    DayInMonth(month, Min(ClampDay(resetDay), month.Length()));
  }

  lemma ResetDateIsUnique(date: Date, resetDay: int)
    requires IsResetDate(date, resetDay)
    ensures date.day == Min(ClampDay(resetDay), Month(date.year, date.month).Length())
  {
  }

  /** The boundaries are the midnights of the reset dates. */
  lemma BoundaryDates(instant: int, resetDay: int)
    ensures IsBoundary(instant, resetDay) <==> exists date :: IsResetDate(date, resetDay) && instant == MidnightOf(date)
  {
    hide DayOf, DaysInMonth, MidnightOf, Midnight, ResetDayIn, ClampDay, Min;
    if IsBoundary(instant, resetDay) {
      var month: Month :| month.Valid() && instant == Midnight(ResetDayIn(month, resetDay));
      ResetDateOf(month, resetDay);
      var date := Date(month.year, month.number, Min(ClampDay(resetDay), month.Length()));
      MidnightsAgree(date);
      assert IsResetDate(date, resetDay) && instant == MidnightOf(date);
    }
    if date :| IsResetDate(date, resetDay) && instant == MidnightOf(date) {
      var month := Month(date.year, date.month);
      ResetDateIsUnique(date, resetDay);
      ResetDateOf(month, resetDay);
      MidnightsAgree(date);
      assert month.Valid() && instant == Midnight(ResetDayIn(month, resetDay));
    }
  }

  /** In dates: a period starts with the latest reset date's midnight not after now. */
  lemma PeriodStartInDates(now: int, resetDay: int)
    ensures match MonthlyPeriodStart(now, resetDay)
            case None => !Representable(now) || !exists date :: IsResetDate(date, resetDay) && MidnightOf(date) <= now
            case Some(b) =>
              && b <= now && (exists date :: IsResetDate(date, resetDay) && b == MidnightOf(date))
              && forall date | IsResetDate(date, resetDay) && MidnightOf(date) <= now :: MidnightOf(date) <= b
  {
    hide MonthlyPeriodStart, IsBoundary, DayOf, DaysInMonth, Representable;
    PeriodStartIsGreatestBoundary(now, resetDay);
    forall date | IsResetDate(date, resetDay) ensures IsBoundary(MidnightOf(date), resetDay) {
      BoundaryDates(MidnightOf(date), resetDay);
    }
    if MonthlyPeriodStart(now, resetDay).Some? {
      BoundaryDates(MonthlyPeriodStart(now, resetDay).value, resetDay);
    }
  }
}
