/** `DateUtil.determineNextAllowableDate`: move a settlement date forward, one
    day at a time, until it is not a weekend day of the given policy. */
module DateUtil {
  import opened Wrappers
  import opened Weekend

  /** A calendar date as its epoch-day number: 1970-01-01 is day 0, the number
      `java.time.LocalDate.toEpochDay` gives. Earlier dates are negative. */
  type Date = int

  /** `LocalDate.MIN` (-999999999-01-01) and `LocalDate.MAX` (+999999999-12-31)
      as epoch days. */
  const LocalDateMin: Date := -365243219162
  const LocalDateMax: Date := 365241780471

  /** The dates a `java.time.LocalDate` can hold. */
  type LocalDate = d: Date | LocalDateMin <= d <= LocalDateMax

  // Dates the unit tests use.
  const August11th2017: LocalDate := 17389
  const August12th2017: LocalDate := 17390
  const August13th2017: LocalDate := 17391
  const August14th2017: LocalDate := 17392
  const August15th2017: LocalDate := 17393

  /** `LocalDate.getDayOfWeek`: 1970-01-01 was a Thursday (ordinal 3), and the
      weekday advances by one with every day. Dafny's `%` is Euclidean, so this
      agrees with java.time's floor modulus for dates before 1970 as well. */
  function DayOfWeek(d: Date): (w: Weekday)
    ensures Ordinal(w) == (d + 3) % 7
  {
    FromOrdinal((d + 3) % 7)
  }

  /** The weekday of the following date is the following weekday. */
  lemma DayOfWeekAdvances(d: Date)
    ensures DayOfWeek(d + 1) == Next(DayOfWeek(d))
  {
    var k := (d + 3) % 7;
    assert d + 3 == 7 * ((d + 3) / 7) + k;
    if k < 6 {
      assert (d + 4) % 7 == k + 1;
    } else {
      assert d + 4 == 7 * ((d + 3) / 7 + 1);
      assert (d + 4) % 7 == 0;
    }
  }

  /** `isDayFallingOnWeekEnd`: the date's weekday is in the policy's weekend set. */
  predicate IsDayFallingOnWeekend(p: Policy, d: Date) {
    IsWeekendDay(p, DayOfWeek(d))
  }

  /** `r` is the first business day on or after `d`: it is not a weekend day,
      and every date from `d` up to (not including) `r` is one. */
  ghost predicate IsFirstBusinessDayFrom(p: Policy, d: Date, r: Date) {
    && d <= r
    && !IsDayFallingOnWeekend(p, r)
    && forall x :: d <= x < r ==> IsDayFallingOnWeekend(p, x)
  }

  /** Three consecutive dates are never all weekend days. */
  lemma NoThreeConsecutiveWeekendDays(p: Policy, d: Date)
    ensures !(IsDayFallingOnWeekend(p, d) && IsDayFallingOnWeekend(p, d + 1) && IsDayFallingOnWeekend(p, d + 2))
  {
    DayOfWeekAdvances(d);
    DayOfWeekAdvances(d + 1);
    NoThreeDayWeekend(p, DayOfWeek(d));
  }

  /** The pure adjustment: the first business day on or after `d`, reached in
      at most two one-day steps. */
  function NextAllowableDate(d: Date, p: Policy): (r: Date)
    ensures IsFirstBusinessDayFrom(p, d, r)
    ensures r <= d + 2
    decreases DaysToResume(p, DayOfWeek(d))
  {
    if IsDayFallingOnWeekend(p, d) then
      DayOfWeekAdvances(d);
      WeekendPrecedesResumeDay(p, DayOfWeek(d));
      NoThreeConsecutiveWeekendDays(p, d);
      NextAllowableDate(d + 1, p)
    else
      d
  }

  /** The argument `checkNotNull` rejected, or the `DateTimeException` that
      `plusDays` throws when the next day is past `LocalDate.MAX`. */
  datatype DateError = NullInputDate | NullWeekend | DateOutOfRange

  /** `determineNextAllowableDate`: both arguments are checked for null (the
      date first), then the date is incremented while it falls on a weekend;
      an increment past `LocalDate.MAX` fails. */
  method DetermineNextAllowableDate(localDate: Option<LocalDate>, weekend: Option<Policy>)
    returns (r: Result<LocalDate, DateError>)
    ensures localDate.None? ==> r == Failure(NullInputDate)
    ensures localDate.Some? && weekend.None? ==> r == Failure(NullWeekend)
    ensures localDate.Some? && weekend.Some? ==>
              (r.Success? <==> NextAllowableDate(localDate.value, weekend.value) <= LocalDateMax)
    ensures localDate.Some? && weekend.Some? && r.Success? ==>
              && IsFirstBusinessDayFrom(weekend.value, localDate.value, r.value)
              && r.value <= localDate.value + 2
              && r.value == NextAllowableDate(localDate.value, weekend.value)
    ensures localDate.Some? && weekend.Some? && r.Failure? ==>
              r.error == DateOutOfRange && localDate.value == LocalDateMax && weekend.value == FriSat
  {
    if localDate.None? {
      return Failure(NullInputDate);
    }
    if weekend.None? {
      return Failure(NullWeekend);
    }
    var d, p := localDate.value, weekend.value;
    var t: LocalDate := d;
    while IsDayFallingOnWeekend(p, t)
      invariant d <= t <= d + 2
      invariant forall x :: d <= x < t ==> IsDayFallingOnWeekend(p, x)
      decreases d + 2 - t
    {
      NoThreeConsecutiveWeekendDays(p, d);
      if t == LocalDateMax {
        NextAllowableDateInRange(p, d);
        return Failure(DateOutOfRange);
      }
      t := t + 1;
    }
    FirstBusinessDayIsNextAllowableDate(p, d, t);
    return Success(t);
  }

  /** `LocalDate.MAX` is a Friday, and the day before it a Thursday. */
  lemma LocalDateMaxIsFriday()
    ensures DayOfWeek(LocalDateMax) == Friday
    ensures DayOfWeek(LocalDateMax - 1) == Thursday
  {
    assert LocalDateMax + 3 == 7 * 52177397210 + 4;
  }

  /** The adjustment leaves the `LocalDate` range only from `LocalDate.MAX`
      under FRI_SAT, where that Friday would move to the Sunday after it. */
  lemma NextAllowableDateInRange(p: Policy, d: LocalDate)
    ensures NextAllowableDate(d, p) > LocalDateMax <==> d == LocalDateMax && p == FriSat
  {
    LocalDateMaxIsFriday();
    if d >= LocalDateMax - 1 {
      FriSatShifts(d);
      SatSunShifts(d);
    }
  }

  /** The first business day on or after a date is unique, so any date with
      that property is the adjusted date. */
  lemma {:induction false} FirstBusinessDayIsNextAllowableDate(p: Policy, d: Date, r: Date)
    ensures IsFirstBusinessDayFrom(p, d, r) <==> r == NextAllowableDate(d, p)
  {
    var n := NextAllowableDate(d, p);
    if IsFirstBusinessDayFrom(p, d, r) {
      // Each of the two dates is a business day, and each lies in the
      // other's run of weekend days if it comes first.
      assert r < n ==> IsDayFallingOnWeekend(p, r);
      assert n < r ==> IsDayFallingOnWeekend(p, n);
    }
  }

  /** A business day is returned unchanged, and only a business day is. */
  lemma BusinessDayUnchanged(p: Policy, d: Date)
    ensures NextAllowableDate(d, p) == d <==> !IsDayFallingOnWeekend(p, d)
  {
  }

  /** Adjusting an adjusted date changes nothing. */
  lemma NextAllowableDateIdempotent(p: Policy, d: Date)
    ensures NextAllowableDate(NextAllowableDate(d, p), p) == NextAllowableDate(d, p)
  {
    BusinessDayUnchanged(p, NextAllowableDate(d, p));
  }

  /** The adjustment moves a weekend date exactly as many days as remain
      until the policy's resume day, and leaves a business day alone. */
  lemma {:induction false} NextAllowableDateSteps(p: Policy, d: Date)
    ensures NextAllowableDate(d, p) ==
            d + (if IsDayFallingOnWeekend(p, d) then DaysToResume(p, DayOfWeek(d)) else 0)
    decreases DaysToResume(p, DayOfWeek(d))
  {
    if IsDayFallingOnWeekend(p, d) {
      DayOfWeekAdvances(d);
      WeekendPrecedesResumeDay(p, DayOfWeek(d));
      WeekendPrecedesResumeDay(p, DayOfWeek(d + 1));
      NextAllowableDateSteps(p, d + 1);
    }
  }

  /** Under SAT_SUN a Saturday moves two days and a Sunday one day (both to
      Monday); every other day stays. */
  lemma SatSunShifts(d: Date)
    ensures DayOfWeek(d) == Saturday ==> NextAllowableDate(d, SatSun) == d + 2
    ensures DayOfWeek(d) == Sunday ==> NextAllowableDate(d, SatSun) == d + 1
    ensures DayOfWeek(d) != Saturday && DayOfWeek(d) != Sunday ==> NextAllowableDate(d, SatSun) == d
  {
    NextAllowableDateSteps(SatSun, d);
  }

  /** Under FRI_SAT a Friday moves two days and a Saturday one day (both to
      Sunday); every other day stays. */
  lemma FriSatShifts(d: Date)
    ensures DayOfWeek(d) == Friday ==> NextAllowableDate(d, FriSat) == d + 2
    ensures DayOfWeek(d) == Saturday ==> NextAllowableDate(d, FriSat) == d + 1
    ensures DayOfWeek(d) != Friday && DayOfWeek(d) != Saturday ==> NextAllowableDate(d, FriSat) == d
  {
    NextAllowableDateSteps(FriSat, d);
  }

  /** The dated cases of the unit tests: 2017-08-13 is a Sunday, a Tuesday is
      kept, and the Friday/Saturday/Sunday of that week move as expected. */
  lemma TestDateExamples()
    ensures DayOfWeek(August13th2017) == Sunday
    ensures DayOfWeek(August15th2017) == Tuesday
    ensures NextAllowableDate(August15th2017, SatSun) == August15th2017
    ensures NextAllowableDate(August13th2017, SatSun) == August14th2017
    ensures NextAllowableDate(August12th2017, SatSun) == August14th2017
    ensures NextAllowableDate(August11th2017, FriSat) == August13th2017
    ensures NextAllowableDate(August12th2017, FriSat) == August13th2017
  {
    SatSunShifts(August13th2017);
    SatSunShifts(August12th2017);
    FriSatShifts(August11th2017);
    FriSatShifts(August12th2017);
  }
}
