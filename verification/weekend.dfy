/** The two weekend policies of the `Weekend` enum: which days of the week are
    not business days. */
module Weekend {

  /** `java.time.DayOfWeek`, in ISO order (Monday first). */
  datatype Weekday = Monday | Tuesday | Wednesday | Thursday | Friday | Saturday | Sunday

  /** Zero-based ISO position of a weekday: Monday is 0, Sunday is 6. */
  function Ordinal(w: Weekday): (n: nat)
    ensures n < 7
  {
    match w
    case Monday => 0
    case Tuesday => 1
    case Wednesday => 2
    case Thursday => 3
    case Friday => 4
    case Saturday => 5
    case Sunday => 6
  }

  /** The weekday at a zero-based ISO position; inverse of `Ordinal`. */
  function FromOrdinal(n: int): (w: Weekday)
    requires 0 <= n < 7
    ensures Ordinal(w) == n
  {
    if n == 0 then Monday
    else if n == 1 then Tuesday
    else if n == 2 then Wednesday
    else if n == 3 then Thursday
    else if n == 4 then Friday
    else if n == 5 then Saturday
    else Sunday
  }

  /** The day that follows `w` in the weekly cycle (Sunday is followed by Monday). */
  function Next(w: Weekday): (n: Weekday)
    ensures Ordinal(n) == (Ordinal(w) + 1) % 7
  {
    FromOrdinal((Ordinal(w) + 1) % 7)
  }

  /** The constants of the `Weekend` enum. */
  datatype Policy = FriSat | SatSun

  /** The weekend-day set a policy carries. */
  function WeekendDays(p: Policy): set<Weekday> {
    match p
    case FriSat => {Friday, Saturday}
    case SatSun => {Saturday, Sunday}
  }

  /** Every policy's weekend is two distinct, consecutive days. */
  lemma WeekendIsTwoConsecutiveDays(p: Policy)
    ensures |WeekendDays(p)| == 2
    ensures exists w :: WeekendDays(p) == {w, Next(w)}
  {
    match p
    case FriSat => assert WeekendDays(p) == {Friday, Next(Friday)};
    case SatSun => assert WeekendDays(p) == {Saturday, Next(Saturday)};
  }

  /** Membership test used by the date adjustment. */
  predicate IsWeekendDay(p: Policy, w: Weekday) {
    w in WeekendDays(p)
  }

  /** The days of the week on which settlement may take place. */
  function BusinessDays(p: Policy): set<Weekday> {
    set w: Weekday | !IsWeekendDay(p, w)
  }

  /** The business day that immediately follows a policy's weekend. */
  function ResumeDay(p: Policy): Weekday {
    match p
    case FriSat => Sunday
    case SatSun => Monday
  }

  /** Number of day-steps from `w` forward to the policy's resume day. */
  function DaysToResume(p: Policy, w: Weekday): (n: nat)
    ensures n < 7
    ensures n == 0 <==> w == ResumeDay(p)
  {
    (Ordinal(ResumeDay(p)) - Ordinal(w)) % 7
  }

  /** Every policy leaves exactly five business days in the week. */
  lemma FiveBusinessDays(p: Policy)
    ensures |BusinessDays(p)| == 5
  {
    var all := {Monday, Tuesday, Wednesday, Thursday, Friday, Saturday, Sunday};
    forall w: Weekday
      ensures w in all
    {
      match w
      case Monday => case Tuesday => case Wednesday => case Thursday =>
      case Friday => case Saturday => case Sunday =>
    }
    assert BusinessDays(p) == all - WeekendDays(p);
    match p
    case FriSat =>
      assert BusinessDays(p) == {Monday, Tuesday, Wednesday, Thursday, Sunday};
    case SatSun =>
      assert BusinessDays(p) == {Monday, Tuesday, Wednesday, Thursday, Friday};
  }

  /** A weekend is never longer than two days: of three consecutive days at
      least one is a business day. */
  lemma NoThreeDayWeekend(p: Policy, w: Weekday)
    ensures !(IsWeekendDay(p, w) && IsWeekendDay(p, Next(w)) && IsWeekendDay(p, Next(Next(w))))
  {
  }

  /** The weekend days of a policy are exactly the one or two days right before
      its resume day; so a weekend day reaches the resume day in one or two steps
      and every step on the way is one day closer. */
  lemma WeekendPrecedesResumeDay(p: Policy, w: Weekday)
    ensures IsWeekendDay(p, w) <==> DaysToResume(p, w) == 1 || DaysToResume(p, w) == 2
    ensures IsWeekendDay(p, w) ==> DaysToResume(p, Next(w)) == DaysToResume(p, w) - 1
  {
    match p
    case FriSat =>
      assert WeekendDays(p) == {Friday, Saturday};
      match w {
        case Monday => case Tuesday => case Wednesday => case Thursday =>
        case Friday => case Saturday => case Sunday =>
      }
    case SatSun =>
      assert WeekendDays(p) == {Saturday, Sunday};
      match w {
        case Monday => case Tuesday => case Wednesday => case Thursday =>
        case Friday => case Saturday => case Sunday =>
      }
  }
}
