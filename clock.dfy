/** Relative age of a timestamp, as both `getTimeAgo` helpers compute it
    (`client/pages/Map.tsx` and `client/pages/Feed.tsx`): whole hours by
    `Math.floor`, then whole days from the hours. Times are integer
    milliseconds since the epoch. */
module Clock {

  const HourMs: int := 1000 * 60 * 60
  const DayMs: int := 24 * HourMs

  /** The three shapes of label: under an hour, hours within a day, days. */
  datatype Age = JustNow | HoursAgo(hours: nat) | DaysAgo(days: nat)

  /** `Math.floor(n / d)` for a positive divisor. Dafny's `/` on `int` rounds
      toward negative infinity when the divisor is positive, so it is the
      same value also for a timestamp in the future. */
  function FloorDiv(n: int, d: int): (q: int)
    requires d > 0
    ensures q * d <= n < (q + 1) * d
  {
    n / d
  }

  /** The age shown for `elapsed` milliseconds: "Just now" below one hour
      (including any negative difference), whole hours below a day, and
      otherwise whole days, each bucket exact to its unit. */
  function AgeOf(elapsed: int): (a: Age)
    ensures a.JustNow? <==> elapsed < HourMs
    ensures a.HoursAgo? ==> 1 <= a.hours < 24 && a.hours * HourMs <= elapsed < (a.hours + 1) * HourMs
    ensures a.DaysAgo? ==> a.days >= 1 && a.days * DayMs <= elapsed < (a.days + 1) * DayMs
  {
    var h := FloorDiv(elapsed, HourMs);
    if h < 1 then JustNow
    else if h < 24 then HoursAgo(h)
    else
      var d := FloorDiv(h, 24);
      assert d * DayMs <= h * HourMs;
      assert (h + 1) * HourMs <= (d + 1) * DayMs;
      DaysAgo(d)
  }

  /** Older is never shown as younger: the age is monotone in the elapsed
      time. */
  lemma AgeMonotone(e1: int, e2: int)
    requires e1 <= e2
    ensures Rank(AgeOf(e1)) <= Rank(AgeOf(e2))
  {
    var a1, a2 := AgeOf(e1), AgeOf(e2);
    if a1.HoursAgo? && a2.HoursAgo? {
      UnitOrder(a1.hours, a2.hours, HourMs);
    } else if a1.HoursAgo? && a2.DaysAgo? {
      assert a1.hours * HourMs < 24 * HourMs <= a2.days * DayMs;
    } else if a1.DaysAgo? && a2.DaysAgo? {
      UnitOrder(a1.days, a2.days, DayMs);
    }
  }

  /** Whole units below the next unit up are no more than it. */
  lemma UnitOrder(x: int, y: int, unit: int)
    requires unit > 0 && x * unit < (y + 1) * unit
    ensures x * unit <= y * unit
  {
    assert (x - y - 1) * unit == x * unit - (y + 1) * unit < 0;
    assert x - y - 1 < 0;
    assert (y - x) * unit >= 0;
  }

  /** The lower end, in milliseconds, of the bucket an age stands for. */
  function Rank(a: Age): int {
    match a
    case JustNow => 0
    case HoursAgo(h) => h * HourMs
    case DaysAgo(d) => d * DayMs
  }
}
