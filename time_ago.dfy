/**
 * The "time ago" labels of the dashboards' activity lists (`getTimeAgo`).
 * The input is the elapsed time `now - date` in milliseconds, as JavaScript's
 * date subtraction gives it; it may be negative for a date in the future.
 * `Math.floor(x / d)` for a positive divisor `d` is Dafny's `x / d`.
 */
module TimeAgo {

  /** A label: "Just now", or a whole number followed by a unit text such as " min ago". */
  datatype Ago = JustNow | Ago(amount: int, unit: string)

  const MinAgo := " min ago"
  const HoursAgo := " hours ago"
  const DaysAgo := " days ago"
  const HourAgo := " hour ago"
  const DayAgo := " day ago"

  /** The coarseness of a label: 0 for "Just now", then minutes, hours, days. */
  function Rank(a: Ago): nat {
    if a.JustNow? then 0
    else if a.unit == MinAgo then 1
    else if a.unit == HoursAgo || a.unit == HourAgo then 2
    else 3
  }

  /**
   * `getTimeAgo` of the resident, guard and business dashboards (and the first,
   * overridden, definition in the admin dashboard): whole seconds, then the first
   * bucket below 60 s, 3600 s and 86400 s.
   */
  function SecondsTimeAgo(elapsedMs: int): (r: Ago)
    ensures r == JustNow <==> elapsedMs < 60 * 1000
    ensures r.Ago? && r.unit == MinAgo ==>
              60 * 1000 <= elapsedMs < 3600 * 1000 && r.amount == elapsedMs / (60 * 1000) && 1 <= r.amount <= 59
    ensures r.Ago? && r.unit == HoursAgo ==>
              3600 * 1000 <= elapsedMs < 86400 * 1000 && r.amount == elapsedMs / (3600 * 1000) && 1 <= r.amount <= 23
    ensures r.Ago? && r.unit == DaysAgo ==>
              86400 * 1000 <= elapsedMs && r.amount == elapsedMs / (86400 * 1000) && r.amount >= 1
    ensures r.Ago? ==> r.unit in {MinAgo, HoursAgo, DaysAgo}
  {
    var seconds := elapsedMs / 1000;
    if seconds < 60 then JustNow
    else if seconds < 3600 then Ago(seconds / 60, MinAgo)
    else if seconds < 86400 then Ago(seconds / 3600, HoursAgo)
    else Ago(seconds / 86400, DaysAgo)
  }

  /** An older date never gets a finer label. */
  lemma SecondsTimeAgoMonotone(ms1: int, ms2: int)
    requires ms1 <= ms2
    ensures Rank(SecondsTimeAgo(ms1)) <= Rank(SecondsTimeAgo(ms2))
    ensures Rank(SecondsTimeAgo(ms1)) == Rank(SecondsTimeAgo(ms2)) && SecondsTimeAgo(ms1).Ago? ==>
              SecondsTimeAgo(ms1).amount <= SecondsTimeAgo(ms2).amount
  {
    DivMonotone(ms1, ms2, 60 * 1000);
    DivMonotone(ms1, ms2, 3600 * 1000);
    DivMonotone(ms1, ms2, 86400 * 1000);
  }

  /** Whole units never decrease as time passes. */
  lemma DivMonotone(a: int, b: int, d: int)
    requires a <= b && d > 0
    ensures a / d <= b / d
  {
    var qa, qb := a / d, b / d;
    assert d * qa + a % d == a && d * qb + b % d == b;
    assert 0 <= a % d < d && 0 <= b % d < d;
    if qb + 1 <= qa {
      MulMonotone(d, qb + 1, qa);
    }
  }

  lemma MulMonotone(d: int, x: int, y: int)
    requires d > 0 && x <= y
    ensures d * x <= d * y
  {
    assert d * y - d * x == d * (y - x);
  }

  /**
   * The admin dashboard's effective `getTimeAgo` (its later definition): whole
   * minutes, hours and days of the elapsed time; minutes below 60 always give a
   * minute label, even "0 min ago" and a negative count; hour and day labels
   * are singular for exactly 1.
   */
  function AdminTimeAgo(elapsedMs: int): (r: Ago)
    ensures r.Ago?
    ensures r.unit == MinAgo <==> elapsedMs < 3600 * 1000
    ensures r.unit == MinAgo ==> r.amount == elapsedMs / (60 * 1000) && r.amount <= 59
    ensures r.unit in {HourAgo, HoursAgo} <==> 3600 * 1000 <= elapsedMs < 86400 * 1000
    ensures r.unit in {HourAgo, HoursAgo} ==> r.amount == elapsedMs / (3600 * 1000) && 1 <= r.amount <= 23
    ensures r.unit == HourAgo <==> 3600 * 1000 <= elapsedMs < 2 * 3600 * 1000
    ensures r.unit in {DayAgo, DaysAgo} <==> 86400 * 1000 <= elapsedMs
    ensures r.unit in {DayAgo, DaysAgo} ==> r.amount == elapsedMs / (86400 * 1000) && r.amount >= 1
    ensures r.unit == DayAgo <==> 86400 * 1000 <= elapsedMs < 2 * 86400 * 1000
  {
    var minutes := elapsedMs / 60000;
    var hours := elapsedMs / 3600000;
    var days := elapsedMs / 86400000;
    if minutes < 60 then Ago(minutes, MinAgo)
    else if hours < 24 then Ago(hours, if hours > 1 then HoursAgo else HourAgo)
    else Ago(days, if days > 1 then DaysAgo else DayAgo)
  }

  /** Where the two definitions disagree: under a minute the admin page says "0 min ago". */
  lemma AdminSaysZeroMinutes(elapsedMs: int)
    requires 0 <= elapsedMs < 60 * 1000
    ensures SecondsTimeAgo(elapsedMs) == JustNow
    ensures AdminTimeAgo(elapsedMs) == Ago(0, MinAgo)
  {
  }
}
