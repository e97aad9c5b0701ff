/** The ring sweep angles drawn by `ring_update_proc`. */
module Clock {

  /** The two sweep angles in degrees. */
  datatype Angles = Angles(minute: int, hour: int)

  /** Folds a 24-hour `tm_hour` into 12-hour form. */
  function Hour12(hour: int): (h: int)
    requires 0 <= hour < 24
    ensures 0 <= h < 12
    ensures h == hour % 12
  {
    if hour >= 12 then hour - 12 else hour
  }

  /** The minute angle of `360 * (minute / 60.0)`, computed in exact arithmetic as
      `360 * minute / 60`. The C program evaluates the expression in `double` before
      truncating, and the rounding makes minutes 21 and 42 one degree lower there. */
  function MinuteAngle(minute: int): (a: int)
    requires 0 <= minute < 60
    ensures a == 6 * minute
    ensures 0 <= a <= 354
  {
    (360 * minute) / 60
  }

  /** The hour angle of `360 * ((hour + minute / 60.0) / 12.0)`, computed in exact
      arithmetic as `360 * (60 * hour + minute) / 720`: half a degree a minute. The
      C program evaluates the expression in `double` before truncating, and the
      rounding makes 37 of the 720 times of a half day one degree lower there. */
  function HourAngle(hour12: int, minute: int): (a: int)
    requires 0 <= hour12 < 12 && 0 <= minute < 60
    ensures a == (60 * hour12 + minute) / 2
    ensures 0 <= a < 360
  {
    (360 * (60 * hour12 + minute)) / 720
  }

  /** Both angles for a wall-clock time. */
  function ClockAngles(hour: int, minute: int): (a: Angles)
    requires 0 <= hour < 24 && 0 <= minute < 60
    ensures 0 <= a.minute <= 354 && 0 <= a.hour < 360
  {
    Angles(MinuteAngle(minute), HourAngle(Hour12(hour), minute))
  }

  /** The hour ring is 30 degrees per hour plus a twelfth of the minute ring's sweep. */
  lemma HourFollowsMinute(hour12: int, minute: int)
    requires 0 <= hour12 < 12 && 0 <= minute < 60
    ensures HourAngle(hour12, minute) == 30 * hour12 + MinuteAngle(minute) / 12
  {
  }

  /** Within one 12-hour half, a later time never has a smaller hour angle. */
  lemma HourAngleMonotone(h1: int, m1: int, h2: int, m2: int)
    requires 0 <= h1 < 24 && 0 <= m1 < 60 && 0 <= h2 < 24 && 0 <= m2 < 60
    requires h1 / 12 == h2 / 12
    requires h1 < h2 || (h1 == h2 && m1 <= m2)
    ensures ClockAngles(h1, m1).hour <= ClockAngles(h2, m2).hour
  {
  }

  /** The face shows the same angles twelve hours apart. */
  lemma HalfDayPeriodic(hour: int, minute: int)
    requires 0 <= hour < 12 && 0 <= minute < 60
    ensures ClockAngles(hour, minute) == ClockAngles(hour + 12, minute)
  {
  }

  /** 00:00 shows (0, 0). */
  lemma MidnightAngles()
    ensures ClockAngles(0, 0) == Angles(0, 0)
  {
  }

  /** 06:00 shows (0, 180). */
  lemma SixOClockAngles()
    ensures ClockAngles(6, 0) == Angles(0, 180)
  {
  }

  /** 00:30 shows (180, 15). */
  lemma HalfPastMidnightAngles()
    ensures ClockAngles(0, 30) == Angles(180, 15)
  {
  }
}
