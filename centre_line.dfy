/** The length of the horizontal centre line drawn by `battery_update_proc`. */
module CentreLine {
  import opened Pebble

  /** The half-length of `bounds.size.w/6 * (battery_level / 100.0)`, computed in
      exact arithmetic as `(w / 6) * level / 100`; the C program multiplies in `double`
      before truncating. */
  function BatteryHalfLength(width: nat, level: Percent): (r: nat)
    ensures r <= width / 6
    ensures level == 100 ==> r == width / 6
    ensures level == 0 ==> r == 0
  {
    (width / 6) * level / 100
  }

  /** Half the length of the centre line, or `None` when no line is drawn.
      The flags are tried in the order no-line, battery, static. */
  function HalfBarLength(noLine: bool, batteryLine: bool, staticLine: bool, width: nat, level: Percent): (r: Option<nat>)
    ensures r.None? <==> noLine
    ensures r.Some? ==> r.value <= width / 6
    ensures !noLine && batteryLine ==> r == Some(BatteryHalfLength(width, level))
    ensures !noLine && !batteryLine && staticLine ==> r == Some(width / 6)
    ensures !noLine && !batteryLine && !staticLine ==> r == Some(0)
  {
    if noLine then None
    else if batteryLine then Some(BatteryHalfLength(width, level))
    else if staticLine then Some(width / 6)
    else Some(0)
  }

  /** A fuller battery never draws a shorter battery line. */
  lemma BatteryLineMonotone(width: nat, l1: Percent, l2: Percent)
    requires l1 <= l2
    ensures BatteryHalfLength(width, l1) <= BatteryHalfLength(width, l2)
  {
  }
}
