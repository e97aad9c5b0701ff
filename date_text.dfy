/** The two date lines written by `update_date`. */
module DateText {
  import opened Pebble

  /** The character for a decimal digit. */
  function Digit(d: int): (c: char)
    requires 0 <= d < 10
    ensures '0' <= c <= '9'
  {
    ('0' as int + d) as char
  }

  /** The value of a decimal digit character. */
  function DigitValue(c: char): int
  {
    c as int - '0' as int
  }

  /** `strftime`'s `%d`: the day of the month as two digits, zero-padded. */
  function TwoDigits(n: int): (s: string)
    requires 0 <= n < 100
    ensures |s| == 2 && '0' <= s[0] <= '9' && '0' <= s[1] <= '9'
  {
    [Digit(n / 10), Digit(n % 10)]
  }

  /** Reading the two digits back gives the day of the month. */
  lemma TwoDigitsRoundTrip(n: int)
    requires 0 <= n < 100
    ensures 10 * DigitValue(TwoDigits(n)[0]) + DigitValue(TwoDigits(n)[1]) == n
  {
  }

  /** The texts of the two date lines: the abbreviated weekday (`%a`) and the
      day of the month (`%d`) when the date is shown, an empty format otherwise. */
  function DateLines(p: Platform, showDate: bool, t: Tm): (lines: (string, string))
    requires t.Valid()
    ensures |lines.0| < 8 && |lines.1| < 4
    ensures !showDate ==> lines == ("", "")
    ensures showDate ==> lines.0 == p.weekdayAbbrev(t.weekDay)
    ensures lines.1 != "" <==> showDate
    ensures showDate ==> |lines.1| == 2
    ensures showDate ==> '0' <= lines.1[0] <= '9' && '0' <= lines.1[1] <= '9'
    ensures showDate ==> 10 * DigitValue(lines.1[0]) + DigitValue(lines.1[1]) == t.monthDay
  {
    if showDate then
      TwoDigitsRoundTrip(t.monthDay);
      (p.weekdayAbbrev(t.weekDay), TwoDigits(t.monthDay))
    else ("", "")
  }
}
