/** Choosing the day or night variant of a weather icon code from the hour of a
    forecast slice (src/utils/getDayOrNight.ts). */
module DayNight {

  /** The hour a date string yields: a clock hour, or NaN when the date does not parse. */
  datatype Hour = At(h: int) | NotANumber

  /** The hour counts as day from 05:00 up to, but not including, 18:00.
      NaN fails both comparisons, so an unparseable date counts as night. */
  predicate IsDay(hour: Hour)
  {
    hour.At? && hour.h >= 5 && hour.h < 18
  }

  /** The characters the regular-expression `.` does not match. */
  predicate IsLineTerminator(c: char)
  {
    c == '\n' || c == '\r' || c == '\U{2028}' || c == '\U{2029}'
  }

  /** The pattern `/.$/` has a match exactly when the last character is an ordinary one. */
  predicate EndsInOrdinary(s: string)
  {
    |s| > 0 && !IsLineTerminator(s[|s| - 1])
  }

  /** `s.replace(/.$/, [c])`: replaces the final ordinary character, or leaves `s` as it is
      when the pattern finds no match. */
  function ReplaceLast(s: string, c: char): (r: string)
    ensures |r| == |s|
    ensures forall i :: 0 <= i < |s| - 1 ==> r[i] == s[i]
    ensures EndsInOrdinary(s) ==> r[|s| - 1] == c
    ensures !EndsInOrdinary(s) ==> r == s
  {
    if EndsInOrdinary(s) then s[..|s| - 1] + [c] else s
  }

  /** The icon code with its last character set to 'd' by day and 'n' by night. */
  function GetDayOrNight(iconName: string, hour: Hour): (r: string)
    ensures |r| == |iconName|
    ensures forall i :: 0 <= i < |iconName| - 1 ==> r[i] == iconName[i]
    ensures EndsInOrdinary(iconName) ==> r[|r| - 1] == (if IsDay(hour) then 'd' else 'n')
    ensures !EndsInOrdinary(iconName) ==> r == iconName
  {
    if IsDay(hour) then ReplaceLast(iconName, 'd') else ReplaceLast(iconName, 'n')
  }

  /** The boundaries of the day interval: 4 is night, 5 is day, 17 is day, 18 is night. */
  lemma DayBoundaries()
    ensures !IsDay(At(4)) && IsDay(At(5)) && IsDay(At(17)) && !IsDay(At(18))
  {
  }

  /** An unparseable date picks the night variant of any icon ending in an ordinary character. */
  lemma NotANumberIsNight(iconName: string)
    requires EndsInOrdinary(iconName)
    ensures GetDayOrNight(iconName, NotANumber) == iconName[..|iconName| - 1] + ['n']
  {
  }

  /** An empty icon code comes back empty. */
  lemma EmptyUnchanged(hour: Hour)
    ensures GetDayOrNight("", hour) == ""
  {
  }

  /** The rewritten code still ends in an ordinary character ('d' or 'n'), so a second
      call rewrites that same position again and the later hour decides. */
  lemma LaterHourWins(iconName: string, first: Hour, second: Hour)
    ensures GetDayOrNight(GetDayOrNight(iconName, first), second) == GetDayOrNight(iconName, second)
  {
  }

  /** Applying the rewrite twice with the same hour is the same as applying it once. */
  lemma Idempotent(iconName: string, hour: Hour)
    ensures GetDayOrNight(GetDayOrNight(iconName, hour), hour) == GetDayOrNight(iconName, hour)
  {
    LaterHourWins(iconName, hour, hour);
  }
}
