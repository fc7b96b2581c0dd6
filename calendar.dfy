/**
 * Python `date` and `time` values as the appointment table stores them, their
 * comparison, and the text forms the application prints: `isoformat()` (used by
 * `str()`) and the `strftime` fields of the reminder message.
 */
module Calendar {
  import opened Text

  type Year = y: int | 1 <= y <= 9999 witness 1
  type Month = m: int | 1 <= m <= 12 witness 1
  type Day = d: int | 1 <= d <= 31 witness 1
  type Hour = h: int | 0 <= h < 24
  type Minute = m: int | 0 <= m < 60
  type Second = s: int | 0 <= s < 60
  type Microsecond = u: int | 0 <= u < 1000000

  datatype Date = Date(year: Year, month: Month, day: Day)

  /** A naive time of day, down to the microsecond as `datetime.now().time()` reports it. */
  datatype Time = Time(hour: Hour, minute: Minute, second: Second, microsecond: Microsecond)

  /** `a < b` on dates: lexicographic on (year, month, day). */
  predicate DateBefore(a: Date, b: Date)
  {
    a.year < b.year
    || (a.year == b.year && (a.month < b.month || (a.month == b.month && a.day < b.day)))
  }

  predicate DateAtMost(a: Date, b: Date)
  {
    DateBefore(a, b) || a == b
  }

  /** `a < b` on times of day: lexicographic on (hour, minute, second, microsecond). */
  predicate TimeBefore(a: Time, b: Time)
  {
    a.hour < b.hour
    || (a.hour == b.hour
        && (a.minute < b.minute
            || (a.minute == b.minute
                && (a.second < b.second
                    || (a.second == b.second && a.microsecond < b.microsecond)))))
  }

  /** Both comparisons are strict total orders, as Python's are. */
  lemma DateOrder(a: Date, b: Date, c: Date)
    ensures !DateBefore(a, a)
    ensures DateBefore(a, b) && DateBefore(b, c) ==> DateBefore(a, c)
    ensures a == b || DateBefore(a, b) || DateBefore(b, a)
    ensures !(DateBefore(a, b) && DateBefore(b, a))
  {
  }

  lemma TimeOrder(a: Time, b: Time, c: Time)
    ensures !TimeBefore(a, a)
    ensures TimeBefore(a, b) && TimeBefore(b, c) ==> TimeBefore(a, c)
    ensures a == b || TimeBefore(a, b) || TimeBefore(b, a)
    ensures !(TimeBefore(a, b) && TimeBefore(b, a))
  {
  }

  /** `str(date)`: `YYYY-MM-DD`. */
  function IsoDate(d: Date): (s: string)
    ensures |s| == 10 && s[4] == '-' && s[7] == '-'
    ensures Denotes(s[..4], d.year) && Denotes(s[5..7], d.month) && Denotes(s[8..], d.day)
  {
    var y, m, dd := ZeroPad(d.year, 4), Pad2(d.month), Pad2(d.day);
    assert |NatToString(d.year)| <= 4 by { NatToStringLength(d.year, 4); }
    var s := y + "-" + m + "-" + dd;
    assert s[..4] == y && s[5..7] == m && s[8..] == dd;
    s
  }

  /** `str(time)`: `HH:MM:SS`, followed by `.ffffff` when the microseconds are not zero. */
  function IsoTime(t: Time): (s: string)
    ensures |s| == if t.microsecond == 0 then 8 else 15
    ensures s[2] == ':' && s[5] == ':'
    ensures Denotes(s[..2], t.hour) && Denotes(s[3..5], t.minute) && Denotes(s[6..8], t.second)
    ensures t.microsecond != 0 ==> s[8] == '.' && Denotes(s[9..], t.microsecond)
  {
    var hms := Pad2(t.hour) + ":" + Pad2(t.minute) + ":" + Pad2(t.second);
    assert hms[..2] == Pad2(t.hour) && hms[3..5] == Pad2(t.minute) && hms[6..8] == Pad2(t.second);
    if t.microsecond == 0 then hms
    else
      var us := ZeroPad(t.microsecond, 6);
      assert |NatToString(t.microsecond)| <= 6 by { NatToStringLength(t.microsecond, 6); }
      var s := hms + "." + us;
      assert s[..8] == hms && s[9..] == us;
      assert s[..2] == hms[..2] && s[3..5] == hms[3..5] && s[6..8] == hms[6..8];
      s
  }

  /** `date.strftime('%d/%m')` */
  function DayMonth(d: Date): (s: string)
    ensures |s| == 5 && s[2] == '/'
    ensures Denotes(s[..2], d.day) && Denotes(s[3..], d.month)
  {
    var s := Pad2(d.day) + "/" + Pad2(d.month);
    assert s[..2] == Pad2(d.day) && s[3..] == Pad2(d.month);
    s
  }

  /** `time.strftime('%H:%M')` */
  function HourMinute(t: Time): (s: string)
    ensures |s| == 5 && s[2] == ':'
    ensures Denotes(s[..2], t.hour) && Denotes(s[3..], t.minute)
  {
    var s := Pad2(t.hour) + ":" + Pad2(t.minute);
    assert s[..2] == Pad2(t.hour) && s[3..] == Pad2(t.minute);
    s
  }
}
