/** Naive dates, times of day and datetimes as Python 2's `datetime` module
    treats them, reduced to what the occurrence model consults. */
module Temporal {
  import opened Wrappers

  /** A calendar date, as its proleptic Gregorian ordinal (`date.toordinal()`). */
  type Date = int

  const MicrosPerMinute: int := 60 * 1000000
  const MicrosPerHour: int := 60 * MicrosPerMinute
  const MicrosPerDay: int := 24 * MicrosPerHour

  /** A naive `datetime.time`, as microseconds since midnight. Python orders
      times by (hour, minute, second, microsecond), which is the order of this
      count. */
  type Time = t: int | 0 <= t < MicrosPerDay

  function Hour(t: Time): (h: nat)
    ensures h < 24
    ensures h * MicrosPerHour <= t < (h + 1) * MicrosPerHour
  {
    t / MicrosPerHour
  }

  function Minute(t: Time): (m: nat)
    ensures m < 60
    ensures Hour(t) * MicrosPerHour + m * MicrosPerMinute <= t
    ensures t < Hour(t) * MicrosPerHour + (m + 1) * MicrosPerMinute
  {
    (t % MicrosPerHour) / MicrosPerMinute
  }

  /** A naive `datetime.datetime`: a date and a time of day. */
  datatype DateTime = DateTime(date: Date, time: Time)

  /** `datetime.datetime.combine(d, t)`; passing None for either argument
      raises TypeError. */
  function Combine(d: Option<Date>, t: Option<Time>): (r: Result<DateTime>)
    ensures r.Ok? <==> d.Some? && t.Some?
    ensures r.Ok? ==> r.value.date == d.value && r.value.time == t.value
    ensures r.Err? ==> r.error == TypeError
  {
    if d.Some? && t.Some? then Ok(DateTime(d.value, t.value)) else Err(TypeError)
  }

  /** Strict chronological order of datetimes: by date, then by time of day. */
  predicate Before(a: DateTime, b: DateTime) {
    a.date < b.date || (a.date == b.date && a.time < b.time)
  }

  /** Python 2's `cmp(a, b)` on two naive datetimes. */
  function CompareDateTime(a: DateTime, b: DateTime): (r: int)
    ensures r == -1 || r == 0 || r == 1
    ensures r < 0 <==> Before(a, b)
    ensures r > 0 <==> Before(b, a)
    ensures r == 0 <==> a == b
  {
    if a.date < b.date then -1
    else if a.date > b.date then 1
    else if a.time < b.time then -1
    else if a.time > b.time then 1
    else 0
  }

  /** Python 2's `a < b` where either side is a `datetime.time` or None:
      `None < None` is False, and ordering a time against None raises
      TypeError. (`a > b` gives the same answer as `b < a`.) */
  function PyLess(a: Option<Time>, b: Option<Time>): (r: Result<bool>)
    ensures r.Err? <==> a.Some? != b.Some?
    ensures r.Err? ==> r.error == TypeError
    ensures r == Ok(true) <==> a.Some? && b.Some? && a.value < b.value
  {
    match (a, b)
    case (Some(x), Some(y)) => Ok(x < y)
    case (None, None) => Ok(false)
    case _ => Err(TypeError)
  }

  function DigitChar(d: nat): (c: char)
    requires d < 10
    ensures '0' <= c <= '9'
  {
    ('0' as int + d) as char
  }

  function TwoDigits(n: nat): (s: string)
    requires n < 100
    ensures |s| == 2 && '0' <= s[0] <= '9' && '0' <= s[1] <= '9'
  {
    [DigitChar(n / 10), DigitChar(n % 10)]
  }

  /** `t.strftime("%H:%M")`: zero-padded hour and minute; seconds and
      microseconds are dropped. */
  function FormatHHMM(t: Time): (s: string)
    ensures |s| == 5 && s[2] == ':'
    ensures forall i | 0 <= i < 5 && i != 2 :: '0' <= s[i] <= '9'
  {
    TwoDigits(Hour(t)) + ":" + TwoDigits(Minute(t))
  }

  function DigitValue(c: char): (d: nat)
    requires '0' <= c <= '9'
    ensures d < 10
  {
    c as int - '0' as int
  }

  /** Reads an "HH:MM" string back into (hour, minute); the partner of
      FormatHHMM. */
  function ParseHHMM(s: string): (r: Option<(nat, nat)>)
    ensures r.Some? ==> |s| == 5 && r.value.0 < 24 && r.value.1 < 60
  {
    if |s| == 5 && s[2] == ':' && '0' <= s[0] <= '9' && '0' <= s[1] <= '9'
       && '0' <= s[3] <= '9' && '0' <= s[4] <= '9'
    then
      var h := 10 * DigitValue(s[0]) + DigitValue(s[1]);
      var m := 10 * DigitValue(s[3]) + DigitValue(s[4]);
      if h < 24 && m < 60 then Some((h, m)) else None
    else None
  }

  lemma FormatHHMMRoundTrip(t: Time)
    ensures ParseHHMM(FormatHHMM(t)) == Some((Hour(t), Minute(t)))
  {
  }

  /** Two times give the same "HH:MM" exactly when they agree on hour and
      minute. */
  lemma FormatHHMMInjective(t: Time, u: Time)
    ensures FormatHHMM(t) == FormatHHMM(u) <==> Hour(t) == Hour(u) && Minute(t) == Minute(u)
  {
    if FormatHHMM(t) == FormatHHMM(u) {
      FormatHHMMRoundTrip(t);
      FormatHHMMRoundTrip(u);
    }
  }
}
