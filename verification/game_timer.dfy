/** The countdown to the next competition reset: when the current period
    ends, how long remains split into days, hours, minutes and seconds, the
    one-second tick that restarts the countdown once it runs out, and the
    segments the timer card shows.

    Times are milliseconds since the Unix epoch, as `Date.getTime()` gives
    them. Day `k` of the epoch starts at `k * DayMs`; 1 January 1970 was a
    Thursday, so day `k` has UTC weekday `(k + 4) % 7`, with Sunday 0 and
    Monday 1. The first day of the next month or year comes out of the
    `Date` calendar and is the parameter `calendarBoundary`.
 */
module GameTimer {
  import opened Wrappers
  import opened JsValues
  import opened Text
  import opened GameModes

  /** The epoch day `t` falls in: `Math.floor(t / DayMs)`. */
  function DayNumber(t: int): int {
    t / DayMs
  }

  /** `getUTCDay()`. */
  function Weekday(t: int): (d: int)
    ensures 0 <= d < 7
  {
    (DayNumber(t) + 4) % 7
  }

  const Monday: int := 1

  /** UTC midnight at the start of the day `t` falls in. */
  function StartOfDay(t: int): (s: int)
    ensures s % 86400000 == 0
    ensures s <= t < s + 86400000
  {
    DayNumber(t) * DayMs
  }

  /** `(8 - weekday) % 7 || 7`: the days to the coming Monday, a full week
      when today is Monday. */
  function DaysUntilMonday(weekday: int): (n: int)
    requires 0 <= weekday < 7
    ensures 1 <= n <= 7
    ensures (weekday + n) % 7 == Monday
    ensures weekday == Monday ==> n == 7
  {
    var d := (8 - weekday) % 7;
    if d != 0 then d else 7
  }

  /** `getNextResetTime`: the next UTC midnight for a daily game, the next
      Monday's UTC midnight for a weekly one (a week away on a Monday), and
      the calendar's boundary for a monthly or yearly one. */
  function NextReset(mode: GameMode, now: int, calendarBoundary: int): (r: int)
    ensures mode == Daily || mode == Weekly ==> r % 86400000 == 0 && now < r
    ensures mode == Daily ==> r <= now + 86400000
    ensures mode == Weekly ==> Weekday(r) == Monday && r <= now + 604800000
    ensures mode == Monthly || mode == Yearly ==> r == calendarBoundary
  {
    match mode
    case Daily => StartOfDay(now) + DayMs
    case Weekly =>
      var day := DayNumber(now) + DaysUntilMonday(Weekday(now));
      assert DayNumber(day * DayMs) == day;
      day * DayMs
    case Monthly => calendarBoundary
    case Yearly => calendarBoundary
  }

  /** No UTC midnight lies after `now` and before the daily reset. */
  lemma DailyResetIsNext(now: int, calendarBoundary: int, m: int)
    requires m % DayMs == 0 && now < m
    ensures NextReset(Daily, now, calendarBoundary) <= m
  {
    var k := m / DayMs;
    assert m == k * DayMs;
    assert DayNumber(now) < k;
  }

  /** No Monday midnight lies after `now` and before the weekly reset. */
  lemma WeeklyResetIsNext(now: int, calendarBoundary: int, m: int)
    requires m % DayMs == 0 && now < m && Weekday(m) == Monday
    ensures NextReset(Weekly, now, calendarBoundary) <= m
  {
    var d := DayNumber(now);
    var n := DaysUntilMonday(Weekday(now));
    var k := m / DayMs;
    assert m == k * DayMs;
    assert d < k;
    assert DayNumber(m) == k;
    assert (d + 4 + n) % 7 == Monday;
    assert (k + 4) % 7 == Monday;
    // k and d + n are congruent modulo 7 and k > d >= d + n - 7.
    assert (k - (d + n)) % 7 == 0;
    assert k >= d + n;
    var day := d + n;
    assert DayNumber(day * DayMs) == day;
  }

  // ---------------------------------------------------------------------
  // The countdown

  const SecondMs: int := 1000
  // The seconds in a minute, an hour and a day are written out as 60,
  // 3600 and 86400 below, which keeps the arithmetic linear.

  datatype TimeRemaining = TimeRemaining(days: nat, hours: nat, minutes: nat, seconds: nat, totalSeconds: nat)

  /** A well-formed split: each part below its unit and the parts adding up
      to the total. */
  predicate ValidSplit(t: TimeRemaining) {
    && t.hours < 24 && t.minutes < 60 && t.seconds < 60
    && t.days * 86400 + t.hours * 3600 + t.minutes * 60 + t.seconds == t.totalSeconds
  }

  /** The days, hours, minutes and seconds of a number of seconds, computed
      as `calculateTimeRemaining` does: hours from the remainder modulo a
      day, minutes from the remainder modulo an hour. */
  function Split(total: nat): (t: TimeRemaining)
    ensures t.totalSeconds == total
    ensures ValidSplit(t)
  {
    SplitAddsUp(total);
    TimeRemaining(total / 86400, (total % 86400) / 3600, (total % 3600) / 60, total % 60, total)
  }

  lemma SplitAddsUp(total: nat)
    ensures var d, h, m, s := total / 86400, (total % 86400) / 3600, (total % 3600) / 60, total % 60;
      h < 24 && m < 60 && d * 86400 + h * 3600 + m * 60 + s == total
  {
    var d, r := total / 86400, total % 86400;
    var h, q := r / 3600, r % 3600;
    DivModUnique(total, 3600, 24 * d + h, q);
    var m, s := q / 60, q % 60;
    DivModUnique(total, 60, 1440 * d + 60 * h + m, s);
  }

  /** A split determines its total and the total determines its split: the
      split is the only well-formed one. */
  lemma SplitUnique(t: TimeRemaining)
    requires ValidSplit(t)
    ensures Split(t.totalSeconds) == t
  {
    var s := t.totalSeconds;
    var q := t.minutes * 60 + t.seconds;
    var r := t.hours * 3600 + q;
    DivModUnique(s, 86400, t.days, r);
    DivModUnique(r, 3600, t.hours, q);
    DivModUnique(s, 3600, 24 * t.days + t.hours, q);
    DivModUnique(q, 60, t.minutes, t.seconds);
    DivModUnique(s, 60, 1440 * t.days + 60 * t.hours + t.minutes, t.seconds);
  }

  /** `Math.max(0, Math.floor(ms / 1000))`: the whole seconds in `ms`
      milliseconds, 0 for less than one second or a time already past. */
  function WholeSeconds(ms: int): (s: nat)
    ensures s == 0 <==> ms < 1000
    ensures ms >= 1000 ==> s * 1000 <= ms < s * 1000 + 1000
  {
    var w := ms / 1000;
    if w < 0 then 0 else w
  }

  /** A second less on the clock is a whole second less, down to 0. */
  lemma WholeSecondsStep(ms: int)
    ensures WholeSeconds(ms - 1000) == if WholeSeconds(ms) == 0 then 0 else WholeSeconds(ms) - 1
  {
    DivModUnique(ms - 1000, 1000, ms / 1000 - 1, ms % 1000);
  }

  /** `calculateTimeRemaining`: the whole seconds from `now` to `target`
      and their split. */
  function CalculateTimeRemaining(target: int, now: int): (t: TimeRemaining)
    ensures ValidSplit(t)
    ensures t.totalSeconds == WholeSeconds(target - now)
  {
    Split(WholeSeconds(target - now))
  }

  /** A second later, one second less remains, down to 0. */
  lemma OneSecondLater(target: int, now: int)
    ensures var before := CalculateTimeRemaining(target, now).totalSeconds;
      CalculateTimeRemaining(target, now + SecondMs).totalSeconds == if before == 0 then 0 else before - 1
  {
    WholeSecondsStep(target - now);
    assert target - (now + SecondMs) == (target - now) - 1000;
  }

  /** `updateTimer`: the countdown to the current target, or, once that has
      run out, the countdown to the reset after it. */
  function Tick(mode: GameMode, target: int, now: int, calendarBoundary: int): (t: TimeRemaining)
    ensures ValidSplit(t)
    ensures target - now >= SecondMs ==> t == CalculateTimeRemaining(target, now)
    ensures target - now < SecondMs ==>
      t == CalculateTimeRemaining(NextReset(mode, now, calendarBoundary), now)
  {
    var remaining := CalculateTimeRemaining(target, now);
    if remaining.totalSeconds == 0 then
      CalculateTimeRemaining(NextReset(mode, now, calendarBoundary), now)
    else remaining
  }

  /** A daily countdown started at any earlier moment never shows more than
      a day, and a weekly one never more than a week. */
  lemma TickBounds(mode: GameMode, started: int, now: int, calendarBoundary: int)
    requires mode == Daily || mode == Weekly
    requires started <= now
    ensures var t := Tick(mode, NextReset(mode, started, calendarBoundary), now, calendarBoundary);
      t.totalSeconds <= (if mode == Daily then 1 else 7) * 86400
  {
    var target := NextReset(mode, started, calendarBoundary);
    if mode == Daily {
      TickAtMost(mode, target, now, calendarBoundary, 86400);
    } else {
      TickAtMost(mode, target, now, calendarBoundary, 604800);
    }
  }

  /** A tick never shows more seconds than either countdown it may pick. */
  lemma TickAtMost(mode: GameMode, target: int, now: int, calendarBoundary: int, bound: nat)
    requires target - now <= bound * 1000
    requires NextReset(mode, now, calendarBoundary) - now <= bound * 1000
    ensures Tick(mode, target, now, calendarBoundary).totalSeconds <= bound
  {
    WholeSecondsAtMost(target - now, bound);
    WholeSecondsAtMost(NextReset(mode, now, calendarBoundary) - now, bound);
  }

  lemma WholeSecondsAtMost(ms: int, bound: nat)
    requires ms <= bound * 1000
    ensures WholeSeconds(ms) <= bound
  {
  }

  // ---------------------------------------------------------------------
  // The timer card

  /** `num.toString().padStart(2, '0')`: the decimal digits with a `0` in
      front of a single one. */
  function FormatNumber(n: nat): (r: string)
    ensures |r| == if n < 10 then 2 else |NatToString(n)|
    ensures forall i | 0 <= i < |r| :: '0' <= r[i] <= '9'
  {
    if n < 10 then "0" + NatToString(n) else NatToString(n)
  }

  /** The padding above is `padStart`'s. */
  lemma FormatNumberIsPadStart(n: nat)
    ensures FormatNumber(n) == PadStart(NatToString(n), 2, '0')
  {
    if n < 10 {
      assert seq(1, _ => '0') == "0";
    }
  }

  lemma TwoDigitNumbers(n: nat)
    ensures 10 <= n < 100 ==> |NatToString(n)| == 2
  {
    if 10 <= n < 100 {
      assert |NatToString(n / 10)| == 1;
    }
  }

  /** A padded number below 100 is two digits that read back as the number. */
  lemma FormatNumberRoundTrip(n: nat)
    requires n < 100
    ensures |FormatNumber(n)| == 2
    ensures ReadNumber(FormatNumber(n)) == Some(n)
  {
    var digits := NatToString(n);
    NatToStringRoundTrip(n);
    TwoDigitNumbers(n);
    var r := FormatNumber(n);
    if n < 10 {
      assert r[..1] == "0";
      assert DigitsValue(r[..1]) == 10 * DigitsValue(r[..0]) + 0;
    }
  }

  /** What the card shows: `<days>d` only when there are days left, then
      the padded hours, minutes and seconds. */
  function Segments(t: TimeRemaining): (s: seq<string>)
    ensures |s| == if t.days > 0 then 4 else 3
  {
    (if t.days > 0 then [NatToString(t.days) + "d"] else [])
      + [FormatNumber(t.hours), FormatNumber(t.minutes), FormatNumber(t.seconds)]
  }

  predicate AllDigits(x: string) {
    forall i | 0 <= i < |x| :: '0' <= x[i] <= '9'
  }

  /** The number a segment of digits shows, if it is one. */
  function ReadNumber(x: string): Option<nat> {
    if AllDigits(x) then Some(DigitsValue(x)) else None
  }

  /** The days a `<n>d` segment shows, if it is one. */
  function ReadDays(x: string): Option<nat> {
    if x != [] && x[|x| - 1] == 'd' then ReadNumber(x[..|x| - 1]) else None
  }

  /** Reading the card back into a countdown: three clock segments, after
      an optional days segment. */
  function ReadSegments(s: seq<string>): Option<TimeRemaining> {
    if |s| != 3 && |s| != 4 then None
    else
      var k := |s| - 3;
      var days := if k == 1 then ReadDays(s[0]) else Some(0);
      var hours, minutes, seconds := ReadNumber(s[k]), ReadNumber(s[k + 1]), ReadNumber(s[k + 2]);
      if days.None? || hours.None? || minutes.None? || seconds.None? then None
      else
        var total := days.value * 86400 + hours.value * 3600 + minutes.value * 60 + seconds.value;
        Some(TimeRemaining(days.value, hours.value, minutes.value, seconds.value, total))
  }

  /** The card shows the whole countdown: reading its segments back gives
      every part, the days included when they are shown and 0 when they
      are not. */
  lemma SegmentsRoundTrip(t: TimeRemaining)
    requires ValidSplit(t)
    ensures ReadSegments(Segments(t)) == Some(t)
  {
    if t.days > 0 {
      SegmentsWithDays(t);
    } else {
      SegmentsWithoutDays(t);
    }
  }

  lemma SegmentsWithoutDays(t: TimeRemaining)
    requires ValidSplit(t) && t.days == 0
    ensures ReadSegments(Segments(t)) == Some(t)
  {
    ClockOnly(t);
    assert Segments(t) == [FormatNumber(t.hours), FormatNumber(t.minutes), FormatNumber(t.seconds)];
    assert TimeRemaining(0, t.hours, t.minutes, t.seconds, t.hours * 3600 + t.minutes * 60 + t.seconds) == t;
  }

  lemma SegmentsWithDays(t: TimeRemaining)
    requires ValidSplit(t) && t.days > 0
    ensures ReadSegments(Segments(t)) == Some(t)
  {
    ClockAfterDays(t);
    assert Segments(t) == [NatToString(t.days) + "d", FormatNumber(t.hours), FormatNumber(t.minutes), FormatNumber(t.seconds)];
    assert TimeRemaining(t.days, t.hours, t.minutes, t.seconds,
      t.days * 86400 + t.hours * 3600 + t.minutes * 60 + t.seconds) == t;
  }

  lemma ClockOnly(t: TimeRemaining)
    requires ValidSplit(t)
    ensures ReadSegments([FormatNumber(t.hours), FormatNumber(t.minutes), FormatNumber(t.seconds)])
         == Some(TimeRemaining(0, t.hours, t.minutes, t.seconds, t.hours * 3600 + t.minutes * 60 + t.seconds))
  {
    ClockReadsBack(t);
    ReadThree(FormatNumber(t.hours), FormatNumber(t.minutes), FormatNumber(t.seconds), t.hours, t.minutes, t.seconds);
  }

  lemma ClockAfterDays(t: TimeRemaining)
    requires ValidSplit(t)
    ensures ReadSegments([NatToString(t.days) + "d", FormatNumber(t.hours), FormatNumber(t.minutes), FormatNumber(t.seconds)])
         == Some(TimeRemaining(t.days, t.hours, t.minutes, t.seconds,
                               t.days * 86400 + t.hours * 3600 + t.minutes * 60 + t.seconds))
  {
    ClockReadsBack(t);
    DaysSegmentRoundTrip(t.days);
    ReadFour(NatToString(t.days) + "d", FormatNumber(t.hours), FormatNumber(t.minutes), FormatNumber(t.seconds),
             t.days, t.hours, t.minutes, t.seconds);
  }

  lemma ClockReadsBack(t: TimeRemaining)
    requires ValidSplit(t)
    ensures ReadNumber(FormatNumber(t.hours)) == Some(t.hours)
    ensures ReadNumber(FormatNumber(t.minutes)) == Some(t.minutes)
    ensures ReadNumber(FormatNumber(t.seconds)) == Some(t.seconds)
  {
    FormatNumberRoundTrip(t.hours);
    FormatNumberRoundTrip(t.minutes);
    FormatNumberRoundTrip(t.seconds);
  }

  lemma ReadThree(a: string, b: string, c: string, h: nat, m: nat, sec: nat)
    requires ReadNumber(a) == Some(h) && ReadNumber(b) == Some(m) && ReadNumber(c) == Some(sec)
    ensures ReadSegments([a, b, c]) == Some(TimeRemaining(0, h, m, sec, h * 3600 + m * 60 + sec))
  {
  }

  lemma ReadFour(d: string, a: string, b: string, c: string, days: nat, h: nat, m: nat, sec: nat)
    requires ReadDays(d) == Some(days)
    requires ReadNumber(a) == Some(h) && ReadNumber(b) == Some(m) && ReadNumber(c) == Some(sec)
    ensures ReadSegments([d, a, b, c])
         == Some(TimeRemaining(days, h, m, sec, days * 86400 + h * 3600 + m * 60 + sec))
  {
  }

  lemma DaysSegmentRoundTrip(days: nat)
    ensures ReadDays(NatToString(days) + "d") == Some(days)
  {
    var d := NatToString(days) + "d";
    assert d[..|d| - 1] == NatToString(days);
    NatToStringRoundTrip(days);
  }
}
