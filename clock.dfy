/**
 * Abstract time for the prayer scheduler (sw.js:67-76).
 *
 * An `Instant` is a whole number of milliseconds on the local wall clock,
 * counted from a local midnight, so that a calendar day is always
 * `MsPerDay` long (time zones and daylight-saving shifts are not modelled).
 * The same file models the parsing of a prayer timing string such as
 * "17:45 (EET)" into hours and minutes.
 */
module Clock {
  import opened Wrappers

  const MsPerMinute: int := 60_000
  const MsPerHour: int := 3_600_000
  const MsPerDay: int := 86_400_000

  type Instant = int

  /** Hours and minutes as JavaScript's `Number` produced them; not yet range-checked. */
  datatype TimeOfDay = TimeOfDay(hours: nat, minutes: nat)

  predicate IsValid(t: TimeOfDay) {
    t.hours < 24 && t.minutes < 60
  }

  /** Milliseconds from midnight to HH:MM:00.000. */
  function Offset(t: TimeOfDay): (ms: nat)
    ensures IsValid(t) ==> ms < MsPerDay
  {
    t.hours * MsPerHour + t.minutes * MsPerMinute
  }

  /** The local midnight that starts the day containing `now`. */
  function StartOfDay(now: Instant): (d: Instant)
    ensures d <= now < d + MsPerDay
    ensures d % MsPerDay == 0
  {
    now - now % MsPerDay
  }

  /** A multiple of a day plus an offset below a day leaves that offset as the time of day. */
  lemma ModOfDayPlusOffset(d: int, o: int)
    requires d % MsPerDay == 0
    requires 0 <= o < MsPerDay
    ensures (d + o) % MsPerDay == o
  {
    var q := d / MsPerDay;
    assert d == q * MsPerDay;
    assert d + o == q * MsPerDay + o;
  }

  /** `new Date(year, month, date, hours, minutes, 0)` for the day of `now`.
      Out-of-range hours or minutes spill into later days, as in JavaScript. */
  function SameDayAt(now: Instant, t: TimeOfDay): (r: Instant)
    ensures IsValid(t) ==> StartOfDay(r) == StartOfDay(now) && r % MsPerDay == Offset(t)
    ensures !IsValid(t) ==> r >= StartOfDay(now)
  {
    var d := StartOfDay(now);
    if IsValid(t) then ModOfDayPlusOffset(d, Offset(t)); d + Offset(t) else d + Offset(t)
  }

  /** The trigger instant: today at HH:MM:00, moved forward one day when
      that is strictly before `now`. */
  function NextOccurrence(now: Instant, t: TimeOfDay): (r: Instant)
    ensures r >= now
    ensures r == SameDayAt(now, t) || r == SameDayAt(now, t) + MsPerDay
  {
    var today := SameDayAt(now, t);
    if today < now then today + MsPerDay else today
  }

  /** A same-day instant that has already passed is rolled forward by exactly 24 hours;
      one that has not passed is kept. */
  lemma RollForwardExactlyOneDay(now: Instant, t: TimeOfDay)
    ensures SameDayAt(now, t) < now <==> NextOccurrence(now, t) == SameDayAt(now, t) + MsPerDay
    ensures SameDayAt(now, t) >= now <==> NextOccurrence(now, t) == SameDayAt(now, t)
  {
  }

  /** For a valid HH:MM the trigger lies in [now, now + 1 day) and falls at HH:MM:00.000. */
  lemma {:induction false} NextOccurrenceWithinADay(now: Instant, t: TimeOfDay)
    requires IsValid(t)
    ensures now <= NextOccurrence(now, t) < now + MsPerDay
    ensures NextOccurrence(now, t) % MsPerDay == Offset(t)
  {
    var d := StartOfDay(now);
    var r := NextOccurrence(now, t);
    if SameDayAt(now, t) < now {
      assert (d + MsPerDay) % MsPerDay == 0 by { ModOfDayPlusOffset(d, 0); }
      ModOfDayPlusOffset(d + MsPerDay, Offset(t));
    } else {
      ModOfDayPlusOffset(d, Offset(t));
    }
  }

  /** The trigger is the only instant in [now, now + 1 day) whose time of day is HH:MM:00.000. */
  lemma {:induction false} NextOccurrenceIsUnique(now: Instant, t: TimeOfDay, x: Instant)
    requires IsValid(t)
    requires now <= x < now + MsPerDay
    requires x % MsPerDay == Offset(t)
    ensures x == NextOccurrence(now, t)
  {
    var r := NextOccurrence(now, t);
    NextOccurrenceWithinADay(now, t);
    var qx, qr := x / MsPerDay, r / MsPerDay;
    assert x == qx * MsPerDay + Offset(t);
    assert r == qr * MsPerDay + Offset(t);
    assert (qx - qr) * MsPerDay == x - r;
  }

  // ---- Parsing the timing string (sw.js:67-68) ----

  predicate IsDigit(c: char) {
    '0' <= c <= '9'
  }

  predicate AllDigits(s: string) {
    forall i :: 0 <= i < |s| ==> IsDigit(s[i])
  }

  /** `s.split(sep)[0]` together with the text after the first separator, if there is one. */
  function SplitFirst(s: string, sep: char): (r: (string, Option<string>))
    ensures sep !in r.0
    ensures r.1.None? ==> r.0 == s
    ensures r.1.Some? ==> s == r.0 + [sep] + r.1.value
  {
    if s == [] then ([], None)
    else if s[0] == sep then ([], Some(s[1..]))
    else
      var (head, rest) := SplitFirst(s[1..], sep);
      ([s[0]] + head, rest)
  }

  /** When `a` holds no separator and `b` is empty or begins with one, the first field is `a`. */
  lemma {:induction false} SplitFirstAt(a: string, b: string, sep: char)
    requires sep !in a
    requires b == [] || b[0] == sep
    ensures SplitFirst(a + b, sep).0 == a
  {
    if a != [] {
      assert (a + b)[1..] == a[1..] + b;
      SplitFirstAt(a[1..], b, sep);
    }
  }

  /** What follows the first field is empty or begins with the separator. */
  lemma SplitFirstLeaves(s: string, sep: char)
    ensures var r := SplitFirst(s, sep);
      && s == r.0 + s[|r.0|..]
      && (s[|r.0|..] == [] || s[|r.0|..][0] == sep)
      && (r.1.Some? ==> r.1.value == s[|r.0| + 1..])
  {
    var r := SplitFirst(s, sep);
    if r.1.Some? {
      assert s[|r.0|..] == [sep] + r.1.value;
    }
  }

  /** A separator right after a field without one splits there. */
  lemma {:induction false} SplitFirstAtSeparator(a: string, b: string, sep: char)
    requires sep !in a
    ensures SplitFirst(a + [sep] + b, sep) == (a, Some(b))
  {
    if a != [] {
      assert (a + [sep] + b)[1..] == a[1..] + [sep] + b;
      SplitFirstAtSeparator(a[1..], b, sep);
      assert [a[0]] + a[1..] == a;
    } else {
      assert a + [sep] + b == [sep] + b;
    }
  }

  lemma DigitsHoldNoSeparator(s: string, sep: char)
    requires AllDigits(s) && !IsDigit(sep)
    ensures sep !in s
  {
    assert forall i :: 0 <= i < |s| ==> s[i] != sep;
  }

  function DecimalValue(s: string): nat
    requires AllDigits(s)
  {
    if s == [] then 0
    else 10 * DecimalValue(s[..|s| - 1]) + (s[|s| - 1] as int - '0' as int)
  }

  /** JavaScript's `Number(s)` for the texts the model covers: the empty text is 0 and a run of
      decimal digits is its value; any other text (NaN, signs, exponents, fractions) is `None`. */
  function ToNumber(s: string): (r: Option<nat>)
    ensures r.Some? <==> AllDigits(s)
    ensures s == [] ==> r == Some(0)
  {
    if AllDigits(s) then Some(DecimalValue(s)) else None
  }

  /** The leading `HH:MM` of a timing string: the text before the first space, split on ':',
      hours from the first field and minutes from the second. `None` when the result would be
      NaN in JavaScript (no second field, or a field that is not a number the model covers). */
  function ParseTime(timing: string): (r: Option<TimeOfDay>)
    ensures r.Some? ==> ':' in timing
  {
    var token := SplitFirst(timing, ' ').0;
    var (hoursText, rest) := SplitFirst(token, ':');
    if rest.None? then None
    else
      var minutesText := SplitFirst(rest.value, ':').0;
      var hours := ToNumber(hoursText);
      var minutes := ToNumber(minutesText);
      if hours.Some? && minutes.Some? then Some(TimeOfDay(hours.value, minutes.value)) else None
  }

  /** `timing` is a field of digits `h`, ':', a field of digits `m`, further ':'-led fields
      `more`, and then nothing or a space followed by any text `suffix`. */
  predicate IsTimingShape(timing: string, h: string, m: string, more: string, suffix: string) {
    && timing == h + ":" + m + more + suffix
    && AllDigits(h) && AllDigits(m)
    && (more == [] || more[0] == ':') && ' ' !in more
    && (suffix == [] || suffix[0] == ' ')
  }

  /** Every timing of that shape is read as the value of its first field in hours and of its
      second in minutes, unpadded, out of range or empty fields included
      ("5:07" is 5:07, "25:00" is 25:00, ":30" is 0:30, "05:12:00" is 5:12). */
  lemma {:induction false} ParseTimeReads(timing: string, h: string, m: string, more: string, suffix: string)
    requires IsTimingShape(timing, h, m, more, suffix)
    ensures ParseTime(timing) == Some(TimeOfDay(DecimalValue(h), DecimalValue(m)))
  {
    var line := h + ":" + m + more;
    DigitsHoldNoSeparator(h, ' ');
    DigitsHoldNoSeparator(m, ' ');
    assert ' ' !in line by {
      assert forall i :: 0 <= i < |line| ==> line[i] == ' ' ==> |h| + 1 + |m| <= i;
    }
    SplitFirstAt(line, suffix, ' ');
    assert SplitFirst(timing, ' ').0 == line;
    DigitsHoldNoSeparator(h, ':');
    assert line == h + [':'] + (m + more);
    SplitFirstAtSeparator(h, m + more, ':');
    DigitsHoldNoSeparator(m, ':');
    SplitFirstAt(m, more, ':');
  }

  /** Conversely, a timing is read only when it has that shape, and then as its two fields. */
  lemma {:induction false} ParseTimeOnlyReadsShape(timing: string)
    requires ParseTime(timing).Some?
    ensures exists h, m, more, suffix ::
              IsTimingShape(timing, h, m, more, suffix)
              && ParseTime(timing) == Some(TimeOfDay(DecimalValue(h), DecimalValue(m)))
  {
    var token := SplitFirst(timing, ' ').0;
    var (h, rest) := SplitFirst(token, ':');
    assert rest.Some?;
    var m := SplitFirst(rest.value, ':').0;
    assert ParseTime(timing) == Some(TimeOfDay(ToNumber(h).value, ToNumber(m).value));
    assert AllDigits(h) && AllDigits(m);
    var t := TimeOfDay(DecimalValue(h), DecimalValue(m));
    assert ParseTime(timing) == Some(t);
    FieldsOfTiming(timing, token, h, rest.value, m);
    assert IsTimingShape(timing, h, m, rest.value[|m|..], timing[|token|..]) && ParseTime(timing) == Some(t);
  }

  /** The pieces `ParseTime` cuts a timing into put it back together in the timing shape. */
  lemma {:induction false} FieldsOfTiming(timing: string, token: string, h: string, rest: string, m: string)
    requires token == SplitFirst(timing, ' ').0
    requires SplitFirst(token, ':') == (h, Some(rest))
    requires m == SplitFirst(rest, ':').0
    ensures var more, suffix := rest[|m|..], timing[|token|..];
      && timing == h + ":" + m + more + suffix
      && (more == [] || more[0] == ':') && ' ' !in more
      && (suffix == [] || suffix[0] == ' ')
  {
    SplitFirstLeaves(timing, ' ');
    SplitFirstLeaves(token, ':');
    SplitFirstLeaves(rest, ':');
    Reassemble(timing, token, h, rest, m);
  }

  lemma {:induction false} Reassemble(timing: string, token: string, h: string, rest: string, m: string)
    requires |token| <= |timing| && |h| < |token| && |m| <= |rest|
    requires timing == token + timing[|token|..]
    requires timing[|token|..] == [] || timing[|token|..][0] == ' '
    requires ' ' !in token
    requires token == h + token[|h|..] && token[|h|..] != [] && token[|h|..][0] == ':'
    requires rest == token[|h| + 1..]
    requires rest == m + rest[|m|..] && (rest[|m|..] == [] || rest[|m|..][0] == ':')
    ensures var more, suffix := rest[|m|..], timing[|token|..];
      && timing == h + ":" + m + more + suffix
      && (more == [] || more[0] == ':') && ' ' !in more
      && (suffix == [] || suffix[0] == ' ')
  {
    var more := rest[|m|..];
    assert token == h + ":" + rest;
    assert more == token[|h| + 1 + |m|..];
    assert ' ' !in more by {
      forall i | 0 <= i < |more| ensures more[i] != ' ' {
        assert more[i] == token[|h| + 1 + |m| + i];
      }
    }
    assert token == h + ":" + m + more;
  }

  function Digit(n: nat): char
    requires n < 10
  {
    ('0' as int + n) as char
  }

  function TwoDigits(n: nat): (s: string)
    requires n < 100
  {
    [Digit(n / 10), Digit(n % 10)]
  }

  /** The zero-padded 24-hour "HH:MM" a prayer-times page sends. */
  function Format(t: TimeOfDay): string
    requires IsValid(t)
  {
    TwoDigits(t.hours) + ":" + TwoDigits(t.minutes)
  }

  lemma TwoDigitsValue(n: nat)
    requires n < 100
    ensures ToNumber(TwoDigits(n)) == Some(n)
  {
    var s := TwoDigits(n);
    assert AllDigits(s);
    assert s[..1] == [Digit(n / 10)];
    assert s[..1][..0] == [];
    assert DecimalValue(s[..1]) == n / 10;
    assert DecimalValue(s) == 10 * (n / 10) + n % 10;
  }

  /** Parsing inverts formatting, whatever text follows after a space
      (for example "05:12 (EET)"). */
  lemma {:induction false} ParseFormatRoundTrip(t: TimeOfDay, suffix: string)
    requires IsValid(t)
    requires suffix == [] || suffix[0] == ' '
    ensures ParseTime(Format(t) + suffix) == Some(t)
  {
    var hh, mm := TwoDigits(t.hours), TwoDigits(t.minutes);
    TwoDigitsValue(t.hours);
    TwoDigitsValue(t.minutes);
    assert Format(t) + suffix == hh + ":" + mm + [] + suffix;
    ParseTimeReads(Format(t) + suffix, hh, mm, [], suffix);
  }

}
