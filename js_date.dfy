/** The parts of JavaScript's `Date`, `parseInt` and `String.prototype.split`
    that the calendar code relies on. A `Date` is its time value: a count of
    milliseconds, or NaN for an Invalid Date. Local time is taken to be a fixed
    offset from the epoch (no time zone, no daylight saving time): the model
    counts milliseconds of local time directly. */
module JsDate {
  import opened Wrappers

  const MS_PER_SECOND := 1000
  const MS_PER_MINUTE := 60000
  const MS_PER_HOUR := 3600000
  const MS_PER_DAY := 86400000

  /** A `Date` object's time value: `Some(ms)`, or `None` for an Invalid Date. */
  type TimeValue = Option<int>

  // The local-time component getters (`getHours()`, `getMinutes()`, ...).
  // Dafny's `/` and `%` round towards minus infinity for a positive divisor,
  // which is how ECMAScript splits a time value into days and times of day.

  function DayIndex(t: int): int { t / MS_PER_DAY }
  function HourOfDay(t: int): int { (t % MS_PER_DAY) / MS_PER_HOUR }
  function MinuteOfHour(t: int): int { (t % MS_PER_HOUR) / MS_PER_MINUTE }
  function SecondOfMinute(t: int): int { (t % MS_PER_MINUTE) / MS_PER_SECOND }
  function MillisecondOfSecond(t: int): int { t % MS_PER_SECOND }

  /** The components of a time value, put back together, give it again. */
  lemma Decompose(t: int)
    ensures 0 <= HourOfDay(t) < 24 && 0 <= MinuteOfHour(t) < 60
    ensures 0 <= SecondOfMinute(t) < 60 && 0 <= MillisecondOfSecond(t) < 1000
    ensures t == DayIndex(t) * MS_PER_DAY + HourOfDay(t) * MS_PER_HOUR + MinuteOfHour(t) * MS_PER_MINUTE
                 + SecondOfMinute(t) * MS_PER_SECOND + MillisecondOfSecond(t)
  {
    var d, h, h', mi, s := t % MS_PER_DAY, t % MS_PER_HOUR, (t % MS_PER_DAY) % MS_PER_HOUR, t % MS_PER_MINUTE, t % MS_PER_SECOND;
    assert t == DayIndex(t) * MS_PER_DAY + d;
    assert d == HourOfDay(t) * MS_PER_HOUR + h';
    assert h == h' by { ModOfMod(t, MS_PER_DAY / MS_PER_HOUR, MS_PER_HOUR); }
    assert h == MinuteOfHour(t) * MS_PER_MINUTE + h % MS_PER_MINUTE;
    assert h % MS_PER_MINUTE == mi by { ModOfMod(t, MS_PER_HOUR / MS_PER_MINUTE, MS_PER_MINUTE); }
    assert mi == SecondOfMinute(t) * MS_PER_SECOND + mi % MS_PER_SECOND;
    assert mi % MS_PER_SECOND == s by { ModOfMod(t, MS_PER_MINUTE / MS_PER_SECOND, MS_PER_SECOND); }
  }

  /** Reducing modulo a multiple of `m` keeps the remainder modulo `m`. */
  lemma ModOfMod(t: int, k: int, m: int)
    requires 0 < k && 0 < m
    ensures (t % (k * m)) % m == t % m
  {
    var q := t / (k * m);
    var r := t % (k * m);
    assert t == q * (k * m) + r;
    assert t == (q * k) * m + r;
    ShiftMod(r, q * k, m);
  }

  /** Adding a multiple of `m` does not change the remainder modulo `m`, and
      moves the quotient by exactly that multiple. */
  lemma ShiftMod(x: int, k: int, m: int)
    requires 0 < m
    ensures (x + k * m) % m == x % m && (x + k * m) / m == x / m + k
  {
    var q, r := x / m, x % m;
    assert x == q * m + r && 0 <= r < m;
    assert x + k * m == (q + k) * m + r;
    DivModUnique(x + k * m, q + k, r, m);
  }

  /** Euclidean division by a positive `m` has exactly one answer. */
  lemma DivModUnique(x: int, q: int, r: int, m: int)
    requires 0 < m && 0 <= r < m && x == q * m + r
    ensures x / m == q && x % m == r
  {
    var q', r' := x / m, x % m;
    assert q * m - q' * m == r' - r;
    if q > q' {
      MulAtLeast(q - q', m);
    } else if q < q' {
      MulAtLeast(q' - q, m);
    }
  }

  lemma MulAtLeast(k: int, m: int)
    requires 1 <= k && 0 < m
    ensures k * m >= m
  {
    assert k * m == (k - 1) * m + m;
  }

  /** The setters (`setHours(h)`, `setMinutes(m)`, `setSeconds(s)`,
      `setMilliseconds(ms)`): one component is replaced and the others kept;
      a value out of the component's range carries into the next larger one.
      A NaN argument, or an Invalid Date, gives an Invalid Date. */

  function SetHours(d: TimeValue, h: Option<int>): (r: TimeValue)
    ensures r.Some? <==> d.Some? && h.Some?
    ensures r.Some? ==> r.value == d.value + (h.value - HourOfDay(d.value)) * MS_PER_HOUR
  {
    if d.None? || h.None? then None
    else
      var t := d.value;
      Decompose(t);
      Some(DayIndex(t) * MS_PER_DAY + h.value * MS_PER_HOUR + t % MS_PER_HOUR)
  }

  function SetMinutes(d: TimeValue, m: Option<int>): (r: TimeValue)
    ensures r.Some? <==> d.Some? && m.Some?
    ensures r.Some? ==> r.value == d.value + (m.value - MinuteOfHour(d.value)) * MS_PER_MINUTE
  {
    if d.None? || m.None? then None
    else
      var t := d.value;
      Decompose(t);
      assert t % MS_PER_HOUR == MinuteOfHour(t) * MS_PER_MINUTE + t % MS_PER_MINUTE by {
        ModOfMod(t, 60, MS_PER_MINUTE);
      }
      Some(t - t % MS_PER_HOUR + m.value * MS_PER_MINUTE + t % MS_PER_MINUTE)
  }

  function SetSeconds(d: TimeValue, s: Option<int>): (r: TimeValue)
    ensures r.Some? <==> d.Some? && s.Some?
    ensures r.Some? ==> r.value == d.value + (s.value - SecondOfMinute(d.value)) * MS_PER_SECOND
  {
    if d.None? || s.None? then None
    else
      var t := d.value;
      assert t % MS_PER_MINUTE == SecondOfMinute(t) * MS_PER_SECOND + t % MS_PER_SECOND by {
        ModOfMod(t, 60, MS_PER_SECOND);
      }
      Some(t - t % MS_PER_MINUTE + s.value * MS_PER_SECOND + t % MS_PER_SECOND)
  }

  function SetMilliseconds(d: TimeValue, ms: Option<int>): (r: TimeValue)
    ensures r.Some? <==> d.Some? && ms.Some?
    ensures r.Some? ==> r.value == d.value + (ms.value - MillisecondOfSecond(d.value))
    ensures r.Some? && 0 <= ms.value < MS_PER_SECOND ==>
      MillisecondOfSecond(r.value) == ms.value
      && r.value - MillisecondOfSecond(r.value) == d.value - MillisecondOfSecond(d.value)
  {
    if d.None? || ms.None? then None
    else
      var t := d.value;
      ReplaceMillisecond(t, ms.value);
      Some(t - t % MS_PER_SECOND + ms.value)
  }

  /** Putting a millisecond `ms` in range on the start of `t`'s second gives
      a time value whose millisecond field is `ms`. */
  lemma ReplaceMillisecond(t: int, ms: int)
    ensures 0 <= ms < MS_PER_SECOND ==> MillisecondOfSecond(t - t % MS_PER_SECOND + ms) == ms
  {
    if 0 <= ms < MS_PER_SECOND {
      DivModUnique(t - t % MS_PER_SECOND + ms, t / MS_PER_SECOND, ms, MS_PER_SECOND);
    }
  }

  /** `setHours(getHours() + k)` moves the instant by exactly `k` hours. */
  lemma SetHoursBy(t: int, k: int)
    ensures SetHours(Some(t), Some(HourOfDay(t) + k)) == Some(t + k * MS_PER_HOUR)
  {
    var h := HourOfDay(t) + k;
    assert h - HourOfDay(t) == k;
  }

  /** `setMinutes(getMinutes() + k)` moves the instant by exactly `k` minutes. */
  lemma SetMinutesBy(t: int, k: int)
    ensures SetMinutes(Some(t), Some(MinuteOfHour(t) + k)) == Some(t + k * MS_PER_MINUTE)
  {
    var m := MinuteOfHour(t) + k;
    assert m - MinuteOfHour(t) == k;
  }

  /** `setDate(getDate() + k)`: the same local time of day, `k` days later. */
  function AddDays(d: TimeValue, k: int): (r: TimeValue)
    ensures r.Some? <==> d.Some?
    ensures r.Some? ==>
      DayIndex(r.value) == DayIndex(d.value) + k
      && HourOfDay(r.value) == HourOfDay(d.value) && MinuteOfHour(r.value) == MinuteOfHour(d.value)
      && SecondOfMinute(r.value) == SecondOfMinute(d.value)
      && MillisecondOfSecond(r.value) == MillisecondOfSecond(d.value)
  {
    if d.None? then None
    else
      ShiftByDays(d.value, k);
      Some(d.value + k * MS_PER_DAY)
  }

  /** Moving a time value by whole days changes its day and nothing else. */
  lemma ShiftByDays(t: int, k: int)
    ensures DayIndex(t + k * MS_PER_DAY) == DayIndex(t) + k
    ensures HourOfDay(t + k * MS_PER_DAY) == HourOfDay(t) && MinuteOfHour(t + k * MS_PER_DAY) == MinuteOfHour(t)
    ensures SecondOfMinute(t + k * MS_PER_DAY) == SecondOfMinute(t)
    ensures MillisecondOfSecond(t + k * MS_PER_DAY) == MillisecondOfSecond(t)
  {
    ShiftMod(t, k, MS_PER_DAY);
    assert k * MS_PER_DAY == (k * 24) * MS_PER_HOUR;
    ShiftMod(t, k * 24, MS_PER_HOUR);
    assert k * MS_PER_DAY == (k * 1440) * MS_PER_MINUTE;
    ShiftMod(t, k * 1440, MS_PER_MINUTE);
    assert k * MS_PER_DAY == (k * 86400) * MS_PER_SECOND;
    ShiftMod(t, k * 86400, MS_PER_SECOND);
  }

  /** Moving a time value by whole hours keeps its minutes, seconds and
      milliseconds; by whole minutes, its seconds and milliseconds; by whole
      seconds, its milliseconds. */
  lemma ShiftKeepsLowerFields(t: int, hours: int, minutes: int, seconds: int)
    ensures MinuteOfHour(t + hours * MS_PER_HOUR) == MinuteOfHour(t)
    ensures SecondOfMinute(t + hours * MS_PER_HOUR + minutes * MS_PER_MINUTE) == SecondOfMinute(t)
    ensures MillisecondOfSecond(t + hours * MS_PER_HOUR + minutes * MS_PER_MINUTE + seconds * MS_PER_SECOND)
            == MillisecondOfSecond(t)
  {
    ShiftMod(t, hours, MS_PER_HOUR);
    ShiftMod(t, hours * 60 + minutes, MS_PER_MINUTE);
    ShiftMod(t, hours * 3600 + minutes * 60 + seconds, MS_PER_SECOND);
  }

  /** A time value built from a day and a time of day inside their ranges
      reads back the same components. */
  lemma ComponentsOf(day: int, h: int, m: int, s: int, ms: int)
    requires 0 <= h < 24 && 0 <= m < 60 && 0 <= s < 60 && 0 <= ms < 1000
    ensures var t := day * MS_PER_DAY + h * MS_PER_HOUR + m * MS_PER_MINUTE + s * MS_PER_SECOND + ms;
      DayIndex(t) == day && HourOfDay(t) == h && MinuteOfHour(t) == m
      && SecondOfMinute(t) == s && MillisecondOfSecond(t) == ms
  {
    var t := day * MS_PER_DAY + h * MS_PER_HOUR + m * MS_PER_MINUTE + s * MS_PER_SECOND + ms;
    var inDay := h * MS_PER_HOUR + m * MS_PER_MINUTE + s * MS_PER_SECOND + ms;
    DivModUnique(t, day, inDay, MS_PER_DAY);
    var inHour := m * MS_PER_MINUTE + s * MS_PER_SECOND + ms;
    DivModUnique(inDay, h, inHour, MS_PER_HOUR);
    DivModUnique(t, day * 24 + h, inHour, MS_PER_HOUR);
    var inMinute := s * MS_PER_SECOND + ms;
    DivModUnique(inHour, m, inMinute, MS_PER_MINUTE);
    DivModUnique(t, (day * 24 + h) * 60 + m, inMinute, MS_PER_MINUTE);
    DivModUnique(inMinute, s, ms, MS_PER_SECOND);
    DivModUnique(t, ((day * 24 + h) * 60 + m) * 60 + s, ms, MS_PER_SECOND);
  }

  // parseInt(s, 10) and the first two fields of s.split(':').

  predicate IsDigit(c: char) { '0' <= c <= '9' }

  predicate AllDigits(s: string) { forall i :: 0 <= i < |s| ==> IsDigit(s[i]) }

  /** The value of a decimal numeral. */
  function DigitsValue(s: string): nat
    requires AllDigits(s)
  {
    if s == [] then 0 else 10 * DigitsValue(s[..|s| - 1]) + (s[|s| - 1] as int - '0' as int)
  }

  /** The longest prefix of `s` made of decimal digits. */
  function LeadingDigits(s: string): (r: string)
    ensures AllDigits(r)
  {
    if s != [] && IsDigit(s[0]) then [s[0]] + LeadingDigits(s[1..]) else []
  }

  predicate IsSpace(c: char) {
    c == ' ' || c == '\t' || c == '\n' || c == '\r' || c == '\U{B}' || c == '\U{C}'
  }

  /** `s` without its leading white space. */
  function TrimStart(s: string): string
  {
    if s != [] && IsSpace(s[0]) then TrimStart(s[1..]) else s
  }

  /** `parseInt(s, 10)`: optional white space and sign, then as many decimal
      digits as there are; NaN (`None`) when there is no digit. */
  function ParseInt(s: string): Option<int>
  {
    var t := TrimStart(s);
    var negative := t != [] && t[0] == '-';
    var unsigned := if t != [] && (t[0] == '-' || t[0] == '+') then t[1..] else t;
    var digits := LeadingDigits(unsigned);
    if digits == [] then None
    else
      var n: int := DigitsValue(digits);
      Some(if negative then -n else n)
  }

  /** A numeral parses to its value. */
  lemma ParseIntOfNumeral(s: string)
    requires s != [] && AllDigits(s)
    ensures ParseInt(s) == Some(DigitsValue(s))
  {
    assert TrimStart(s) == s;
    LeadingDigitsOfNumeral(s);
  }

  lemma {:induction false} LeadingDigitsOfNumeral(s: string)
    requires AllDigits(s)
    ensures LeadingDigits(s) == s
  {
    if s != [] {
      LeadingDigitsOfNumeral(s[1..]);
    }
  }

  /** The text before the first ':' of `s` (all of `s` when there is none). */
  function BeforeColon(s: string): (r: string)
    ensures r <= s && ':' !in r
    ensures |r| < |s| ==> s[|r|] == ':'
  {
    if s == [] || s[0] == ':' then [] else [s[0]] + BeforeColon(s[1..])
  }

  /** `const [hours, minutes] = s.split(':')`: the first field, and the second
      one or `undefined` (`None`) when `s` holds no ':'. */
  function SplitTime(s: string): (r: (string, Option<string>))
    ensures r.0 <= s && ':' !in r.0
    ensures r.1.None? <==> ':' !in s
    ensures r.1.None? ==> r.0 == s
    ensures r.1.Some? ==> s[|r.0|] == ':' && r.1.value <= s[|r.0| + 1..] && ':' !in r.1.value
    ensures r.1.Some? ==> var n := |r.0| + 1 + |r.1.value|; n < |s| ==> s[n] == ':'
  {
    var first := BeforeColon(s);
    if |first| == |s| then (first, None)
    else (first, Some(BeforeColon(s[|first| + 1..])))
  }

  /** A well-formed "HH:mm" string: two digits, a colon, two digits. */
  predicate IsClockTime(s: string) {
    |s| == 5 && IsDigit(s[0]) && IsDigit(s[1]) && s[2] == ':' && IsDigit(s[3]) && IsDigit(s[4])
  }

  function ClockHours(s: string): nat requires IsClockTime(s) {
    10 * (s[0] as int - '0' as int) + (s[1] as int - '0' as int)
  }

  function ClockMinutes(s: string): nat requires IsClockTime(s) {
    10 * (s[3] as int - '0' as int) + (s[4] as int - '0' as int)
  }

  /** Splitting "HH:mm" gives "HH" and "mm". */
  lemma SplitClockTime(s: string)
    requires IsClockTime(s)
    ensures SplitTime(s) == (s[..2], Some(s[3..]))
  {
    assert BeforeColon(s[2..]) == [];
    assert BeforeColon(s[1..]) == [s[1]];
    assert BeforeColon(s) == s[..2];
    var rest := s[3..];
    assert BeforeColon(rest[2..]) == [];
    assert BeforeColon(rest[1..]) == [rest[1]];
    assert BeforeColon(rest) == rest;
  }

  /** A two-digit numeral parses to its value. */
  lemma ParseTwoDigits(s: string)
    requires |s| == 2 && IsDigit(s[0]) && IsDigit(s[1])
    ensures ParseInt(s) == Some(10 * (s[0] as int - '0' as int) + (s[1] as int - '0' as int))
  {
    ParseIntOfNumeral(s);
    TwoDigitsValue(s);
  }

  lemma TwoDigitsValue(s: string)
    requires |s| == 2 && IsDigit(s[0]) && IsDigit(s[1])
    ensures AllDigits(s) && DigitsValue(s) == 10 * (s[0] as int - '0' as int) + (s[1] as int - '0' as int)
  {
    var first := s[..1];
    assert first == [s[0]] && first[..0] == [];
    assert DigitsValue(first) == s[0] as int - '0' as int;
  }

  /** Splitting and parsing "HH:mm" yields its hour and its minute. */
  lemma ParseClockTime(s: string)
    requires IsClockTime(s)
    ensures ParseInt(SplitTime(s).0) == Some(ClockHours(s))
    ensures SplitTime(s).1.Some? && ParseInt(SplitTime(s).1.value) == Some(ClockMinutes(s))
  {
    SplitClockTime(s);
    var hh, mm := s[..2], s[3..];
    assert hh[0] == s[0] && hh[1] == s[1] && mm[0] == s[3] && mm[1] == s[4];
    ParseTwoDigits(hh);
    ParseTwoDigits(mm);
  }
}
