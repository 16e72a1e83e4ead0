/**
 * The relative/absolute chat timestamp text (src/utils/time.ts).
 *
 * The host `Date` objects are replaced by their millisecond instants and their
 * broken-down local calendar fields, so the text is computed from integers.
 */
module ChatTime {

  /** The local calendar fields `getFullYear`, `getMonth` (0-based), `getDate`, `getHours`, `getMinutes`. */
  datatype DateFields = DateFields(year: int, month: nat, day: nat, hours: nat, minutes: nat)

  /** The ranges a host `Date` produces: month 0..11, day 1..31, hours 0..23, minutes 0..59. */
  predicate ValidFields(f: DateFields) {
    f.month <= 11 && 1 <= f.day <= 31 && f.hours <= 23 && f.minutes <= 59
  }

  const MsPerMinute: int := 60000
  const JustNow: string := "刚刚"
  const MinutesAgoSuffix: string := "分钟前"

  // ---- decimal rendering -------------------------------------------------

  predicate IsDigit(c: char) {
    '0' <= c <= '9'
  }

  /** Every character is a decimal digit. */
  predicate AllDigits(s: string) {
    forall i :: 0 <= i < |s| ==> IsDigit(s[i])
  }

  /** The value of one digit character (zero for any other character). */
  function DigitValue(c: char): (d: nat)
    ensures d < 10
  {
    if IsDigit(c) then (c as int) - ('0' as int) else 0
  }

  function DigitChar(d: nat): (c: char)
    requires d < 10
    ensures IsDigit(c) && DigitValue(c) == d
  {
    ('0' as int + d) as char
  }

  /** `n.toString()` for a non-negative integer. */
  function NatToString(n: nat): (s: string)
    decreases n
  {
    if n < 10 then [DigitChar(n)] else NatToString(n / 10) + [DigitChar(n % 10)]
  }

  /** The value of a string of decimal digits; the independent reading of a rendering. */
  function DigitsValue(s: string): (v: nat)
    decreases |s|
  {
    if s == [] then 0 else DigitsValue(s[..|s| - 1]) * 10 + DigitValue(s[|s| - 1])
  }

  /** The rendering is a non-empty digit string without a leading zero that reads back as `n`. */
  lemma {:induction false} NatToStringRoundTrip(n: nat)
    ensures |NatToString(n)| >= 1
    ensures AllDigits(NatToString(n))
    ensures n >= 10 ==> NatToString(n)[0] != '0'
    ensures DigitsValue(NatToString(n)) == n
    decreases n
  {
    if n >= 10 {
      NatToStringRoundTrip(n / 10);
      var s := NatToString(n);
      assert s[..|s| - 1] == NatToString(n / 10);
    }
  }

  /** One digit below 10, two digits from 10 to 99. */
  lemma NatToStringLength(n: nat)
    ensures n < 10 ==> |NatToString(n)| == 1
    ensures 10 <= n <= 99 ==> |NatToString(n)| == 2
  {
    if 10 <= n <= 99 {
      assert n / 10 < 10;
    }
  }

  // ---- pad ---------------------------------------------------------------

  /** `padStart`: fill on the left up to `width` characters. */
  function PadStart(s: string, width: nat, fill: char): (r: string)
    ensures |r| == if |s| >= width then |s| else width
    ensures |s| >= width ==> r == s
  {
    if |s| >= width then s else seq(width - |s|, _ => fill) + s
  }

  /** A padded result is `fill` repeated up to the width, followed by `s`. */
  lemma PadStartContents(s: string, width: nat, fill: char)
    ensures var r := PadStart(s, width, fill);
      r[|r| - |s|..] == s && forall i :: 0 <= i < |r| - |s| ==> r[i] == fill
  {
  }

  /** The inner `pad`: the decimal rendering, left-padded with '0' to two characters. */
  function Pad(n: nat): string {
    PadStart(NatToString(n), 2, '0')
  }

  /** One leading '0' does not change the value of a digit string. */
  lemma {:induction false} LeadingZeroValue(s: string)
    ensures DigitsValue(['0'] + s) == DigitsValue(s)
    decreases |s|
  {
    if s != [] {
      var t := ['0'] + s;
      assert t[..|t| - 1] == ['0'] + s[..|s| - 1];
      LeadingZeroValue(s[..|s| - 1]);
    }
  }

  /**
   * `pad(n)` is at least two characters of digits reading back as `n`;
   * exactly two for n <= 99, and the plain rendering from 10 on.
   */
  lemma PadProperties(n: nat)
    ensures |Pad(n)| >= 2
    ensures n <= 99 ==> |Pad(n)| == 2
    ensures n >= 10 ==> Pad(n) == NatToString(n)
    ensures n < 10 ==> Pad(n) == ['0', DigitChar(n)]
    ensures AllDigits(Pad(n))
    ensures DigitsValue(Pad(n)) == n
  {
    NatToStringRoundTrip(n);
    NatToStringLength(n);
    if n < 10 {
      assert Pad(n) == ['0'] + NatToString(n);
      LeadingZeroValue(NatToString(n));
    }
  }

  // ---- formatChatTime ----------------------------------------------------

  /** Whole minutes elapsed, rounded down; Dafny's division by a positive divisor rounds down as `Math.floor` does. */
  function DiffMinutes(dateMs: int, nowMs: int): (d: int)
    ensures d * MsPerMinute <= nowMs - dateMs < (d + 1) * MsPerMinute
  {
    (nowMs - dateMs) / MsPerMinute
  }

  /** `isToday`: year, month and day of month all agree. */
  predicate SameDay(date: DateFields, now: DateFields) {
    date.year == now.year && date.month == now.month && date.day == now.day
  }

  /** `timeStrSimple`: `HH:MM`. */
  function ClockText(date: DateFields): string {
    Pad(date.hours) + [':'] + Pad(date.minutes)
  }

  /** The label for an earlier day: `MM-DD HH:MM`. */
  function DateText(date: DateFields): string {
    Pad(date.month + 1) + ['-'] + Pad(date.day) + [' '] + ClockText(date)
  }

  /** The minute count followed by "分钟前". */
  function MinutesAgoText(minutes: nat): string {
    NatToString(minutes) + MinutesAgoSuffix
  }

  function FormatChatTime(dateMs: int, nowMs: int, date: DateFields, now: DateFields): string {
    var diffMinutes := DiffMinutes(dateMs, nowMs);
    if diffMinutes < 60 then
      (if diffMinutes <= 0 then JustNow else MinutesAgoText(diffMinutes))
    else if SameDay(date, now) then
      ClockText(date)
    else
      DateText(date)
  }

  /** "刚刚" exactly when less than one whole minute has passed, future instants included. */
  lemma JustNowExactly(dateMs: int, nowMs: int, date: DateFields, now: DateFields)
    ensures FormatChatTime(dateMs, nowMs, date, now) == JustNow <==> DiffMinutes(dateMs, nowMs) <= 0
    ensures dateMs > nowMs ==> FormatChatTime(dateMs, nowMs, date, now) == JustNow
  {
    var d := DiffMinutes(dateMs, nowMs);
    var text := FormatChatTime(dateMs, nowMs, date, now);
    if 1 <= d < 60 {
      assert text == MinutesAgoText(d);
      assert text[|text| - 1] == '前' != JustNow[|JustNow| - 1];
    } else if d >= 60 {
      PadProperties(date.hours);
      PadProperties(date.minutes);
      PadProperties(date.month + 1);
      PadProperties(date.day);
      assert |ClockText(date)| >= 5;
      assert |DateText(date)| >= 5;
      assert text == ClockText(date) || text == DateText(date);
    }
  }

  /** Between one and fifty-nine minutes: the count in decimal, then "分钟前". */
  lemma MinutesAgoLabel(dateMs: int, nowMs: int, date: DateFields, now: DateFields)
    requires 1 <= DiffMinutes(dateMs, nowMs) <= 59
    ensures var text := FormatChatTime(dateMs, nowMs, date, now);
      && 4 <= |text| <= 5
      && text[|text| - 3..] == MinutesAgoSuffix
      && AllDigits(text[..|text| - 3])
      && DigitsValue(text[..|text| - 3]) == DiffMinutes(dateMs, nowMs)
      && text[..|text| - 3] == NatToString(DiffMinutes(dateMs, nowMs))
      && text[0] != '0'
  {
    var d := DiffMinutes(dateMs, nowMs);
    var text := FormatChatTime(dateMs, nowMs, date, now);
    NatToStringRoundTrip(d);
    NatToStringLength(d);
    assert text == MinutesAgoText(d);
    assert text[..|text| - 3] == NatToString(d);
  }

  /** Two two-character parts around one separator. */
  lemma JoinParts(a: string, sep: char, b: string)
    requires |a| == 2 && |b| == 2
    ensures var t := a + [sep] + b;
      |t| == 5 && t[2] == sep && t[..2] == a && t[3..] == b
  {
    var t := a + [sep] + b;
    assert t[..2] == a;
    assert t[3..] == b;
  }

  /** The five characters `HH:MM` of a valid clock, reading back as its hours and minutes. */
  lemma ClockTextProperties(date: DateFields)
    requires ValidFields(date)
    ensures var t := ClockText(date);
      && |t| == 5 && t[2] == ':'
      && AllDigits(t[..2]) && AllDigits(t[3..])
      && DigitsValue(t[..2]) == date.hours
      && DigitsValue(t[3..]) == date.minutes
  {
    PadProperties(date.hours);
    PadProperties(date.minutes);
    JoinParts(Pad(date.hours), ':', Pad(date.minutes));
  }

  /** An hour or more ago on the same calendar day: `HH:MM`, five characters. */
  lemma TodayLabel(dateMs: int, nowMs: int, date: DateFields, now: DateFields)
    requires ValidFields(date)
    requires DiffMinutes(dateMs, nowMs) >= 60 && SameDay(date, now)
    ensures var text := FormatChatTime(dateMs, nowMs, date, now);
      && text == ClockText(date)
      && |text| == 5 && text[2] == ':'
      && AllDigits(text[..2]) && AllDigits(text[3..])
      && DigitsValue(text[..2]) == date.hours
      && DigitsValue(text[3..]) == date.minutes
  {
    ClockTextProperties(date);
  }

  /** Four two-character parts joined as `MM-DD HH:MM`. */
  lemma JoinDate(mm: string, dd: string, hh: string, mi: string)
    requires |mm| == 2 && |dd| == 2 && |hh| == 2 && |mi| == 2
    ensures var r := mm + ['-'] + dd + [' '] + (hh + [':'] + mi);
      && |r| == 11 && r[2] == '-' && r[5] == ' ' && r[8] == ':'
      && r[..2] == mm && r[3..5] == dd && r[6..8] == hh && r[9..] == mi
  {
    var r := mm + ['-'] + dd + [' '] + (hh + [':'] + mi);
    assert r[..2] == mm;
    assert r[3..5] == dd;
    assert r[6..8] == hh;
    assert r[9..] == mi;
  }

  /** `MM-DD HH:MM` of valid fields: eleven characters reading back as month + 1, day, hours, minutes. */
  lemma DateTextProperties(date: DateFields)
    requires ValidFields(date)
    ensures var text := DateText(date);
      && |text| == 11 && text[2] == '-' && text[5] == ' ' && text[8] == ':'
      && AllDigits(text[..2]) && AllDigits(text[3..5])
      && AllDigits(text[6..8]) && AllDigits(text[9..])
      && DigitsValue(text[..2]) == date.month + 1
      && DigitsValue(text[3..5]) == date.day
      && DigitsValue(text[6..8]) == date.hours
      && DigitsValue(text[9..]) == date.minutes
  {
    var mm, dd, hh, mi := Pad(date.month + 1), Pad(date.day), Pad(date.hours), Pad(date.minutes);
    PadProperties(date.month + 1);
    PadProperties(date.day);
    PadProperties(date.hours);
    PadProperties(date.minutes);
    JoinDate(mm, dd, hh, mi);
    assert DateText(date) == mm + ['-'] + dd + [' '] + (hh + [':'] + mi);
  }

  /** An hour or more ago on another day: `MM-DD HH:MM`, eleven characters, month counted from 1. */
  lemma EarlierDayLabel(dateMs: int, nowMs: int, date: DateFields, now: DateFields)
    requires ValidFields(date)
    requires DiffMinutes(dateMs, nowMs) >= 60 && !SameDay(date, now)
    ensures var text := FormatChatTime(dateMs, nowMs, date, now);
      && text == DateText(date)
      && |text| == 11 && text[2] == '-' && text[5] == ' ' && text[8] == ':'
      && AllDigits(text[..2]) && AllDigits(text[3..5])
      && AllDigits(text[6..8]) && AllDigits(text[9..])
      && DigitsValue(text[..2]) == date.month + 1
      && DigitsValue(text[3..5]) == date.day
      && DigitsValue(text[6..8]) == date.hours
      && DigitsValue(text[9..]) == date.minutes
  {
    DateTextProperties(date);
  }

  /** The year never appears: it matters only through the same-day test. */
  lemma YearNotShown(dateMs: int, nowMs: int, date: DateFields, now: DateFields, y1: int, y2: int)
    requires SameDay(date, now) == SameDay(date.(year := y1), now.(year := y2))
    ensures FormatChatTime(dateMs, nowMs, date, now)
         == FormatChatTime(dateMs, nowMs, date.(year := y1), now.(year := y2))
  {
  }
}
