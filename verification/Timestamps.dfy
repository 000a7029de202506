/**
 * The text of instants: RFC 3339 timestamps in UTC (internal/protocol/time.go:16-39), Unix seconds in decimal
 * (internal/protocol/time.go:41-68) and the material of a scheduled action's key (internal/protocol/ids.go:97-102).
 */
module Timestamps {
  import opened Wrappers
  import opened Calendar

  datatype TextError = InvalidTimestamp

  const MAX_INT64 := 0x7FFF_FFFF_FFFF_FFFF

  // ---------- decimal digits ----------

  function Digit(n: int): char
    requires 0 <= n < 10
  {
    "0123456789"[n]
  }

  predicate IsDigit(c: char) {
    '0' <= c <= '9'
  }

  function DigitValue(c: char): (n: int)
    requires IsDigit(c)
    ensures 0 <= n < 10 && Digit(n) == c
  {
    c as int - '0' as int
  }

  predicate AllDigits(s: string) {
    forall c :: c in s ==> IsDigit(c)
  }

  /** The number a digit string denotes; leading zeros are allowed and the empty string denotes zero. */
  function Value(s: string): (n: nat)
    requires AllDigits(s)
  {
    if s == "" then 0 else 10 * Value(s[..|s| - 1]) + DigitValue(s[|s| - 1])
  }

  /** Exactly `width` digits, with leading zeros. */
  function Fixed(n: nat, width: nat): (s: string)
    ensures |s| == width && AllDigits(s)
  {
    if width == 0 then "" else Fixed(n / 10, width - 1) + [Digit(n % 10)]
  }

  /** Decimal notation without leading zeros. */
  function Decimal(n: nat): (s: string)
    ensures |s| > 0 && AllDigits(s)
    ensures s[0] == '0' ==> n == 0 && s == "0"
  {
    if n < 10 then [Digit(n)] else Decimal(n / 10) + [Digit(n % 10)]
  }

  function Pow10(k: nat): nat {
    if k == 0 then 1 else 10 * Pow10(k - 1)
  }

  lemma {:induction false} FixedValue(n: nat, width: nat)
    requires n < Pow10(width)
    ensures Value(Fixed(n, width)) == n
  {
    if width > 0 {
      FixedValue(n / 10, width - 1);
      assert Fixed(n, width)[..width - 1] == Fixed(n / 10, width - 1);
    }
  }

  lemma {:induction false} DecimalValue(n: nat)
    ensures Value(Decimal(n)) == n
  {
    if n >= 10 {
      DecimalValue(n / 10);
      assert Decimal(n)[..|Decimal(n)| - 1] == Decimal(n / 10);
    }
  }

  /** A digit string without a superfluous leading zero is the decimal notation of its value. */
  lemma {:induction false} DecimalOfValue(s: string)
    requires AllDigits(s) && s != "" && (s[0] == '0' ==> s == "0")
    ensures Decimal(Value(s)) == s
    decreases |s|
  {
    if |s| > 1 {
      var init := s[..|s| - 1];
      LeadingDigit(init);
      DecimalOfValue(init);
      AppendDigit(Value(init), s[|s| - 1]);
      assert s == init + [s[|s| - 1]];
    }
  }

  lemma AppendDigit(n: nat, c: char)
    requires n > 0 && IsDigit(c)
    ensures Decimal(10 * n + DigitValue(c)) == Decimal(n) + [c]
  {
  }

  lemma {:induction false} LeadingDigit(s: string)
    requires AllDigits(s) && s != "" && s[0] != '0'
    ensures Value(s) > 0
    decreases |s|
  {
    if |s| > 1 {
      LeadingDigit(s[..|s| - 1]);
    }
  }

  // ---------- RFC 3339 ----------

  /** Go pads a year to four digits and writes the sign of a negative year before them. */
  function YearText(year: int): string {
    if year < 0 then "-" + (if year > -10000 then Fixed(-year, 4) else Decimal(-year))
    else if year < 10000 then Fixed(year, 4)
    else Decimal(year)
  }

  /** Everything after the year: month, day, time of day and Z, sixteen characters. */
  function DateTail(c: Civil): (s: string)
    requires ValidCivil(c)
    ensures |s| == 16
  {
    "-" + Fixed(c.month, 2) + "-" + Fixed(c.day, 2) + "T" + Fixed(c.second / 3600, 2) + ":"
    + Fixed(c.second / 60 % 60, 2) + ":" + Fixed(c.second % 60, 2) + "Z"
  }

  function FormatUTC(t: Instant): string {
    YearText(ToCivil(t).year) + DateTail(ToCivil(t))
  }

  /** The years that RFC 3339 can write (section 1: years 0000 to 9999). */
  predicate FourDigitYear(t: Instant) {
    0 <= ToCivil(t).year < 10000
  }

  /** What a lenient RFC 3339 reader finds: an instant and a fraction of a second. */
  datatype Reading = Reading(instant: Instant, nanos: nat)

  /** A field of exactly two (or four) digits. */
  function Field(s: string, from: nat, width: nat): Option<nat>
    requires from + width <= |s|
  {
    if AllDigits(s[from..from + width]) then Some(Value(s[from..from + width])) else None
  }

  function InRange(n: Option<nat>, low: int, high: int): bool {
    n.Some? && low <= n.value <= high
  }

  /** The date and time of day in the first nineteen characters of a timestamp. */
  function ParseClock(s: string): Option<Civil>
    requires |s| == 19
  {
    var year, month, day := Field(s, 0, 4), Field(s, 5, 2), Field(s, 8, 2);
    var hour, minute, second := Field(s, 11, 2), Field(s, 14, 2), Field(s, 17, 2);
    if && s[4] == '-' && s[7] == '-' && s[10] == 'T' && s[13] == ':' && s[16] == ':'
       && year.Some? && InRange(month, 1, 12) && InRange(day, 1, DaysIn(year.value, month.value))
       && InRange(hour, 0, 23) && InRange(minute, 0, 59) && InRange(second, 0, 59)
    then Some(Civil(year.value, month.value, day.value, hour.value * 3600 + minute.value * 60 + second.value))
    else None
  }

  /** The digits at the front of a string. */
  function DigitRun(s: string): (k: nat)
    ensures k <= |s| && AllDigits(s[..k])
  {
    if s == "" || !IsDigit(s[0]) then 0 else
      var k := DigitRun(s[1..]);
      assert s[..k + 1] == [s[0]] + s[1..][..k];
      k + 1
  }

  /** Nanoseconds of a fraction: its first nine digits, as if padded with zeros. */
  function Nanos(digits: string): nat
    requires AllDigits(digits)
    decreases 9 - |digits|
  {
    if |digits| >= 9 then Value(digits[..9]) else Nanos(digits + "0")
  }

  /** The offset from UTC, in seconds, that a zone designator denotes. */
  function ParseZone(s: string): Option<int> {
    if s == "Z" then Some(0)
    else if |s| == 6 && (s[0] == '+' || s[0] == '-') && s[3] == ':'
            && InRange(Field(s, 1, 2), 0, 24) && InRange(Field(s, 4, 2), 0, 60) then
      var offset := Field(s, 1, 2).value * 3600 + Field(s, 4, 2).value * 60;
      Some(if s[0] == '-' then -offset else offset)
    else None
  }

  /** The grammar of section 5.6 of RFC 3339: a fraction is optional and any offset may follow. */
  function ParseRfc3339(s: string): Result<Reading, TextError> {
    if |s| < 20 then Failure(InvalidTimestamp) else
      var clock := ParseClock(s[..19]);
      var k := if s[19] == '.' || s[19] == ',' then DigitRun(s[20..]) else 0;
      var rest := if k > 0 then s[20 + k..] else s[19..];
      var zone := ParseZone(rest);
      if clock.None? || zone.None? then Failure(InvalidTimestamp)
      else Success(Reading(ToInstant(clock.value) - zone.value, if k > 0 then Nanos(s[20..20 + k]) else 0))
  }

  /** Only the canonical spelling is accepted: UTC, whole seconds, and identical when printed again. */
  function ParseUTC(value: string): Result<Instant, TextError> {
    if value == "" then Failure(InvalidTimestamp) else
      var parsed :- ParseRfc3339(value);
      :- Need(value[|value| - 1] == 'Z', InvalidTimestamp);
      :- Need(parsed.nanos == 0, InvalidTimestamp);
      :- Need(value == FormatUTC(parsed.instant), InvalidTimestamp);
      Success(parsed.instant)
  }

  /** Where the fields of a printed timestamp stand. */
  lemma TailFields(c: Civil)
    requires ValidCivil(c)
    ensures var d := DateTail(c);
            && d[0] == '-' && d[3] == '-' && d[6] == 'T' && d[9] == ':' && d[12] == ':' && d[15] == 'Z'
            && d[1..3] == Fixed(c.month, 2) && d[4..6] == Fixed(c.day, 2) && d[7..9] == Fixed(c.second / 3600, 2)
            && d[10..12] == Fixed(c.second / 60 % 60, 2) && d[13..15] == Fixed(c.second % 60, 2)
  {
  }

  lemma TwoDigits(n: nat)
    requires n < 100
    ensures Value(Fixed(n, 2)) == n
  {
    FixedValue(n, 2);
  }

  lemma SliceOfTail(head: string, tail: string, n: nat, i: nat, j: nat)
    requires i <= j <= |tail| && |head| + j <= n <= |head| + |tail|
    ensures (head + tail)[..n][|head| + i..|head| + j] == tail[i..j]
  {
  }

  lemma ClockFields(c: Civil)
    requires ValidCivil(c) && 0 <= c.year < 10000
    ensures var s := (Fixed(c.year, 4) + DateTail(c))[..19];
            && s[4] == '-' && s[7] == '-' && s[10] == 'T' && s[13] == ':' && s[16] == ':'
            && s[0..4] == Fixed(c.year, 4) && s[5..7] == Fixed(c.month, 2) && s[8..10] == Fixed(c.day, 2)
            && s[11..13] == Fixed(c.second / 3600, 2) && s[14..16] == Fixed(c.second / 60 % 60, 2)
            && s[17..19] == Fixed(c.second % 60, 2)
  {
    hide DateTail;
    var head, tail := Fixed(c.year, 4), DateTail(c);
    TailFields(c);
    SliceOfTail(head, tail, 19, 1, 3);
    SliceOfTail(head, tail, 19, 4, 6);
    SliceOfTail(head, tail, 19, 7, 9);
    SliceOfTail(head, tail, 19, 10, 12);
    SliceOfTail(head, tail, 19, 13, 15);
  }

  /** The clock part of a printed timestamp reads back as its date. */
  lemma ClockOfPrinted(c: Civil)
    requires ValidCivil(c) && 0 <= c.year < 10000
    ensures ParseClock((Fixed(c.year, 4) + DateTail(c))[..19]) == Some(c)
  {
    hide Fixed, DateTail, DaysIn, Value;
    ClockFields(c);
    FixedValue(c.year, 4);
    TwoDigits(c.month);
    TwoDigits(c.day);
    TwoDigits(c.second / 3600);
    TwoDigits(c.second / 60 % 60);
    TwoDigits(c.second % 60);
  }

  lemma ParseOfPrinted(t: Instant)
    requires FourDigitYear(t)
    ensures ParseUTC(FormatUTC(t)) == Success(t)
  {
    hide ToCivil, ParseClock, DateTail, ToInstant, ParseRfc3339;
    ReadPrinted(ToCivil(t));
    LastOfPrinted(ToCivil(t));
  }

  lemma LastOfPrinted(c: Civil)
    requires ValidCivil(c) && 0 <= c.year < 10000
    ensures var f := Fixed(c.year, 4) + DateTail(c); |f| == 20 && f[19] == 'Z' && f[19..] == "Z"
  {
    hide Fixed, DateTail;
    TailFields(c);
  }

  lemma ReadPrinted(c: Civil)
    requires ValidCivil(c) && 0 <= c.year < 10000
    ensures ParseRfc3339(Fixed(c.year, 4) + DateTail(c)) == Success(Reading(ToInstant(c), 0))
  {
    hide Fixed, DateTail, ParseClock, ToInstant, ValidCivil, DigitRun, Nanos;
    ClockOfPrinted(c);
    LastOfPrinted(c);
  }

  /** Every spelling that is accepted has a four digit year: a longer year leaves no separator in its place. */
  lemma AcceptedYear(value: string)
    requires ParseUTC(value).Success?
    ensures FourDigitYear(ParseUTC(value).value)
  {
    hide ToCivil, DateTail, ToInstant, Fixed, ParseZone, Nanos, Value;
    var year := ToCivil(ParseUTC(value).value).year;
    assert value == YearText(year) + DateTail(ToCivil(ParseUTC(value).value));
    assert value[..19][0..4] == value[..4];
    assert IsDigit(value[0]) by {
      assert value[0] in value[..4];
    }
    assert value[4] == '-';
    YearShape(year);
  }

  lemma LongDecimal(n: nat)
    requires n >= 10000
    ensures |Decimal(n)| >= 5
  {
    LongerDecimal(n / 1000, 1);
    LongerDecimal(n / 100, 2);
    LongerDecimal(n / 10, 3);
    LongerDecimal(n, 4);
  }

  lemma LongerDecimal(n: nat, k: nat)
    requires n >= 10 && |Decimal(n / 10)| >= k
    ensures |Decimal(n)| >= k + 1
  {
  }

  lemma YearShape(year: int)
    ensures year < 0 ==> YearText(year) != "" && YearText(year)[0] == '-'
    ensures year >= 10000 ==> |YearText(year)| >= 5 && IsDigit(YearText(year)[4])
  {
    hide Decimal, Fixed;
    if year >= 10000 {
      LongDecimal(year);
      assert Decimal(year)[4] in Decimal(year);
    }
  }

  /** The canonical timestamps are a bijection with the seconds of the years 0000 to 9999: reading undoes
      printing, and no other spelling is accepted. */
  lemma CanonicalTimestamps(value: string, t: Instant)
    ensures ParseUTC(value) == Success(t) <==> FourDigitYear(t) && value == FormatUTC(t)
  {
    hide FormatUTC, ToCivil, ParseRfc3339;
    if ParseUTC(value) == Success(t) {
      AcceptedYear(value);
    }
    if FourDigitYear(t) && value == FormatUTC(t) {
      ParseOfPrinted(t);
    }
  }

  // ---------- distinct instants have distinct texts ----------

  lemma YearTextInjective(y1: int, y2: int)
    requires YearText(y1) == YearText(y2)
    ensures y1 == y2
  {
    var s1, s2 := YearText(y1), YearText(y2);
    assert (s1[0] == '-') == (y1 < 0) by { UnsignedDigits(y1); }
    assert (s2[0] == '-') == (y2 < 0) by { UnsignedDigits(y2); }
    YearTextValue(y1);
    YearTextValue(y2);
  }

  lemma UnsignedDigits(year: int)
    ensures (YearText(year)[0] == '-') == (year < 0)
  {
    hide Fixed, Decimal;
    if 0 <= year {
      assert YearText(year)[0] in YearText(year);
    }
  }

  lemma YearTextValue(year: int)
    ensures year < 0 ==> AllDigits(YearText(year)[1..]) && Value(YearText(year)[1..]) == -year
    ensures year >= 0 ==> AllDigits(YearText(year)) && Value(YearText(year)) == year
  {
    hide Fixed, Decimal, Value;
    var n := if year < 0 then -year else year;
    if n < 10000 {
      FixedValue(n, 4);
    } else {
      DecimalValue(n);
    }
    if year < 0 {
      assert YearText(year)[1..] == if n < 10000 then Fixed(n, 4) else Decimal(n);
    }
  }

  lemma TimeOfDay(second: int)
    ensures second == 3600 * (second / 3600) + 60 * (second / 60 % 60) + second % 60
  {
  }

  lemma TailInjective(c1: Civil, c2: Civil)
    requires ValidCivil(c1) && ValidCivil(c2) && DateTail(c1) == DateTail(c2)
    ensures c1.month == c2.month && c1.day == c2.day && c1.second == c2.second
  {
    hide Fixed, Value, DateTail, DaysIn;
    TailFields(c1);
    TailFields(c2);
    TimeOfDay(c1.second);
    TimeOfDay(c2.second);
    TwoDigits(c1.month);
    TwoDigits(c2.month);
    TwoDigits(c1.day);
    TwoDigits(c2.day);
    TwoDigits(c1.second / 3600);
    TwoDigits(c2.second / 3600);
    TwoDigits(c1.second / 60 % 60);
    TwoDigits(c2.second / 60 % 60);
    TwoDigits(c1.second % 60);
    TwoDigits(c2.second % 60);
  }

  /** Printing is injective on every instant, also outside the four digit years. */
  lemma FormatInjective(t1: Instant, t2: Instant)
    requires FormatUTC(t1) == FormatUTC(t2)
    ensures t1 == t2
  {
    hide ToCivil, YearText, DateTail;
    var c1, c2 := ToCivil(t1), ToCivil(t2);
    var f := FormatUTC(t1);
    var n := |f| - 16;
    assert f[..n] == YearText(c1.year) == YearText(c2.year);
    assert f[n..] == DateTail(c1) == DateTail(c2);
    YearTextInjective(c1.year, c2.year);
    TailInjective(c1, c2);
  }

  // ---------- Unix seconds ----------

  /** strconv.ParseInt(raw, 10, 64): an optional sign and at least one digit, within int64. */
  function ParseInt64(raw: string): Option<int> {
    var negative := raw != "" && raw[0] == '-';
    var digits := if raw != "" && (raw[0] == '-' || raw[0] == '+') then raw[1..] else raw;
    if digits == "" || !AllDigits(digits) then None else
      var v: int := Value(digits);
      var n := if negative then -v else v;
      if -MAX_INT64 - 1 <= n <= MAX_INT64 then Some(n) else None
  }

  predicate ContainsAny(s: string, chars: string) {
    exists c :: c in s && c in chars
  }

  function ParseUnixSeconds(raw: string): Result<int, TextError> {
    if raw == "" then Failure(InvalidTimestamp) else
    :- Need(!ContainsAny(raw, ".eE+"), InvalidTimestamp);
    :- Need(!(|raw| > 1 && raw[0] == '0'), InvalidTimestamp);
    var n := ParseInt64(raw);
    :- Need(n.Some?, InvalidTimestamp);
    :- Need(n.value >= 0, InvalidTimestamp);
    Success(n.value)
  }

  function CanonicalUnix(n: int): Result<string, TextError> {
    if n < 0 then Failure(InvalidTimestamp) else Success(Decimal(n))
  }

  /** Printed Unix seconds read back, and the reader accepts nothing else as long as there is no minus sign. */
  lemma CanonicalUnixSeconds(raw: string, n: int)
    requires raw == "" || raw[0] != '-'
    ensures ParseUnixSeconds(raw) == Success(n) <==> n <= MAX_INT64 && CanonicalUnix(n) == Success(raw)
  {
    hide Value, Decimal, DigitValue;
    if ParseUnixSeconds(raw).Success? {
      assert raw[0] != '+' by {
        assert raw[0] in raw;
      }
      DecimalOfValue(raw);
      DecimalValue(ParseUnixSeconds(raw).value);
    }
    if 0 <= n <= MAX_INT64 && raw == Decimal(n) {
      DecimalValue(n);
      assert IsDigit(raw[0]) by {
        assert raw[0] in raw;
      }
    }
  }

  predicate AllZeros(s: string) {
    forall i :: 0 <= i < |s| ==> s[i] == '0'
  }

  /** The exception: a minus sign before zeros is accepted as zero, although no printer writes it. */
  lemma MinusZero(raw: string)
    requires raw != "" && raw[0] == '-'
    ensures ParseUnixSeconds(raw).Success? <==> |raw| > 1 && AllZeros(raw[1..])
    ensures ParseUnixSeconds(raw).Success? ==> ParseUnixSeconds(raw).value == 0 && CanonicalUnix(0) != Success(raw)
  {
    hide Value, DigitValue;
    var digits := raw[1..];
    assert raw == ['-'] + digits;
    if AllDigits(digits) {
      ZeroValue(digits);
      assert !ContainsAny(raw, ".eE+");
    }
    if AllZeros(digits) {
      assert AllDigits(digits);
    }
  }

  lemma {:induction false} ZeroValue(s: string)
    requires AllDigits(s)
    ensures Value(s) == 0 <==> AllZeros(s)
    decreases |s|
  {
    if s != "" {
      var init, last := s[..|s| - 1], s[|s| - 1];
      ZeroValue(init);
      assert s == init + [last];
      assert AllZeros(s) <==> AllZeros(init) && last == '0';
    }
  }

  lemma MinusZeroAccepted()
    ensures ParseUnixSeconds("-00") == Success(0)
  {
    MinusZero("-00");
  }

  // ---------- action keys ----------

  const ACTION_KEY_INFO := "subscription-bridge/v1/action"

  /** The text that is hashed into an action key. */
  function ActionKeyMaterial(subscriptionRef: string, actionType: string, target: Instant): string {
    ACTION_KEY_INFO + "\n" + subscriptionRef + "\n" + actionType + "\n" + FormatUTC(target)
  }

  /** A line is what stands before the first newline, so two texts that start with a line and agree have the same
      first line and the same rest. */
  lemma FirstLine(a: string, rest1: string, b: string, rest2: string)
    requires '\n' !in a && '\n' !in b && a + "\n" + rest1 == b + "\n" + rest2
    ensures a == b && rest1 == rest2
  {
    var s := a + "\n" + rest1;
    assert s[..|a|] == a && s[|a|] == '\n';
    assert s[..|b|] == b && s[|b|] == '\n';
    assert forall i :: 0 <= i < |a| ==> s[i] == a[i] && a[i] in a;
    assert forall i :: 0 <= i < |b| ==> s[i] == b[i] && b[i] in b;
    assert s[|a| + 1..] == rest1 == rest2;
  }

  /** No two scheduled actions share the text their key is derived from. References and types never hold a newline. */
  lemma ActionKeyInjective(ref1: string, type1: string, target1: Instant, ref2: string, type2: string, target2: Instant)
    requires '\n' !in ref1 && '\n' !in ref2 && '\n' !in type1 && '\n' !in type2
    requires ActionKeyMaterial(ref1, type1, target1) == ActionKeyMaterial(ref2, type2, target2)
    ensures ref1 == ref2 && type1 == type2 && target1 == target2
  {
    hide FormatUTC;
    var t1, t2 := FormatUTC(target1), FormatUTC(target2);
    var rest1, rest2 := ref1 + "\n" + type1 + "\n" + t1, ref2 + "\n" + type2 + "\n" + t2;
    assert ActionKeyMaterial(ref1, type1, target1)[|ACTION_KEY_INFO| + 1..] == rest1;
    assert ActionKeyMaterial(ref2, type2, target2)[|ACTION_KEY_INFO| + 1..] == rest2;
    assert rest1 == ref1 + "\n" + (type1 + "\n" + t1) && rest2 == ref2 + "\n" + (type2 + "\n" + t2);
    FirstLine(ref1, type1 + "\n" + t1, ref2, type2 + "\n" + t2);
    FirstLine(type1, t1, type2, t2);
    FormatInjective(target1, target2);
  }
}
