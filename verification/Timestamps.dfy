/**
 Canonical UTC timestamps (adk-codec timestamp.rs, state.rs): ordering their first nineteen
 characters as text and their fraction as nanoseconds is ordering the instants they name.
 */
module Timestamps {
  import opened Ordering

  // A timestamp GoTimestamp::parse accepts, by its parts; `fraction` holds at most nine digits.
  datatype Stamp = Stamp(
    year: nat, month: nat, day: nat, hour: nat, minute: nat, second: nat, fraction: string, zone: string)

  predicate Leap(year: nat) {
    year % 4 == 0 && (year % 100 != 0 || year % 400 == 0)
  }

  function MonthDays(year: nat, month: nat): nat {
    if month == 2 then (if Leap(year) then 29 else 28)
    else if month == 4 || month == 6 || month == 9 || month == 11 then 30 else 31
  }

  predicate AllDigits(s: string) {
    forall i :: 0 <= i < |s| ==> '0' <= s[i] <= '9'
  }

  predicate ValidStamp(t: Stamp) {
    && t.year <= 9999 && 1 <= t.month <= 12 && 1 <= t.day <= MonthDays(t.year, t.month)
    && t.hour <= 23 && t.minute <= 59 && t.second <= 59
    && |t.fraction| <= 9 && AllDigits(t.fraction)
  }

  function Digits(n: nat, width: nat): string {
    if width == 0 then "" else Digits(n / 10, width - 1) + ['0' + (n % 10) as char]
  }

  function Power10(w: nat): nat {
    if w == 0 then 1 else 10 * Power10(w - 1)
  }

  function DateTimeText(t: Stamp): string {
    Digits(t.year, 4) + ("-" + (Digits(t.month, 2) + ("-" + (Digits(t.day, 2) + ("T" +
      (Digits(t.hour, 2) + (":" + (Digits(t.minute, 2) + (":" + Digits(t.second, 2))))))))))
  }

  // GoTimestamp::as_str
  function AsText(t: Stamp): string {
    DateTimeText(t) + (if t.fraction == "" then "" else "." + t.fraction) + t.zone
  }

  function ParseDigits(s: string): nat
    requires AllDigits(s)
  {
    if s == "" then 0 else 10 * ParseDigits(s[..|s| - 1]) + (s[|s| - 1] - '0') as nat
  }

  function Zeros(n: nat): (z: string)
    ensures |z| == n && AllDigits(z)
  {
    if n == 0 then "" else Zeros(n - 1) + "0"
  }

  // A fraction as nanoseconds.
  function Nanos(fraction: string): nat
    requires |fraction| <= 9 && AllDigits(fraction)
  {
    ParseDigits(fraction + Zeros(9 - |fraction|))
  }

  function YearDays(year: nat): nat {
    if Leap(year) then 366 else 365
  }

  function DaysBeforeYear(year: nat): nat {
    if year == 0 then 0 else DaysBeforeYear(year - 1) + YearDays(year - 1)
  }

  function DaysBeforeMonth(year: nat, month: nat): nat {
    if month <= 1 then 0 else DaysBeforeMonth(year, month - 1) + MonthDays(year, month - 1)
  }

  function Days(t: Stamp): nat {
    DaysBeforeYear(t.year) + DaysBeforeMonth(t.year, t.month) + t.day
  }

  function Seconds(t: Stamp): nat {
    ((Days(t) * 24 + t.hour) * 60 + t.minute) * 60 + t.second
  }

  // Nanoseconds of the proleptic Gregorian calendar, for a UTC stamp.
  function Instant(t: Stamp): nat
    requires ValidStamp(t)
  {
    Seconds(t) * 1_000_000_000 + Nanos(t.fraction)
  }

  lemma {:induction false} TextLeAppend(a: string, b: string, c: string, d: string)
    requires |a| == |b|
    ensures TextLe(a + c, b + d) <==> (a != b && TextLe(a, b)) || (a == b && TextLe(c, d))
    ensures a + c == b + d <==> a == b && c == d
  {
    if a == [] {
      assert a + c == c && b + d == d;
    } else {
      assert (a + c)[1..] == a[1..] + c && (b + d)[1..] == b[1..] + d;
      assert a == [a[0]] + a[1..] && b == [b[0]] + b[1..];
      TextLeAppend(a[1..], b[1..], c, d);
      assert a + c == [a[0]] + (a[1..] + c) && b + d == [b[0]] + (b[1..] + d);
    }
  }

  lemma {:induction false} DigitsOrder(m: nat, n: nat, w: nat)
    requires m < Power10(w) && n < Power10(w)
    ensures |Digits(m, w)| == |Digits(n, w)| == w
    ensures TextLe(Digits(m, w), Digits(n, w)) <==> m <= n
    ensures Digits(m, w) == Digits(n, w) <==> m == n
  {
    if w > 0 {
      DigitsOrder(m / 10, n / 10, w - 1);
      var (x, y) := (['0' + (m % 10) as char], ['0' + (n % 10) as char]);
      TextLeAppend(Digits(m / 10, w - 1), Digits(n / 10, w - 1), x, y);
      assert TextLe(x, y) <==> m % 10 <= n % 10;
      assert x == y <==> m % 10 == n % 10 by {
        assert x[0] == y[0] <==> m % 10 == n % 10;
      }
      TextTotal(Digits(m / 10, w - 1), Digits(n / 10, w - 1));
    }
  }

  // One numeric field in front of a rest.
  lemma FieldOrder(m: nat, n: nat, w: nat, c: string, d: string)
    requires m < Power10(w) && n < Power10(w)
    ensures TextLe(Digits(m, w) + c, Digits(n, w) + d) <==> m < n || (m == n && TextLe(c, d))
    ensures Digits(m, w) + c == Digits(n, w) + d <==> m == n && c == d
  {
    DigitsOrder(m, n, w);
    TextLeAppend(Digits(m, w), Digits(n, w), c, d);
  }

  lemma SeparatorOrder(s: string, c: string, d: string)
    requires |s| == 1
    ensures TextLe(s + c, s + d) <==> TextLe(c, d)
    ensures s + c == s + d <==> c == d
  {
    TextLeAppend(s, s, c, d);
  }

  // Earlier to the second, or the same second.
  predicate FieldsLe(a: Stamp, b: Stamp) {
    a.year < b.year || (a.year == b.year && (a.month < b.month || (a.month == b.month && (a.day < b.day
    || (a.day == b.day && (a.hour < b.hour || (a.hour == b.hour && (a.minute < b.minute
    || (a.minute == b.minute && a.second <= b.second)))))))))
  }

  predicate SameFields(a: Stamp, b: Stamp) {
    a.year == b.year && a.month == b.month && a.day == b.day && a.hour == b.hour && a.minute == b.minute
    && a.second == b.second
  }

  // The text from the hour on.
  function TimeText(a: Stamp): string {
    Digits(a.hour, 2) + (":" + (Digits(a.minute, 2) + (":" + Digits(a.second, 2))))
  }

  lemma TimeTextOrder(a: Stamp, b: Stamp)
    requires ValidStamp(a) && ValidStamp(b)
    ensures TextLe(TimeText(a), TimeText(b)) <==>
      a.hour < b.hour || (a.hour == b.hour && (a.minute < b.minute || (a.minute == b.minute && a.second <= b.second)))
    ensures TimeText(a) == TimeText(b) <==> a.hour == b.hour && a.minute == b.minute && a.second == b.second
  {
    assert Power10(2) == 100 by { assert Power10(1) == 10; }
    hide TextLe, Digits, Power10;
    var (a1, b1) := (Digits(a.second, 2), Digits(b.second, 2));
    DigitsOrder(a.second, b.second, 2);
    SeparatorOrder(":", a1, b1);
    var (a2, b2) := (Digits(a.minute, 2) + (":" + a1), Digits(b.minute, 2) + (":" + b1));
    FieldOrder(a.minute, b.minute, 2, ":" + a1, ":" + b1);
    SeparatorOrder(":", a2, b2);
    FieldOrder(a.hour, b.hour, 2, ":" + a2, ":" + b2);
  }

  lemma DateTimeTextOrder(a: Stamp, b: Stamp)
    requires ValidStamp(a) && ValidStamp(b)
    ensures TextLe(DateTimeText(a), DateTimeText(b)) <==> FieldsLe(a, b)
    ensures DateTimeText(a) == DateTimeText(b) <==> SameFields(a, b)
    ensures |DateTimeText(a)| == 19
  {
    assert Power10(2) == 100 && Power10(4) == 10000 by {
      assert Power10(1) == 10 && Power10(3) == 1000;
    }
    TimeTextOrder(a, b);
    var (a3, b3) := (TimeText(a), TimeText(b));
    DateTimeIs(a);
    DateTimeIs(b);
    hide TextLe, Digits, Power10, TimeText, DateTimeText;
    SeparatorOrder("T", a3, b3);
    var (a4, b4) := (Digits(a.day, 2) + ("T" + a3), Digits(b.day, 2) + ("T" + b3));
    FieldOrder(a.day, b.day, 2, "T" + a3, "T" + b3);
    SeparatorOrder("-", a4, b4);
    var (a5, b5) := (Digits(a.month, 2) + ("-" + a4), Digits(b.month, 2) + ("-" + b4));
    FieldOrder(a.month, b.month, 2, "-" + a4, "-" + b4);
    SeparatorOrder("-", a5, b5);
    FieldOrder(a.year, b.year, 4, "-" + a5, "-" + b5);
    Lengths(a);
  }

  lemma DateTimeIs(a: Stamp)
    ensures DateTimeText(a) ==
      Digits(a.year, 4) + ("-" + (Digits(a.month, 2) + ("-" + (Digits(a.day, 2) + ("T" + TimeText(a))))))
  {
    hide Digits;
  }

  lemma Lengths(a: Stamp)
    requires ValidStamp(a)
    ensures |DateTimeText(a)| == 19
  {
    DigitsLength(a.year, 4);
    DigitsLength(a.month, 2);
    DigitsLength(a.day, 2);
    DigitsLength(a.hour, 2);
    DigitsLength(a.minute, 2);
    DigitsLength(a.second, 2);
  }

  lemma {:induction false} DigitsLength(n: nat, w: nat)
    ensures |Digits(n, w)| == w
  {
    if w > 0 {
      DigitsLength(n / 10, w - 1);
    }
  }

  lemma {:induction false} YearsGrow(y: nat, z: nat)
    requires y < z
    ensures DaysBeforeYear(y) + YearDays(y) <= DaysBeforeYear(z)
  {
    if y + 1 < z {
      YearsGrow(y, z - 1);
    }
  }

  lemma {:induction false} MonthsGrow(year: nat, m: nat, n: nat)
    requires 1 <= m < n <= 13
    ensures DaysBeforeMonth(year, m) + MonthDays(year, m) <= DaysBeforeMonth(year, n)
  {
    if m + 1 < n {
      MonthsGrow(year, m, n - 1);
    }
  }

  lemma MonthsFillYear(year: nat)
    ensures DaysBeforeMonth(year, 13) == YearDays(year)
  {
    assert DaysBeforeMonth(year, 4) == DaysBeforeMonth(year, 3) + 31
      == DaysBeforeMonth(year, 2) + MonthDays(year, 2) + 31 == 62 + MonthDays(year, 2);
    assert DaysBeforeMonth(year, 7) == DaysBeforeMonth(year, 6) + 30
      == DaysBeforeMonth(year, 5) + 61 == DaysBeforeMonth(year, 4) + 91;
    assert DaysBeforeMonth(year, 10) == DaysBeforeMonth(year, 9) + 30
      == DaysBeforeMonth(year, 8) + 61 == DaysBeforeMonth(year, 7) + 92;
    assert DaysBeforeMonth(year, 13) == DaysBeforeMonth(year, 12) + 31
      == DaysBeforeMonth(year, 11) + 61 == DaysBeforeMonth(year, 10) + 92;
  }

  lemma DaysOrder(a: Stamp, b: Stamp)
    requires ValidStamp(a) && ValidStamp(b)
    requires a.year < b.year || (a.year == b.year && (a.month < b.month || (a.month == b.month && a.day < b.day)))
    ensures Days(a) < Days(b)
  {
    if a.year < b.year {
      YearsGrow(a.year, b.year);
      MonthsFillYear(a.year);
      MonthsGrow(a.year, a.month, 13);
    } else if a.month < b.month {
      MonthsGrow(a.year, a.month, b.month);
    }
  }

  lemma SecondsOrder(a: Stamp, b: Stamp)
    requires ValidStamp(a) && ValidStamp(b) && FieldsLe(a, b) && !SameFields(a, b)
    ensures Seconds(a) < Seconds(b)
  {
    if a.year < b.year || (a.year == b.year && (a.month < b.month || (a.month == b.month && a.day < b.day))) {
      DaysOrder(a, b);
    }
  }

  lemma {:induction false} ParseDigitsBound(s: string)
    requires AllDigits(s)
    ensures ParseDigits(s) < Power10(|s|)
  {
    if s != "" {
      ParseDigitsBound(s[..|s| - 1]);
    }
  }

  lemma NanosBound(fraction: string)
    requires |fraction| <= 9 && AllDigits(fraction)
    ensures Nanos(fraction) < 1_000_000_000
  {
    ParseDigitsBound(fraction + Zeros(9 - |fraction|));
    assert Power10(3) == 1000 && Power10(6) == 1000 * Power10(3) && Power10(9) == 1000 * Power10(6);
  }

  // What the codec compares instead of instants: the text to the second, then the nanoseconds.
  predicate KeyLe(a: Stamp, b: Stamp)
    requires ValidStamp(a) && ValidStamp(b)
  {
    var (s, t) := (DateTimeText(a), DateTimeText(b));
    if s == t then Nanos(a.fraction) <= Nanos(b.fraction) else TextLe(s, t)
  }

  lemma KeyOrderIsInstantOrder(a: Stamp, b: Stamp)
    requires ValidStamp(a) && ValidStamp(b)
    ensures KeyLe(a, b) <==> Instant(a) <= Instant(b)
  {
    DateTimeTextOrder(a, b);
    NanosBound(a.fraction);
    NanosBound(b.fraction);
    hide Nanos, TextLe, DateTimeText, Seconds;
    if SameFields(a, b) {
      SameSeconds(a, b);
    } else if FieldsLe(a, b) {
      SecondsOrder(a, b);
    } else {
      SecondsOrder(b, a);
    }
  }

  lemma SameSeconds(a: Stamp, b: Stamp)
    requires SameFields(a, b)
    ensures Seconds(a) == Seconds(b)
  {}

  // The slices timestamp_key takes of the text are those parts.
  lemma KeySlices(t: Stamp)
    requires ValidStamp(t) && t.zone == "Z"
    ensures var s := AsText(t);
      && |s| >= 20 && s[|s| - 1] == 'Z' && s[..19] == DateTimeText(t)
      && (if |s| > 20 then s[20..|s| - 1] else "") == t.fraction
  {
    Lengths(t);
    var s := AsText(t);
    if t.fraction == "" {
      assert s == DateTimeText(t) + "Z";
    } else {
      assert s == DateTimeText(t) + ("." + t.fraction + "Z");
    }
  }
}
