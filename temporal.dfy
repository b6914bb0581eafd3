/**
 * Calendar instants as `temporal` formats them (`%Y-%m-%dT%H:%M:%SZ`), and
 * the order of those strings.
 */
module Temporal {
  import opened Wrappers
  import opened Strings

  datatype Date = Date(year: int, month: int, day: int)

  /** A UTC instant, to the second. */
  datatype DateTime = DateTime(date: Date, hour: int, minute: int, second: int)

  predicate LeapYear(y: int)
  {
    y % 4 == 0 && (y % 100 != 0 || y % 400 == 0)
  }

  function DaysInMonth(y: int, m: int): int
  {
    if m == 2 then (if LeapYear(y) then 29 else 28)
    else if m == 4 || m == 6 || m == 9 || m == 11 then 30
    else 31
  }

  /** The dates Python's `datetime.date` can hold (years 1 to 9999). */
  predicate ValidDate(d: Date)
  {
    1 <= d.year <= 9999 && 1 <= d.month <= 12 && 1 <= d.day <= DaysInMonth(d.year, d.month)
  }

  predicate ValidDateTime(t: DateTime)
  {
    ValidDate(t.date) && 0 <= t.hour < 24 && 0 <= t.minute < 60 && 0 <= t.second < 60
  }

  /** Chronological order: `a` is strictly earlier than `b`. */
  predicate Earlier(a: DateTime, b: DateTime)
  {
    var x, y := a.date, b.date;
    x.year < y.year || (x.year == y.year && (
    x.month < y.month || (x.month == y.month && (
    x.day < y.day || (x.day == y.day && (
    a.hour < b.hour || (a.hour == b.hour && (
    a.minute < b.minute || (a.minute == b.minute &&
    a.second < b.second)))))))))
  }

  function Pow10(w: nat): nat
  {
    if w == 0 then 1 else 10 * Pow10(w - 1)
  }

  function DigitChar(d: int): char
    requires 0 <= d < 10
  {
    "0123456789"[d]
  }

  /** `n` in decimal, zero-padded to `w` digits. */
  function Digits(n: nat, w: nat): (s: string)
    ensures |s| == w
  {
    if w == 0 then "" else Digits(n / 10, w - 1) + [DigitChar(n % 10)]
  }

  /** Zero-padded numerals of one width compare as the numbers do. */
  lemma {:induction false} DigitsOrder(n: nat, m: nat, w: nat)
    requires n < Pow10(w) && m < Pow10(w)
    ensures LexLess(Digits(n, w), Digits(m, w)) <==> n < m
    ensures Digits(n, w) == Digits(m, w) <==> n == m
  {
    if w > 0 {
      var a, b := Digits(n / 10, w - 1), Digits(m / 10, w - 1);
      var c, d := [DigitChar(n % 10)], [DigitChar(m % 10)];
      assert n / 10 < Pow10(w - 1) && m / 10 < Pow10(w - 1);
      DigitsOrder(n / 10, m / 10, w - 1);
      LexLessConcat(a, c, b, d);
      assert LexLess(c, d) <==> n % 10 < m % 10;
      assert c == d <==> n % 10 == m % 10;
      assert (a + c == b + d) <==> (a == b && c == d) by {
        if a + c == b + d { assert (a + c)[..|a|] == a && (b + d)[..|b|] == b; assert (a + c)[|a|] == c[0]; }
      }
      assert n == 10 * (n / 10) + n % 10 && m == 10 * (m / 10) + m % 10;
    }
  }

  /** `t.strftime("%Y-%m-%dT%H:%M:%SZ")`, the year padded to four digits. */
  function Iso8601(t: DateTime): (s: string)
    requires ValidDateTime(t)
    ensures |s| == 20
  {
    Digits(t.date.year, 4) + ("-" + (Digits(t.date.month, 2) + ("-" + (Digits(t.date.day, 2) + ("T" +
    (Digits(t.hour, 2) + (":" + (Digits(t.minute, 2) + (":" + (Digits(t.second, 2) + "Z"))))))))))
  }

  /** The separators of `%Y-%m-%dT%H:%M:%SZ` sit at fixed places. */
  lemma Iso8601Layout(t: DateTime)
    requires ValidDateTime(t)
    ensures var s := Iso8601(t);
      s[4] == '-' && s[7] == '-' && s[10] == 'T' && s[13] == ':' && s[16] == ':' && s[19] == 'Z'
  {
  }

  /** Comparing the formatted strings, as `temporal` does, is comparing the instants. */
  lemma IsoOrderIsChronological(a: DateTime, b: DateTime)
    requires ValidDateTime(a) && ValidDateTime(b)
    ensures LexLess(Iso8601(a), Iso8601(b)) <==> Earlier(a, b)
  {
    assert Pow10(2) == 100 && Pow10(4) == 10000;
    DigitsOrder(a.date.year, b.date.year, 4);
    DigitsOrder(a.date.month, b.date.month, 2);
    DigitsOrder(a.date.day, b.date.day, 2);
    DigitsOrder(a.hour, b.hour, 2);
    DigitsOrder(a.minute, b.minute, 2);
    DigitsOrder(a.second, b.second, 2);
    var s5 := Digits(a.second, 2) + "Z";
    var t5 := Digits(b.second, 2) + "Z";
    LexLessConcat(Digits(a.second, 2), "Z", Digits(b.second, 2), "Z");
    LexLessIrreflexive("Z");
    var s4 := Digits(a.minute, 2) + (":" + s5);
    var t4 := Digits(b.minute, 2) + (":" + t5);
    LexLessConcat(":", s5, ":", t5);
    LexLessConcat(Digits(a.minute, 2), ":" + s5, Digits(b.minute, 2), ":" + t5);
    var s3 := Digits(a.hour, 2) + (":" + s4);
    var t3 := Digits(b.hour, 2) + (":" + t4);
    LexLessConcat(":", s4, ":", t4);
    LexLessConcat(Digits(a.hour, 2), ":" + s4, Digits(b.hour, 2), ":" + t4);
    var s2 := Digits(a.date.day, 2) + ("T" + s3);
    var t2 := Digits(b.date.day, 2) + ("T" + t3);
    LexLessConcat("T", s3, "T", t3);
    LexLessConcat(Digits(a.date.day, 2), "T" + s3, Digits(b.date.day, 2), "T" + t3);
    var s1 := Digits(a.date.month, 2) + ("-" + s2);
    var t1 := Digits(b.date.month, 2) + ("-" + t2);
    LexLessConcat("-", s2, "-", t2);
    LexLessConcat(Digits(a.date.month, 2), "-" + s2, Digits(b.date.month, 2), "-" + t2);
    LexLessConcat("-", s1, "-", t1);
    LexLessConcat(Digits(a.date.year, 4), "-" + s1, Digits(b.date.year, 4), "-" + t1);
    LexLessIrreflexive(":");
    LexLessIrreflexive("-");
    LexLessIrreflexive("T");
  }

  /** A bound given to `temporal`: none (`None` or `""`), a `date`, or an aware or UTC `datetime`. */
  datatype Bound = NoBound | OnDate(date: Date) | At(instant: DateTime)

  predicate ValidBound(b: Bound)
  {
    match b
    case NoBound => true
    case OnDate(d) => ValidDate(d)
    case At(t) => ValidDateTime(t)
  }

  /**
   * The instant a bound stands for: a date alone gets the time of the
   * default, 00:00:00 for the lower bound and 23:59:59 for the upper one.
   */
  function Resolve(b: Bound, upper: bool): (r: Option<DateTime>)
    requires ValidBound(b)
    ensures r.Some? ==> ValidDateTime(r.value)
    ensures r.None? <==> b.NoBound?
  {
    match b
    case NoBound => None
    case OnDate(d) => Some(if upper then DateTime(d, 23, 59, 59) else DateTime(d, 0, 0, 0))
    case At(t) => Some(t)
  }

  /** `convert_to_string`: the formatted instant, or `""` for a missing bound. */
  function BoundText(b: Bound, upper: bool): (s: string)
    requires ValidBound(b)
    ensures s == "" <==> b.NoBound?
  {
    match Resolve(b, upper)
    case None => ""
    case Some(t) => Iso8601(t)
  }
}
