/**
 ISO texts of times, as `datetime.isoformat()` writes them in UTC, and why comparing the texts is comparing the times.
 Times are microseconds since the epoch; the calendar is the proleptic Gregorian one of Python's `datetime`.
 */
module IsoTimes {
  import opened Ordering

  const MICROS := 1_000_000

  /** The seconds of the years 1 to 9999, and the times within them. */
  type Second = s: int | -62_135_596_800 <= s < 253_402_300_800
  type Time = t: int | -62_135_596_800_000_000 <= t < 253_402_300_800_000_000

  // ----- the calendar -----

  datatype Date = Date(year: nat, month: nat, day: nat)

  predicate Leap(year: nat) { year % 4 == 0 && (year % 100 != 0 || year % 400 == 0) }

  function YearLength(year: nat): nat { if Leap(year) then 366 else 365 }

  function MonthLength(year: nat, month: nat): nat {
    if month == 2 then (if Leap(year) then 29 else 28)
    else if month == 4 || month == 6 || month == 9 || month == 11 then 30 else 31
  }

  /** The days of the years from 1 on before this one. */
  function DaysBeforeYear(year: nat): nat {
    if year <= 1 then 0 else DaysBeforeYear(year - 1) + YearLength(year - 1)
  }

  function DaysBeforeMonth(year: nat, month: nat): nat {
    if month <= 1 then 0 else DaysBeforeMonth(year, month - 1) + MonthLength(year, month - 1)
  }

  predicate ValidDate(d: Date) { 1 <= d.year && 1 <= d.month <= 12 && 1 <= d.day <= MonthLength(d.year, d.month) }

  /** Days since 1 January of year 1. */
  function DayNumber(d: Date): nat
    requires d.day >= 1
  {
    DaysBeforeYear(d.year) + DaysBeforeMonth(d.year, d.month) + d.day - 1
  }

  predicate DateBefore(a: Date, b: Date) {
    a.year < b.year || (a.year == b.year && (a.month < b.month || (a.month == b.month && a.day < b.day)))
  }

  lemma MonthsFillYear(year: nat)
    ensures DaysBeforeMonth(year, 13) == YearLength(year)
  {
    var february := MonthLength(year, 2);
    assert DaysBeforeMonth(year, 2) == 31;
    assert DaysBeforeMonth(year, 4) == 62 + february;
    assert DaysBeforeMonth(year, 6) == 123 + february;
    assert DaysBeforeMonth(year, 8) == 184 + february;
    assert DaysBeforeMonth(year, 10) == 245 + february;
    assert DaysBeforeMonth(year, 12) == 306 + february;
  }

  lemma {:induction false} LaterMonth(year: nat, a: nat, b: nat)
    requires 1 <= a < b
    ensures DaysBeforeMonth(year, a) + MonthLength(year, a) <= DaysBeforeMonth(year, b)
  {
    if a + 1 < b { LaterMonth(year, a, b - 1); }
  }

  lemma {:induction false} LaterYear(a: nat, b: nat)
    requires 1 <= a < b
    ensures DaysBeforeYear(a) + YearLength(a) <= DaysBeforeYear(b)
  {
    if a + 1 < b { LaterYear(a, b - 1); }
  }

  lemma DaysAreOrdered(a: Date, b: Date)
    requires ValidDate(a) && ValidDate(b) && DateBefore(a, b)
    ensures DayNumber(a) < DayNumber(b)
  {
    hide MonthLength, YearLength;
    if a.year < b.year {
      LaterYear(a.year, b.year);
      MonthsFillYear(a.year);
      LaterMonth(a.year, a.month, 13);
    } else if a.month < b.month {
      LaterMonth(a.year, a.month, b.month);
    }
  }

  lemma {:induction false} CenturyRule(year: nat)
    requires year >= 1
    ensures DaysBeforeYear(year) == 365 * (year - 1) + (year - 1) / 4 - (year - 1) / 100 + (year - 1) / 400
  {
    if year > 1 {
      CenturyRule(year - 1);
      NextQuotient(year - 1, 4);
      NextQuotient(year - 1, 100);
      NextQuotient(year - 1, 400);
      assert Leap(year - 1) <==> (year - 1) % 4 == 0 && ((year - 1) % 100 != 0 || (year - 1) % 400 == 0);
      Centuries(year - 1);
    }
  }

  lemma Centuries(n: nat)
    ensures n % 100 == 0 ==> n % 4 == 0
    ensures n % 400 == 0 ==> n % 100 == 0
  {
    if n % 100 == 0 { FourDivides(n, n / 100); }
    if n % 400 == 0 { HundredDivides(n, n / 400); }
  }

  lemma FourDivides(n: nat, q: nat)
    requires n == 100 * q
    ensures n % 4 == 0
  {
    assert n == 4 * (25 * q);
  }

  lemma HundredDivides(n: nat, q: nat)
    requires n == 400 * q
    ensures n % 100 == 0
  {
    assert n == 100 * (4 * q);
  }

  lemma NextQuotient(n: nat, k: nat)
    requires n >= 1 && (k == 4 || k == 100 || k == 400)
    ensures n / k == (n - 1) / k + if n % k == 0 then 1 else 0
  {
    if k == 4 { assert n / 4 == (n - 1) / 4 + if n % 4 == 0 then 1 else 0; }
    if k == 100 { assert n / 100 == (n - 1) / 100 + if n % 100 == 0 then 1 else 0; }
    if k == 400 { assert n / 400 == (n - 1) / 400 + if n % 400 == 0 then 1 else 0; }
  }

  const DAYS := 3_652_059

  function YearOf(day: nat, from: nat): (year: nat)
    requires 1 <= from && DaysBeforeYear(from) <= day
    ensures from <= year && DaysBeforeYear(year) <= day < DaysBeforeYear(year) + YearLength(year)
    decreases day - DaysBeforeYear(from)
  {
    if day < DaysBeforeYear(from) + YearLength(from) then from else YearOf(day, from + 1)
  }

  function MonthOf(year: nat, day: nat, from: nat): (month: nat)
    requires 1 <= from <= 12 && DaysBeforeMonth(year, from) <= day < YearLength(year)
    ensures 1 <= month <= 12 && DaysBeforeMonth(year, month) <= day < DaysBeforeMonth(year, month) + MonthLength(year, month)
    decreases 12 - from
  {
    MonthsFillYear(year);
    if day < DaysBeforeMonth(year, from) + MonthLength(year, from) then from else MonthOf(year, day, from + 1)
  }

  /** The date of a day; there is only one. */
  function DateOf(day: nat): (d: Date)
    ensures ValidDate(d) && DayNumber(d) == day
    ensures day < DAYS ==> d.year <= 9999
  {
    var year := YearOf(day, 1);
    var left := day - DaysBeforeYear(year);
    var month := MonthOf(year, left, 1);
    CenturyRule(10000);
    assert year > 9999 ==> DaysBeforeYear(10000) <= DaysBeforeYear(year) by { if year > 10000 { LaterYear(10000, year); } }
    Date(year, month, left - DaysBeforeMonth(year, month) + 1)
  }

  lemma LaterDay(a: nat, b: nat)
    requires a < b
    ensures DateBefore(DateOf(a), DateOf(b))
  {
    hide DayNumber, DateOf, ValidDate;
    var d, e := DateOf(a), DateOf(b);
    assert DateBefore(d, e) || DateBefore(e, d) || d == e;
    if DateBefore(e, d) { DaysAreOrdered(e, d); }
  }

  lemma OneDate(a: Date, b: Date)
    requires ValidDate(a) && ValidDate(b) && DayNumber(a) == DayNumber(b)
    ensures a == b
  {
    hide DayNumber, ValidDate;
    if DateBefore(a, b) { DaysAreOrdered(a, b); }
    if DateBefore(b, a) { DaysAreOrdered(b, a); }
  }

  lemma FirstAndLast(first: Date, last: Date)
    requires first.year >= 1 && first.month == first.day == 1 && last.month == 12 && last.day == 31 && last.year >= 1
    ensures ValidDate(first) && DayNumber(first) == DaysBeforeYear(first.year)
    ensures ValidDate(last) && DayNumber(last) == DaysBeforeYear(last.year) + YearLength(last.year) - 1
  {
    hide YearLength, DaysBeforeYear;
    MonthsFillYear(last.year);
  }

  lemma CommonYear(year: nat)
    requires year % 4 != 0
    ensures YearLength(year) == 365
  {
  }

  /** 1970 starts with the epoch's day, and year 9999 ends with the last one. */
  lemma EpochAndEnd(epoch: Date, end: Date)
    requires epoch == Date(1970, 1, 1) && end == Date(9999, 12, 31)
    ensures SinceYearOne(0) == 86400 * DayNumber(epoch) && DayNumber(end) == DAYS - 1
    ensures DateOf(DayNumber(epoch)) == epoch && DateOf(DayNumber(end)) == end
  {
    hide DateOf, DaysBeforeYear, DaysBeforeMonth, YearLength, ValidDate;
    CenturyRule(epoch.year);
    CenturyRule(end.year);
    FirstAndLast(epoch, end);
    assert YearLength(end.year) == 365 by { CommonYear(end.year); }
    OneDate(DateOf(DayNumber(epoch)), epoch);
    OneDate(DateOf(DayNumber(end)), end);
  }

  // ----- ISO texts -----


  function Digit(d: nat): char
    requires d < 10
  {
    '0' + d as char
  }

  /** `n` in `width` decimal digits. */
  function Digits(n: nat, width: nat): string {
    if width == 0 then "" else Digits(n / 10, width - 1) + [Digit(n % 10)]
  }

  lemma {:induction false} PrefixDecides(p: string, q: string, a: string, b: string)
    requires |p| == |q| && TextLess(p, q)
    ensures TextLess(p + a, q + b)
  {
    if p != [] && p[0] == q[0] {
      assert (p + a)[1..] == p[1..] + a && (q + b)[1..] == q[1..] + b;
      PrefixDecides(p[1..], q[1..], a, b);
    }
  }

  lemma {:induction false} PrefixDrops(p: string, a: string, b: string)
    ensures TextLess(p + a, p + b) <==> TextLess(a, b)
  {
    if p == [] {
      assert p + a == a && p + b == b;
    } else {
      assert (p + a)[1..] == p[1..] + a && (p + b)[1..] == p[1..] + b;
      PrefixDrops(p[1..], a, b);
    }
  }

  lemma {:induction false} DigitsLength(n: nat, width: nat)
    ensures |Digits(n, width)| == width
  {
    if width > 0 { DigitsLength(n / 10, width - 1); }
  }

  function Power(width: nat): nat { if width == 0 then 1 else 10 * Power(width - 1) }

  /** Padded decimal texts are ordered as their numbers. */
  lemma {:induction false} DigitsOrdered(a: nat, b: nat, width: nat)
    requires a < b < Power(width)
    ensures TextLess(Digits(a, width), Digits(b, width))
  {
    DigitsLength(a / 10, width - 1);
    DigitsLength(b / 10, width - 1);
    if a / 10 < b / 10 {
      DigitsOrdered(a / 10, b / 10, width - 1);
      PrefixDecides(Digits(a / 10, width - 1), Digits(b / 10, width - 1), [Digit(a % 10)], [Digit(b % 10)]);
    } else {
      PrefixDrops(Digits(a / 10, width - 1), [Digit(a % 10)], [Digit(b % 10)]);
    }
  }

  /** A number of a text, padded, with what is written before it. */
  datatype Field = Field(lead: string, value: nat, width: nat)

  function Spelled(fields: seq<Field>): string {
    if fields == [] then "" else fields[0].lead + Digits(fields[0].value, fields[0].width) + Spelled(fields[1..])
  }

  predicate SameShape(a: seq<Field>, b: seq<Field>) {
    |a| == |b| && forall i :: 0 <= i < |a| ==> a[i].lead == b[i].lead && a[i].width == b[i].width && a[i].value < Power(a[i].width) && b[i].value < Power(b[i].width)
  }

  predicate FieldsBefore(a: seq<Field>, b: seq<Field>) {
    a != [] && b != [] && (a[0].value < b[0].value || (a[0].value == b[0].value && FieldsBefore(a[1..], b[1..])))
  }

  lemma {:induction false} SpelledLength(a: seq<Field>, b: seq<Field>)
    requires SameShape(a, b)
    ensures |Spelled(a)| == |Spelled(b)|
  {
    hide Digits, Power;
    if a != [] {
      DigitsLength(a[0].value, a[0].width);
      DigitsLength(b[0].value, b[0].width);
      SpelledLength(a[1..], b[1..]);
    }
  }

  lemma {:induction false} FieldsAreOrdered(a: seq<Field>, b: seq<Field>)
    requires SameShape(a, b) && FieldsBefore(a, b)
    ensures TextLess(Spelled(a), Spelled(b))
  {
    hide Digits, Power, TextLess;
    var x, y := Digits(a[0].value, a[0].width), Digits(b[0].value, b[0].width);
    if a[0].value < b[0].value {
      DigitsOrdered(a[0].value, b[0].value, a[0].width);
      DigitsLength(a[0].value, a[0].width);
      DigitsLength(b[0].value, b[0].width);
      PrefixDecides(x, y, Spelled(a[1..]), Spelled(b[1..]));
    } else {
      FieldsAreOrdered(a[1..], b[1..]);
      PrefixDrops(x, Spelled(a[1..]), Spelled(b[1..]));
    }
    PrefixDrops(a[0].lead, x + Spelled(a[1..]), y + Spelled(b[1..]));
    assert Spelled(a) == a[0].lead + (x + Spelled(a[1..])) && Spelled(b) == b[0].lead + (y + Spelled(b[1..]));
  }

  /** Seconds from the start of year 1. */
  function SinceYearOne(s: Second): nat { s + 62_135_596_800 }

  function ClockFields(d: Date, second: nat): seq<Field> {
    [Field("", d.year, 4), Field("-", d.month, 2), Field("-", d.day, 2), Field("T", second / 3600, 2), Field(":", second / 60 % 60, 2),
     Field(":", second % 60, 2)]
  }

  /** `YYYY-MM-DDTHH:MM:SS`. */
  function SecondText(s: Second): string {
    Spelled(ClockFields(DateOf(SinceYearOne(s) / 86400), SinceYearOne(s) % 86400))
  }

  lemma ClockShape(d: Date, x: nat, e: Date, y: nat)
    requires ValidDate(d) && ValidDate(e) && d.year <= 9999 && e.year <= 9999 && x < 86400 && y < 86400
    ensures SameShape(ClockFields(d, x), ClockFields(e, y))
    ensures DateBefore(d, e) || (d == e && x < y) ==> FieldsBefore(ClockFields(d, x), ClockFields(e, y))
  {
    hide SameShape, FieldsBefore;
    ClockSameShape(d, x, e, y);
    if DateBefore(d, e) || (d == e && x < y) { ClockBefore(d, x, e, y); }
  }

  lemma ClockSameShape(d: Date, x: nat, e: Date, y: nat)
    requires ValidDate(d) && ValidDate(e) && d.year <= 9999 && e.year <= 9999 && x < 86400 && y < 86400
    ensures SameShape(ClockFields(d, x), ClockFields(e, y))
  {
    assert Power(1) == 10 && Power(2) == 100 && Power(3) == 1000 && Power(4) == 10000;
  }

  lemma ClockBefore(d: Date, x: nat, e: Date, y: nat)
    requires DateBefore(d, e) || (d == e && x < y)
    ensures FieldsBefore(ClockFields(d, x), ClockFields(e, y))
  {
    var a, b := ClockFields(d, x), ClockFields(e, y);
    if d == e {
      ClockLast(x, y);
      assert FieldsBefore(a[3..], b[3..]) by { assert a[3..][1..] == a[4..] && b[3..][1..] == b[4..] && a[4..][1..] == a[5..] && b[4..][1..] == b[5..]; }
      assert a[2..][1..] == a[3..] && b[2..][1..] == b[3..];
      assert FieldsBefore(a[2..], b[2..]);
      assert a[1..][1..] == a[2..] && b[1..][1..] == b[2..];
      assert FieldsBefore(a[1..], b[1..]);
    } else {
      assert a[1..][1..] == a[2..] && b[1..][1..] == b[2..];
    }
  }

  lemma ClockLast(x: nat, y: nat)
    requires x < y
    ensures x / 3600 < y / 3600 || (x / 3600 == y / 3600 && (x / 60 % 60 < y / 60 % 60 || (x / 60 % 60 == y / 60 % 60 && x % 60 < y % 60)))
  {
  }

  lemma SecondsAreOrdered(a: Second, b: Second)
    ensures |SecondText(a)| == |SecondText(b)|
    ensures a < b ==> TextLess(SecondText(a), SecondText(b))
  {
    hide Spelled, ClockFields, SameShape, FieldsBefore, DateOf, ValidDate, TextLess, DateBefore;
    var x, y := SinceYearOne(a), SinceYearOne(b);
    var d, e := DateOf(x / 86400), DateOf(y / 86400);
    ClockShape(d, x % 86400, e, y % 86400);
    SpelledLength(ClockFields(d, x % 86400), ClockFields(e, y % 86400));
    if a < b {
      if x / 86400 < y / 86400 { LaterDay(x / 86400, y / 86400); }
      FieldsAreOrdered(ClockFields(d, x % 86400), ClockFields(e, y % 86400));
    }
  }

  /** `datetime.isoformat()` in UTC: no fraction when the microseconds are zero. */
  function Iso(t: Time): string {
    SecondText(t / MICROS) + (if t % MICROS == 0 then "" else "." + Digits(t % MICROS, 6)) + "+00:00"
  }

  lemma SixDigits()
    ensures Power(6) == MICROS
  {
    assert Power(1) == 10 && Power(2) == 100 && Power(3) == 1000 && Power(4) == 10000 && Power(5) == 100000;
  }

  /** What follows the seconds in a text. */
  function Tail(micros: nat): string {
    (if micros == 0 then "" else "." + Digits(micros, 6)) + "+00:00"
  }

  lemma TailsOrdered(a: nat, b: nat)
    requires a < b < MICROS
    ensures TextLess(Tail(a), Tail(b))
  {
    hide Digits, TextLess;
    if a == 0 {
      PlusBeforePoint(Tail(a), Tail(b));
    } else {
      SixDigits();
      DigitsOrdered(a, b, 6);
      DigitsLength(a, 6);
      DigitsLength(b, 6);
      PrefixDecides(Digits(a, 6), Digits(b, 6), "+00:00", "+00:00");
      PrefixDrops(".", Digits(a, 6) + "+00:00", Digits(b, 6) + "+00:00");
      assert Tail(a) == "." + (Digits(a, 6) + "+00:00") && Tail(b) == "." + (Digits(b, 6) + "+00:00");
    }
  }

  lemma PlusBeforePoint(x: string, y: string)
    requires x != [] && y != [] && x[0] == '+' && y[0] == '.'
    ensures TextLess(x, y)
  {
  }

  /** Texts of one second: the one without a fraction comes first, as `+` comes before `.`. */
  lemma FractionsOrdered(p: string, a: nat, b: nat)
    requires a < b < MICROS
    ensures TextLess(p + Tail(a), p + Tail(b))
  {
    hide Digits, TextLess, Tail;
    TailsOrdered(a, b);
    PrefixDrops(p, Tail(a), Tail(b));
  }

  lemma IsoTail(t: Time)
    ensures Iso(t) == SecondText(t / MICROS) + Tail(t % MICROS)
  {
    hide Digits;
    var frac := if t % MICROS == 0 then "" else "." + Digits(t % MICROS, 6);
    var p := SecondText(t / MICROS);
    assert p + frac + "+00:00" == p + (frac + "+00:00");
  }

  lemma LaterIsGreater(a: Time, b: Time)
    requires a < b
    ensures TextLess(Iso(a), Iso(b))
  {
    hide Digits, TextLess, Tail, Iso, SecondText;
    IsoTail(a);
    IsoTail(b);
    if a / MICROS < b / MICROS {
      SecondsAreOrdered(a / MICROS, b / MICROS);
      PrefixDecides(SecondText(a / MICROS), SecondText(b / MICROS), Tail(a % MICROS), Tail(b % MICROS));
    } else {
      FractionsOrdered(SecondText(a / MICROS), a % MICROS, b % MICROS);
    }
  }

  /** Comparing the ISO texts is comparing the times. */
  lemma IsoIsChronological(a: Time, b: Time)
    ensures TextLess(Iso(a), Iso(b)) <==> a < b
    ensures Iso(a) == Iso(b) <==> a == b
  {
    hide Iso, TextLess;
    TextOrder();
    if a < b { LaterIsGreater(a, b); }
    if b < a { LaterIsGreater(b, a); }
  }
}
