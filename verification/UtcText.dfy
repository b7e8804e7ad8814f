/**
 Timestamps are stored as canonical UTC `isoformat` text and compared byte by byte. That order is
 the order of time, although microseconds are written only when they are not zero.
 */
module UtcText {
  import opened Texts

  /** An instant of the proleptic Gregorian calendar, as `datetime` holds it. */
  datatype Instant = Instant(year: int, month: int, day: int, hour: int, minute: int, second: int, micro: int)

  predicate Leap(year: int) {
    year % 4 == 0 && (year % 100 != 0 || year % 400 == 0)
  }

  function DaysIn(year: int, month: int): int {
    if month == 2 then (if Leap(year) then 29 else 28)
    else if month == 4 || month == 6 || month == 9 || month == 11 then 30
    else 31
  }

  predicate Valid(t: Instant) {
    && 1 <= t.year <= 9999 && 1 <= t.month <= 12 && 1 <= t.day <= DaysIn(t.year, t.month)
    && 0 <= t.hour < 24 && 0 <= t.minute < 60 && 0 <= t.second < 60 && 0 <= t.micro < 1_000_000
  }

  // ---- Chronological order ------------------------------------------------------------------------------------------

  function YearDays(year: int): int {
    if Leap(year) then 366 else 365
  }

  function DaysBeforeYear(year: int): int
    decreases year
  {
    if year <= 1 then 0 else DaysBeforeYear(year - 1) + YearDays(year - 1)
  }

  function DaysBeforeMonth(year: int, month: int): int
    decreases month
  {
    if month <= 1 then 0 else DaysBeforeMonth(year, month - 1) + DaysIn(year, month - 1)
  }

  /** Microseconds since the start of year 1. */
  function Ticks(t: Instant): int {
    var days := DaysBeforeYear(t.year) + DaysBeforeMonth(t.year, t.month) + t.day - 1;
    (((days * 24 + t.hour) * 60 + t.minute) * 60 + t.second) * 1_000_000 + t.micro
  }

  lemma {:induction false} MonthsGrow(year: int, m: int, n: int)
    requires 1 <= m < n <= 12
    ensures DaysBeforeMonth(year, m) + DaysIn(year, m) <= DaysBeforeMonth(year, n)
    decreases n
  {
    if m < n - 1 {
      MonthsGrow(year, m, n - 1);
    }
  }

  lemma MonthsFill(year: int)
    ensures DaysBeforeMonth(year, 12) + DaysIn(year, 12) == YearDays(year)
  {
    assert DaysBeforeMonth(year, 4) == 31 + DaysIn(year, 2) + 31;
    assert DaysBeforeMonth(year, 7) == DaysBeforeMonth(year, 4) + 91;
    assert DaysBeforeMonth(year, 10) == DaysBeforeMonth(year, 7) + 92;
  }

  lemma {:induction false} YearsGrow(x: int, y: int)
    requires 1 <= x < y
    ensures DaysBeforeYear(x) + YearDays(x) <= DaysBeforeYear(y)
    decreases y
  {
    if x < y - 1 {
      YearsGrow(x, y - 1);
    }
  }

  /** Earlier in the calendar, field by field. */
  predicate EarlierDate(s: Instant, t: Instant) {
    s.year < t.year || (s.year == t.year && (s.month < t.month || (s.month == t.month && s.day < t.day)))
  }

  function DayNumber(t: Instant): int {
    DaysBeforeYear(t.year) + DaysBeforeMonth(t.year, t.month) + t.day - 1
  }

  lemma DatesOrdered(s: Instant, t: Instant)
    requires Valid(s) && Valid(t) && EarlierDate(s, t)
    ensures DayNumber(s) < DayNumber(t)
  {
    hide DaysBeforeYear, DaysBeforeMonth, DaysIn, YearDays;
    if s.year < t.year {
      YearsGrow(s.year, t.year);
      MonthsFill(s.year);
      if s.month < 12 {
        MonthsGrow(s.year, s.month, 12);
      }
      DaysPositive(s.year, t.year, t.month);
    } else if s.month < t.month {
      MonthsGrow(s.year, s.month, t.month);
    }
  }

  lemma DaysPositive(s: int, year: int, month: int)
    requires 1 <= month <= 12
    ensures DaysBeforeMonth(year, month) >= 0 && DaysIn(s, 12) == 31
  {
    if month > 1 {
      MonthsGrow(year, 1, month);
    }
  }

  lemma TicksOrdered(s: Instant, t: Instant)
    requires Valid(s) && Valid(t)
    ensures Ticks(s) < Ticks(t) <==>
      DayNumber(s) < DayNumber(t)
      || (DayNumber(s) == DayNumber(t)
          && (s.hour < t.hour || (s.hour == t.hour
              && (s.minute < t.minute || (s.minute == t.minute
                  && (s.second < t.second || (s.second == t.second && s.micro < t.micro)))))))
  {
    hide DaysBeforeYear, DaysBeforeMonth;
  }

  /** The days before a year, in closed form: a leap day every four years, but for three centuries in four. */
  lemma {:induction false} YearsCounted(year: int)
    requires year >= 1
    ensures DaysBeforeYear(year) == (year - 1) * 365 + (year - 1) / 4 - (year - 1) / 100 + (year - 1) / 400
    decreases year
  {
    if year > 1 {
      YearsCounted(year - 1);
      LeapStep(year - 1);
    }
  }

  lemma LeapStep(n: int)
    requires n >= 1
    ensures n / 4 - n / 100 + n / 400 - ((n - 1) / 4 - (n - 1) / 100 + (n - 1) / 400) == if Leap(n) then 1 else 0
  {
    var a, b, c := n / 4 - (n - 1) / 4, n / 100 - (n - 1) / 100, n / 400 - (n - 1) / 400;
    QuotientStep(n, 4);
    QuotientStep(n, 100);
    QuotientStep(n, 400);
    Multiples(n);
    assert a - b + c == if Leap(n) then 1 else 0;
  }

  lemma Multiples(n: int)
    ensures (n % 400 == 0 ==> n % 100 == 0) && (n % 100 == 0 ==> n % 4 == 0)
  {
    assert n == 400 * (n / 400) + n % 400 && n == 100 * (n / 100) + n % 100;
  }

  lemma QuotientStep(n: int, d: int)
    requires n >= 1 && d in {4, 100, 400}
    ensures n / d - (n - 1) / d == if n % d == 0 then 1 else 0
  {
  }

  /** The days before each month, and the leap day after February. */
  lemma MonthsCounted(year: int, month: int)
    requires 1 <= month <= 12
    ensures DaysBeforeMonth(year, month)
         == [0, 31, 59, 90, 120, 151, 181, 212, 243, 273, 304, 334][month - 1]
            + (if month > 2 && year % 4 == 0 && (year % 100 != 0 || year % 400 == 0) then 1 else 0)
  {
    assert DaysBeforeMonth(year, 3) == DaysBeforeMonth(year, 2) + DaysIn(year, 2) && DaysBeforeMonth(year, 2) == 31;
    assert DaysBeforeMonth(year, 5) == DaysBeforeMonth(year, 3) + 61;
    assert DaysBeforeMonth(year, 7) == DaysBeforeMonth(year, 5) + 61;
    assert DaysBeforeMonth(year, 9) == DaysBeforeMonth(year, 7) + 62;
    assert DaysBeforeMonth(year, 11) == DaysBeforeMonth(year, 9) + 61;
  }

  // ---- Text ---------------------------------------------------------------------------------------------------------

  /** Decimal, padded with zeros to a width. */
  function Pad(n: nat, width: nat): string {
    if width == 0 then "" else Pad(n / 10, width - 1) + ['0' + (n % 10) as char]
  }

  function Power10(n: nat): nat {
    if n == 0 then 1 else 10 * Power10(n - 1)
  }

  lemma {:induction false} PadOrdered(m: nat, n: nat, width: nat)
    requires m < Power10(width) && n < Power10(width)
    ensures |Pad(m, width)| == |Pad(n, width)| == width
    ensures (Before(Pad(m, width), Pad(n, width)) <==> m < n) && (Pad(m, width) == Pad(n, width) <==> m == n)
    decreases width
  {
    if width > 0 {
      var p, q, c, d :=
        Pad(m / 10, width - 1), Pad(n / 10, width - 1), ['0' + (m % 10) as char], ['0' + (n % 10) as char];
      PadOrdered(m / 10, n / 10, width - 1);
      BeforeConcat(p, q, c, d);
      assert Pad(m, width)[..width - 1] == p && Pad(n, width)[..width - 1] == q;
      assert Pad(m, width)[width - 1] == c[0] && Pad(n, width)[width - 1] == d[0];
    }
  }

  /** A padded field and what follows it. */
  lemma FieldOrdered(m: nat, n: nat, width: nat, x: string, y: string)
    requires m < Power10(width) && n < Power10(width)
    ensures Before(Pad(m, width) + x, Pad(n, width) + y) <==> m < n || (m == n && Before(x, y))
  {
    PadOrdered(m, n, width);
    BeforeConcat(Pad(m, width), Pad(n, width), x, y);
  }

  /** `isoformat` of an aware UTC datetime: microseconds only when they are not zero. */
  function Fraction(micro: nat): string {
    (if micro == 0 then "" else "." + Pad(micro, 6)) + "+00:00"
  }

  function SecondText(t: Instant): string
    requires Valid(t)
  {
    Pad(t.second, 2) + Fraction(t.micro)
  }

  function TimeText(t: Instant): string
    requires Valid(t)
  {
    Pad(t.hour, 2) + (":" + (Pad(t.minute, 2) + (":" + SecondText(t))))
  }

  function Text(t: Instant): string
    requires Valid(t)
  {
    Pad(t.year, 4) + ("-" + (Pad(t.month, 2) + ("-" + (Pad(t.day, 2) + ("T" + TimeText(t))))))
  }

  /** The number that two characters spell. */
  function TwoDigits(a: char, b: char): int {
    (a as int - '0' as int) * 10 + (b as int - '0' as int)
  }

  lemma PadSplits(n: nat, width: nat)
    ensures Pad(n, width + 2) == Pad(n / 100, width) + Pad(n % 100, 2)
  {
    assert n / 10 / 10 == n / 100 && n % 100 / 10 % 10 == n / 10 % 10 && n % 100 % 10 == n % 10;
    assert Pad(n, width + 2) == Pad(n / 10, width + 1) + ['0' + (n % 10) as char];
    assert Pad(n / 10, width + 1) == Pad(n / 100, width) + ['0' + (n / 10 % 10) as char];
    assert Pad(n % 100, 2) == Pad(n % 100 / 10, 1) + ['0' + (n % 10) as char];
    assert Pad(n % 100 / 10, 1) == Pad(n % 100 / 100, 0) + ['0' + (n % 100 / 10 % 10) as char];
  }

  lemma TwoSpelled(n: nat)
    requires n < 100
    ensures |Pad(n, 2)| == 2 && TwoDigits(Pad(n, 2)[0], Pad(n, 2)[1]) == n
  {
    assert Pad(n, 2) == Pad(n / 10, 1) + ['0' + (n % 10) as char];
    assert Pad(n / 10, 1) == Pad(n / 100, 0) + ['0' + (n / 10 % 10) as char];
  }

  lemma FourSpelled(n: nat)
    requires n < 10_000
    ensures var p := Pad(n, 4); |p| == 4 && TwoDigits(p[0], p[1]) * 100 + TwoDigits(p[2], p[3]) == n
  {
    hide Pad;
    PadSplits(n, 2);
    TwoSpelled(n / 100);
    TwoSpelled(n % 100);
  }

  lemma SixSpelled(n: nat)
    requires n < 1_000_000
    ensures var p := Pad(n, 6);
      |p| == 6 && (TwoDigits(p[0], p[1]) * 100 + TwoDigits(p[2], p[3])) * 100 + TwoDigits(p[4], p[5]) == n
  {
    hide Pad;
    PadSplits(n, 4);
    FourSpelled(n / 100);
    TwoSpelled(n % 100);
  }

  lemma TimeSpells(t: Instant)
    requires Valid(t)
    ensures var s := TimeText(t);
      && |s| == (if t.micro == 0 then 14 else 21)
      && TwoDigits(s[0], s[1]) == t.hour && s[2] == ':' && TwoDigits(s[3], s[4]) == t.minute && s[5] == ':'
      && TwoDigits(s[6], s[7]) == t.second
      && (t.micro != 0 ==>
            && s[8] == '.'
            && (TwoDigits(s[9], s[10]) * 100 + TwoDigits(s[11], s[12])) * 100 + TwoDigits(s[13], s[14]) == t.micro)
      && s[|s| - 6..] == "+00:00"
  {
    hide Pad;
    TwoSpelled(t.hour);
    TwoSpelled(t.minute);
    TwoSpelled(t.second);
    SixSpelled(t.micro);
  }

  /** Where each field of an instant stands in its text: `YYYY-MM-DDTHH:MM:SS`, then six digits of
      microseconds behind a point if there are any, then the offset. */
  lemma TextSpells(t: Instant)
    requires Valid(t)
    ensures var s := Text(t);
      && |s| == (if t.micro == 0 then 25 else 32)
      && TwoDigits(s[0], s[1]) * 100 + TwoDigits(s[2], s[3]) == t.year && s[4] == '-'
      && TwoDigits(s[5], s[6]) == t.month && s[7] == '-' && TwoDigits(s[8], s[9]) == t.day && s[10] == 'T'
      && TwoDigits(s[11], s[12]) == t.hour && s[13] == ':' && TwoDigits(s[14], s[15]) == t.minute && s[16] == ':'
      && TwoDigits(s[17], s[18]) == t.second
      && (t.micro != 0 ==>
            && s[19] == '.'
            && (TwoDigits(s[20], s[21]) * 100 + TwoDigits(s[22], s[23])) * 100 + TwoDigits(s[24], s[25]) == t.micro)
      && s[|s| - 6..] == "+00:00"
  {
    hide Pad, TimeText, TwoDigits;
    FourSpelled(t.year);
    TwoSpelled(t.month);
    TwoSpelled(t.day);
    TimeSpells(t);
    var date := Pad(t.year, 4) + "-" + Pad(t.month, 2) + "-" + Pad(t.day, 2) + "T";
    assert Text(t) == date + TimeText(t) && |date| == 11;
  }

  /** No fraction sorts before any fraction, because the plus sign sorts before the point. */
  lemma FractionOrdered(m: nat, n: nat)
    requires m < 1_000_000 && n < 1_000_000
    ensures Before(Fraction(m), Fraction(n)) <==> m < n
  {
    Powers();
    var tail := "+00:00";
    BeforeTotal(tail, tail);
    if m != 0 && n != 0 {
      FieldOrdered(m, n, 6, tail, tail);
      assert Fraction(m) == "." + (Pad(m, 6) + tail) && Fraction(n) == "." + (Pad(n, 6) + tail);
      BeforeConcat(".", ".", Pad(m, 6) + tail, Pad(n, 6) + tail);
    } else {
      assert Fraction(0) == "" + tail == tail;
      assert m != 0 ==> Fraction(m)[0] == '.';
      assert n != 0 ==> Fraction(n)[0] == '.';
    }
  }

  lemma Powers()
    ensures Power10(2) == 100 && Power10(4) == 10_000 && Power10(6) == 1_000_000
  {
    assert Power10(3) == 1000 && Power10(5) == 100_000;
  }

  /** A separator changes nothing. */
  lemma SameFirst(c: char, x: string, y: string)
    ensures Before([c] + x, [c] + y) <==> Before(x, y)
  {
    BeforeConcat([c], [c], x, y);
    BeforeTotal([c], [c]);
  }

  lemma TimeOrdered(s: Instant, t: Instant)
    requires Valid(s) && Valid(t)
    ensures Before(TimeText(s), TimeText(t)) <==>
      s.hour < t.hour || (s.hour == t.hour && (s.minute < t.minute || (s.minute == t.minute
        && (s.second < t.second || (s.second == t.second && s.micro < t.micro)))))
  {
    hide Before, Pad, Fraction, Power10;
    Powers();
    FractionOrdered(s.micro, t.micro);
    FieldOrdered(s.second, t.second, 2, Fraction(s.micro), Fraction(t.micro));
    SameFirst(':', SecondText(s), SecondText(t));
    FieldOrdered(s.minute, t.minute, 2, ":" + SecondText(s), ":" + SecondText(t));
    SameFirst(':', Pad(s.minute, 2) + (":" + SecondText(s)), Pad(t.minute, 2) + (":" + SecondText(t)));
    FieldOrdered(s.hour, t.hour, 2, ":" + (Pad(s.minute, 2) + (":" + SecondText(s))),
                 ":" + (Pad(t.minute, 2) + (":" + SecondText(t))));
  }

  lemma DateOrdered(s: Instant, t: Instant)
    requires Valid(s) && Valid(t)
    ensures Before(Text(s), Text(t)) <==>
      EarlierDate(s, t) || (s.year == t.year && s.month == t.month && s.day == t.day
                            && Before(TimeText(s), TimeText(t)))
  {
    hide Before, Pad, Power10, TimeText;
    Powers();
    SameFirst('T', TimeText(s), TimeText(t));
    FieldOrdered(s.day, t.day, 2, "T" + TimeText(s), "T" + TimeText(t));
    SameFirst('-', Pad(s.day, 2) + ("T" + TimeText(s)), Pad(t.day, 2) + ("T" + TimeText(t)));
    FieldOrdered(s.month, t.month, 2, "-" + (Pad(s.day, 2) + ("T" + TimeText(s))),
                 "-" + (Pad(t.day, 2) + ("T" + TimeText(t))));
    SameFirst('-', Pad(s.month, 2) + ("-" + (Pad(s.day, 2) + ("T" + TimeText(s)))),
              Pad(t.month, 2) + ("-" + (Pad(t.day, 2) + ("T" + TimeText(t)))));
    FieldOrdered(s.year, t.year, 4, "-" + (Pad(s.month, 2) + ("-" + (Pad(s.day, 2) + ("T" + TimeText(s))))),
                 "-" + (Pad(t.month, 2) + ("-" + (Pad(t.day, 2) + ("T" + TimeText(t))))));
  }

  /** Byte order of canonical texts is chronological order. */
  lemma TextOrderIsTimeOrder(s: Instant, t: Instant)
    requires Valid(s) && Valid(t)
    ensures Before(Text(s), Text(t)) <==> Ticks(s) < Ticks(t)
  {
    hide Before, Text, TimeText, Ticks, DayNumber;
    DateOrdered(s, t);
    TimeOrdered(s, t);
    TicksOrdered(s, t);
    if EarlierDate(s, t) {
      DatesOrdered(s, t);
    } else if EarlierDate(t, s) {
      DatesOrdered(t, s);
    } else {
      SameDate(s, t);
    }
  }

  lemma SameDate(s: Instant, t: Instant)
    requires s.year == t.year && s.month == t.month && s.day == t.day
    ensures DayNumber(s) == DayNumber(t)
  {
  }

  /** Different instants have different texts and stand at different times. */
  lemma TextsDiffer(s: Instant, t: Instant)
    requires Valid(s) && Valid(t)
    ensures Text(s) == Text(t) <==> s == t
    ensures Ticks(s) == Ticks(t) <==> s == t
  {
    hide Before, Text, TimeText, Ticks, DayNumber;
    DateOrdered(s, t);
    DateOrdered(t, s);
    TimeOrdered(s, t);
    TimeOrdered(t, s);
    TextOrderIsTimeOrder(s, t);
    TextOrderIsTimeOrder(t, s);
    BeforeTotal(Text(s), Text(t));
  }
}
