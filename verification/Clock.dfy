/** UTC wall-clock times with whole seconds, and the text forms the database,
    the ADIF files and the outbox columns use for them. */
module Clock {
  import opened Text

  datatype Civil = Civil(year: nat, month: nat, day: nat, hour: nat, minute: nat, second: nat)

  predicate IsLeap(y: nat) { y % 4 == 0 && (y % 100 != 0 || y % 400 == 0) }

  function MonthDays(y: nat, m: nat): nat {
    if m == 2 then (if IsLeap(y) then 29 else 28)
    else if m == 4 || m == 6 || m == 9 || m == 11 then 30
    else 31
  }

  /** A calendar time whose year prints in four digits. */
  predicate Valid(c: Civil) {
    && c.year <= 9999
    && 1 <= c.month <= 12
    && 1 <= c.day <= MonthDays(c.year, c.month)
    && c.hour < 24 && c.minute < 60 && c.second < 60
  }

  // ---------- Seconds since the start of year 0 ----------

  function YearDays(y: nat): nat { if IsLeap(y) then 366 else 365 }

  function DaysBeforeYear(y: nat): nat {
    if y == 0 then 0 else DaysBeforeYear(y - 1) + YearDays(y - 1)
  }

  /** Days of year `y` that precede month `m` (months count from 1). */
  function DaysBeforeMonth(y: nat, m: nat): nat {
    if m <= 1 then 0 else DaysBeforeMonth(y, m - 1) + MonthDays(y, m - 1)
  }

  function DayNumber(c: Civil): nat
    requires Valid(c)
  {
    DaysBeforeYear(c.year) + DaysBeforeMonth(c.year, c.month) + (c.day - 1)
  }

  function Seconds(c: Civil): nat
    requires Valid(c)
  {
    DayNumber(c) * 86400 + c.hour * 3600 + c.minute * 60 + c.second
  }

  /** One past the last second of year 9999. */
  function EndOfTime(): nat { DaysBeforeYear(10000) * 86400 }

  /** The Gregorian calendar: every fourth year is a leap year but for centuries that are no multiple of four hundred. */
  lemma {:induction false} LeapYearsCount(y: nat)
    ensures DaysBeforeYear(y) == 365 * y + (y + 3) / 4 - (y + 99) / 100 + (y + 399) / 400
  {
    if y > 0 {
      LeapYearsCount(y - 1);
      hide DaysBeforeYear;
      OneYear(y - 1);
    }
  }

  lemma OneYear(y: nat)
    ensures YearDays(y) == 365 + ((y + 4) / 4 - (y + 3) / 4) - ((y + 100) / 100 - (y + 99) / 100) + ((y + 400) / 400 - (y + 399) / 400)
  {
    assert (y + 4) / 4 - (y + 3) / 4 == if y % 4 == 0 then 1 else 0;
    assert (y + 100) / 100 - (y + 99) / 100 == if y % 100 == 0 then 1 else 0;
    assert (y + 400) / 400 - (y + 399) / 400 == if y % 400 == 0 then 1 else 0;
  }

  /** The lengths of the months. */
  lemma MonthLengths(y: nat, m: nat)
    ensures m in {1, 3, 5, 7, 8, 10, 12} ==> MonthDays(y, m) == 31
    ensures m in {4, 6, 9, 11} ==> MonthDays(y, m) == 30
    ensures MonthDays(y, 2) == YearDays(y) - 337
  {
  }

  lemma MonthsFillYear(y: nat)
    ensures DaysBeforeMonth(y, 13) == YearDays(y)
  {
    assert DaysBeforeMonth(y, 2) == 31;
    assert DaysBeforeMonth(y, 3) == 31 + MonthDays(y, 2);
    assert DaysBeforeMonth(y, 5) == DaysBeforeMonth(y, 3) + 61;
    assert DaysBeforeMonth(y, 7) == DaysBeforeMonth(y, 5) + 61;
    assert DaysBeforeMonth(y, 9) == DaysBeforeMonth(y, 7) + 62;
    assert DaysBeforeMonth(y, 11) == DaysBeforeMonth(y, 9) + 61;
  }

  lemma {:induction false} MonthsGrow(y: nat, m: nat, n: nat)
    requires 1 <= m <= n
    ensures DaysBeforeMonth(y, m) <= DaysBeforeMonth(y, n)
    decreases n
  {
    if m < n { MonthsGrow(y, m, n - 1); }
  }

  lemma {:induction false} YearsGrow(x: nat, y: nat)
    requires x <= y
    ensures DaysBeforeYear(x) <= DaysBeforeYear(y)
  {
    if x < y { YearsGrow(x, y - 1); }
  }

  lemma DayWithinYear(c: Civil)
    requires Valid(c)
    ensures DaysBeforeYear(c.year) <= DayNumber(c) < DaysBeforeYear(c.year + 1)
  {
    MonthsGrow(c.year, c.month + 1, 13);
    MonthsFillYear(c.year);
  }

  /** Field-by-field order, most significant first. */
  predicate Before(a: Civil, b: Civil) {
    || a.year < b.year
    || (a.year == b.year && (a.month < b.month
    || (a.month == b.month && (a.day < b.day
    || (a.day == b.day && (a.hour < b.hour
    || (a.hour == b.hour && (a.minute < b.minute
    || (a.minute == b.minute && a.second < b.second)))))))))
  }

  lemma BeforeTotal(a: Civil, b: Civil)
    ensures Before(a, b) || a == b || Before(b, a)
  {
  }

  lemma EarlierSeconds(a: Civil, b: Civil)
    requires Valid(a) && Valid(b) && Before(a, b)
    ensures Seconds(a) < Seconds(b)
  {
    if a.year < b.year {
      DayWithinYear(a);
      DayWithinYear(b);
      YearsGrow(a.year + 1, b.year);
    } else if a.month < b.month {
      MonthsGrow(a.year, a.month + 1, b.month);
    }
    assert DayNumber(a) < DayNumber(b) || (DayNumber(a) == DayNumber(b) && a.day == b.day);
  }

  /** The calendar order is the order of elapsed seconds. */
  lemma SecondsOrder(a: Civil, b: Civil)
    requires Valid(a) && Valid(b)
    ensures Before(a, b) <==> Seconds(a) < Seconds(b)
    ensures a == b <==> Seconds(a) == Seconds(b)
  {
    BeforeTotal(a, b);
    if Before(a, b) { EarlierSeconds(a, b); }
    if Before(b, a) { EarlierSeconds(b, a); }
  }

  lemma SecondsBound(c: Civil)
    requires Valid(c)
    ensures Seconds(c) < EndOfTime()
  {
    hide DaysBeforeYear, DayNumber, MonthDays;
    DayWithinYear(c);
    YearsGrow(c.year + 1, 10000);
  }

  // ---------- Back to the calendar ----------

  function YearOf(day: nat, y: nat): (r: nat)
    requires DaysBeforeYear(y) <= day
    ensures y <= r && DaysBeforeYear(r) <= day < DaysBeforeYear(r + 1)
    decreases day - DaysBeforeYear(y)
  {
    if day < DaysBeforeYear(y + 1) then y else YearOf(day, y + 1)
  }

  function MonthOf(y: nat, day: nat, m: nat): (r: nat)
    requires 1 <= m <= 12 && DaysBeforeMonth(y, m) <= day < YearDays(y)
    ensures m <= r <= 12 && DaysBeforeMonth(y, r) <= day < DaysBeforeMonth(y, r + 1)
    decreases 12 - m
  {
    MonthsFillYear(y);
    if m == 12 || day < DaysBeforeMonth(y, m + 1) then m else MonthOf(y, day, m + 1)
  }

  function DateOf(day: nat, secs: nat): (c: Civil)
    requires day < DaysBeforeYear(10000) && secs < 86400
    ensures Valid(c) && DayNumber(c) == day
    ensures c.hour * 3600 + c.minute * 60 + c.second == secs
  {
    var y := YearOf(day, 0);
    assert y <= 9999 by {
      if y > 9999 { YearsGrow(10000, y); }
    }
    var rest := day - DaysBeforeYear(y);
    var m := MonthOf(y, rest, 1);
    Civil(y, m, rest - DaysBeforeMonth(y, m) + 1, secs / 3600, secs % 3600 / 60, secs % 60)
  }

  /** The calendar time that many seconds after the start of year 0. */
  function OfSeconds(s: nat): (c: Civil)
    requires s < EndOfTime()
    ensures Valid(c) && Seconds(c) == s
  {
    DateOf(s / 86400, s % 86400)
  }

  /** time.AddDate(0, 0, 1). */
  function NextDay(c: Civil): (r: Civil)
    requires Valid(c)
  {
    if c.day < MonthDays(c.year, c.month) then c.(day := c.day + 1)
    else if c.month < 12 then c.(month := c.month + 1, day := 1)
    else c.(year := c.year + 1, month := 1, day := 1)
  }

  // ---------- Text forms ----------

  function DateText(c: Civil): string { Digits(c.year, 4) + (Digits(c.month, 2) + Digits(c.day, 2)) }

  function TimeText(c: Civil): string { Digits(c.hour, 2) + (Digits(c.minute, 2) + Digits(c.second, 2)) }

  /** The 14-digit form used for qso_date and time_on side by side. */
  function Stamp(c: Civil): (s: string)
    ensures |s| == 14 && AllDigits(s)
  {
    DateText(c) + TimeText(c)
  }

  /** The RFC 3339 form of the outbox columns (whole seconds, zone Z). */
  function Rfc3339(c: Civil): string {
    Digits(c.year, 4) + ("-" + (Digits(c.month, 2) + ("-" + (Digits(c.day, 2) + ("T"
    + (Digits(c.hour, 2) + (":" + (Digits(c.minute, 2) + (":" + (Digits(c.second, 2) + "Z"))))))))))
  }

  lemma PowersOfTen()
    ensures Pow10(2) == 100 && Pow10(4) == 10000
  {
    assert Pow10(1) == 10;
    assert Pow10(3) == 1000;
  }

  lemma LexSame(p: string, r: string, t: string)
    ensures LexLess(p + r, p + t) <==> LexLess(r, t)
  {
    LexConcat(p, p, r, t);
    LexIrreflexive(p);
  }

  lemma {:induction false} LexIrreflexive(p: string)
    ensures !LexLess(p, p)
  {
    if p != "" { LexIrreflexive(p[1..]); }
  }

  /** Text order on 14-digit stamps is time order. */
  lemma StampOrder(a: Civil, b: Civil)
    requires Valid(a) && Valid(b)
    ensures LexLess(Stamp(a), Stamp(b)) <==> Seconds(a) < Seconds(b)
    ensures Stamp(a) == Stamp(b) <==> Seconds(a) == Seconds(b)
  {
    hide Stamp, Seconds, LexLess, Valid;
    StampBefore(a, b);
    SecondsOrder(a, b);
    LexIrreflexive(Stamp(a));
    BeforeTotal(a, b);
    if Before(b, a) { LexAsymmetric(b, a); }
  }

  /** Text order of the stamps is calendar order. */
  lemma StampBefore(a: Civil, b: Civil)
    requires Valid(a) && Valid(b)
    ensures LexLess(Stamp(a), Stamp(b)) <==> Before(a, b)
  {
    hide Digits, LexLess;
    PowersOfTen();
    var h, k := Digits(a.second, 2), Digits(b.second, 2);
    LexDigits(a.second, b.second, 2);
    LexField(a.minute, b.minute, 2, h, k);
    LexField(a.hour, b.hour, 2, Digits(a.minute, 2) + h, Digits(b.minute, 2) + k);
    LexField(a.day, b.day, 2, TimeText(a), TimeText(b));
    LexField(a.month, b.month, 2, Digits(a.day, 2) + TimeText(a), Digits(b.day, 2) + TimeText(b));
    var c, d := Digits(a.month, 2) + (Digits(a.day, 2) + TimeText(a)), Digits(b.month, 2) + (Digits(b.day, 2) + TimeText(b));
    LexField(a.year, b.year, 4, c, d);
    assert Stamp(a) == Digits(a.year, 4) + c && Stamp(b) == Digits(b.year, 4) + d;
  }

  lemma LexAsymmetric(a: Civil, b: Civil)
    requires Valid(a) && Valid(b) && Before(a, b)
    ensures Stamp(a) != Stamp(b)
  {
    StampParses(a);
    StampParses(b);
  }

  /** Section 5.1 of RFC 3339: text order on equal-width UTC timestamps is time order. */
  lemma Rfc3339Order(a: Civil, b: Civil)
    requires Valid(a) && Valid(b)
    ensures LexLess(Rfc3339(a), Rfc3339(b)) <==> Seconds(a) < Seconds(b)
  {
    PowersOfTen();
    SecondsOrder(a, b);
    LexIrreflexive("Z");
    var s1, s2 := Digits(a.second, 2) + "Z", Digits(b.second, 2) + "Z";
    LexField(a.second, b.second, 2, "Z", "Z");
    LexSame(":", s1, s2);
    var m1, m2 := Digits(a.minute, 2) + (":" + s1), Digits(b.minute, 2) + (":" + s2);
    LexField(a.minute, b.minute, 2, ":" + s1, ":" + s2);
    LexSame(":", m1, m2);
    var h1, h2 := Digits(a.hour, 2) + (":" + m1), Digits(b.hour, 2) + (":" + m2);
    LexField(a.hour, b.hour, 2, ":" + m1, ":" + m2);
    LexSame("T", h1, h2);
    var d1, d2 := Digits(a.day, 2) + ("T" + h1), Digits(b.day, 2) + ("T" + h2);
    LexField(a.day, b.day, 2, "T" + h1, "T" + h2);
    LexSame("-", d1, d2);
    var n1, n2 := Digits(a.month, 2) + ("-" + d1), Digits(b.month, 2) + ("-" + d2);
    LexField(a.month, b.month, 2, "-" + d1, "-" + d2);
    LexSame("-", n1, n2);
    LexField(a.year, b.year, 4, "-" + n1, "-" + n2);
  }

  /** Three decimal numbers side by side, the first `w` digits wide, the others two. */
  function ThreeFields(s: string, w: nat): (nat, nat, nat)
    requires |s| == w + 4 && AllDigits(s)
  {
    (NatValue(s[..w]), NatValue(s[w..w + 2]), NatValue(s[w + 2..]))
  }

  /** time.Parse of the 14-digit layout. */
  function ParseStamp(s: string): (r: Option<Civil>)
    ensures r.Some? ==> Valid(r.value)
  {
    if |s| != 14 || !AllDigits(s) then None
    else
      var (y, m, d) := ThreeFields(s[..8], 4);
      var (h, n, c) := ThreeFields(s[8..], 2);
      var t := Civil(y, m, d, h, n, c);
      if Valid(t) then Some(t) else None
  }

  lemma ThreeFieldsOf(x: nat, y: nat, z: nat, w: nat)
    requires x < Pow10(w) && y < 100 && z < 100
    ensures ThreeFields(Digits(x, w) + (Digits(y, 2) + Digits(z, 2)), w) == (x, y, z)
  {
    PowersOfTen();
    var a, b, c := Digits(x, w), Digits(y, 2), Digits(z, 2);
    var s := a + (b + c);
    assert s[..w] == a && s[w..w + 2] == b && s[w + 2..] == c;
    DigitsValue(x, w);
    DigitsValue(y, 2);
    DigitsValue(z, 2);
    hide Digits, NatValue;
  }

  lemma StampParses(c: Civil)
    requires Valid(c)
    ensures ParseStamp(Stamp(c)) == Some(c)
  {
    PowersOfTen();
    ThreeFieldsOf(c.year, c.month, c.day, 4);
    ThreeFieldsOf(c.hour, c.minute, c.second, 2);
    hide ThreeFields;
    assert Stamp(c)[..8] == DateText(c) && Stamp(c)[8..] == TimeText(c);
    hide Digits, DateText, TimeText;
  }

  lemma {:induction false} DigitsOfValue(s: string)
    requires AllDigits(s)
    ensures Digits(NatValue(s), |s|) == s
  {
    if s != "" {
      DigitsOfValue(s[..|s| - 1]);
      assert s == s[..|s| - 1] + [s[|s| - 1]];
    }
  }

  lemma ThreeFieldsText(s: string, w: nat)
    requires |s| == w + 4 && AllDigits(s)
    ensures var (x, y, z) := ThreeFields(s, w); Digits(x, w) + (Digits(y, 2) + Digits(z, 2)) == s
  {
    hide Digits, NatValue;
    DigitsOfValue(s[..w]);
    DigitsOfValue(s[w..w + 2]);
    DigitsOfValue(s[w + 2..]);
    ThreeParts(s, w);
  }

  lemma ThreeParts(s: string, w: nat)
    requires |s| == w + 4
    ensures s == s[..w] + (s[w..w + 2] + s[w + 2..])
  {
    assert s[w..] == s[w..w + 2] + s[w + 2..];
    assert s == s[..w] + s[w..];
  }

  /** A stamp that parses is the stamp of the time it parses to. */
  lemma StampOfParsed(s: string)
    requires ParseStamp(s).Some?
    ensures Stamp(ParseStamp(s).value) == s
  {
    ThreeFieldsText(s[..8], 4);
    ThreeFieldsText(s[8..], 2);
    hide Digits, ThreeFields;
    assert s == s[..8] + s[8..];
  }
}
