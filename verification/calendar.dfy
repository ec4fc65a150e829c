/** The proleptic Gregorian calendar as JavaScript's `Date` computes it,
    restricted to whole days: `MakeDay` (the arithmetic behind `setDate`,
    `setMonth` and `new Date(y, m, d)`), which lets an out-of-range month or
    day roll over into the neighbouring month or year; the `YYYY-MM-DD`
    strings that `toISOString().slice(0, 10)` prints; and the parser that
    reads them back. Dates are compared through their day number. */
module Calendar {
  import opened Common
  import opened Text

  /** A calendar date; `month` counts from 1. `day` may lie outside the month
      until `NormalizeDay` rolls it over. */
  datatype Date = Date(year: int, month: int, day: int)

  predicate IsLeap(y: int)
  {
    y % 4 == 0 && (y % 100 != 0 || y % 400 == 0)
  }

  function DaysInMonth(y: int, m: int): (n: int)
    requires 1 <= m <= 12
    ensures 28 <= n <= 31
    ensures n < 30 <==> m == 2
  {
    if m == 2 then (if IsLeap(y) then 29 else 28)
    else if m == 4 || m == 6 || m == 9 || m == 11 then 30
    else 31
  }

  function DaysInYear(y: int): int
  {
    if IsLeap(y) then 366 else 365
  }

  predicate ValidDate(d: Date)
  {
    1 <= d.month <= 12 && 1 <= d.day <= DaysInMonth(d.year, d.month)
  }

  /** Days from 1 January of year 0 to 1 January of year `y` (negative for
      years before 0): 365 per year plus the leap days in between. */
  function DaysBeforeYear(y: int): int
  {
    365 * y + (y + 3) / 4 - (y + 99) / 100 + (y + 399) / 400
  }

  lemma DaysBeforeNextYear(y: int)
    ensures DaysBeforeYear(y + 1) == DaysBeforeYear(y) + DaysInYear(y)
  {
    var d4, d100, d400 := if y % 4 == 0 then 1 else 0, if y % 100 == 0 then 1 else 0, if y % 400 == 0 then 1 else 0;
    LeapStep4(y);
    LeapStep100(y);
    LeapStep400(y);
    assert DaysBeforeYear(y + 1) == DaysBeforeYear(y) + 365 + d4 - d100 + d400;
    LeapCount(y);
  }

  /** A year is leap exactly when the three rules add up to one extra day. */
  lemma LeapCount(y: int)
    ensures DaysInYear(y) == 365 + (if y % 4 == 0 then 1 else 0) - (if y % 100 == 0 then 1 else 0) + (if y % 400 == 0 then 1 else 0)
  {
    if y % 400 == 0 {
      DividesBy100(y);
    }
    if y % 100 == 0 {
      DividesBy4(y);
    }
  }

  lemma DividesBy100(y: int)
    requires y % 400 == 0
    ensures y % 100 == 0
  {
    var k := y / 400;
    assert y == 100 * (4 * k) + 0;
  }

  lemma DividesBy4(y: int)
    requires y % 100 == 0
    ensures y % 4 == 0
  {
    var k := y / 100;
    assert y == 4 * (25 * k) + 0;
  }

  lemma LeapStep4(y: int)
    ensures (y + 4) / 4 == (y + 3) / 4 + (if y % 4 == 0 then 1 else 0)
  {
  }

  lemma LeapStep100(y: int)
    ensures (y + 100) / 100 == (y + 99) / 100 + (if y % 100 == 0 then 1 else 0)
  {
  }

  lemma LeapStep400(y: int)
    ensures (y + 400) / 400 == (y + 399) / 400 + (if y % 400 == 0 then 1 else 0)
  {
  }

  lemma {:induction false} DaysBeforeYearMonotonic(a: int, b: int)
    requires a <= b
    ensures DaysBeforeYear(a) + 365 * (b - a) <= DaysBeforeYear(b)
    decreases b - a
  {
    if a < b {
      DaysBeforeYearMonotonic(a, b - 1);
      DaysBeforeNextYear(b - 1);
    }
  }

  /** Days from 1 January to the first of month `m` of year `y`. */
  function DaysBeforeMonth(y: int, m: int): int
    requires 1 <= m <= 12
  {
    [0, 31, 59, 90, 120, 151, 181, 212, 243, 273, 304, 334][m - 1]
      + (if m > 2 && IsLeap(y) then 1 else 0)
  }

  lemma DaysBeforeNextMonth(y: int, m: int)
    requires 1 <= m <= 12
    ensures m < 12 ==> DaysBeforeMonth(y, m + 1) == DaysBeforeMonth(y, m) + DaysInMonth(y, m)
    ensures m == 12 ==> DaysBeforeMonth(y, m) + DaysInMonth(y, m) == DaysInYear(y)
  {
  }

  lemma {:induction false} DaysBeforeMonthMonotonic(y: int, a: int, b: int)
    requires 1 <= a < b <= 12
    ensures DaysBeforeMonth(y, a) + DaysInMonth(y, a) <= DaysBeforeMonth(y, b)
    decreases b - a
  {
    DaysBeforeNextMonth(y, a);
    if a + 1 < b {
      DaysBeforeMonthMonotonic(y, a + 1, b);
    }
  }

  /** The number of days from 1 January of year 0 to `d`; defined for any
      `day`, so that a day outside its month denotes the date it rolls over to. */
  function DayNumber(d: Date): int
    requires 1 <= d.month <= 12
  {
    DaysBeforeYear(d.year) + DaysBeforeMonth(d.year, d.month) + d.day - 1
  }

  /** Rolls an out-of-range day over into the neighbouring months, as
      `MakeDay` does (`NormalizeDayNumber`: the day number is kept). */
  function NormalizeDay(d: Date): (r: Date)
    requires 1 <= d.month <= 12
    ensures ValidDate(r)
    decreases if d.day < 1 then 1 - d.day else 0,
              if d.day > DaysInMonth(d.year, d.month) then d.day else 0
  {
    if d.day < 1 then
      var prev := if d.month == 1 then Date(d.year - 1, 12, 0) else Date(d.year, d.month - 1, 0);
      NormalizeDay(prev.(day := d.day + DaysInMonth(prev.year, prev.month)))
    else if d.day > DaysInMonth(d.year, d.month) then
      var next := if d.month == 12 then Date(d.year + 1, 1, 0) else Date(d.year, d.month + 1, 0);
      NormalizeDay(next.(day := d.day - DaysInMonth(d.year, d.month)))
    else
      d
  }

  /** Rolling over keeps the day number. */
  lemma {:induction false} NormalizeDayNumber(d: Date)
    requires 1 <= d.month <= 12
    ensures DayNumber(NormalizeDay(d)) == DayNumber(d)
    decreases if d.day < 1 then 1 - d.day else 0,
              if d.day > DaysInMonth(d.year, d.month) then d.day else 0
  {
    if d.day < 1 {
      var prev := if d.month == 1 then Date(d.year - 1, 12, 0) else Date(d.year, d.month - 1, 0);
      var e := prev.(day := d.day + DaysInMonth(prev.year, prev.month));
      assert NormalizeDay(d) == NormalizeDay(e);
      RollBackNumber(d);
      NormalizeDayNumber(e);
    } else if d.day > DaysInMonth(d.year, d.month) {
      var next := if d.month == 12 then Date(d.year + 1, 1, 0) else Date(d.year, d.month + 1, 0);
      var e := next.(day := d.day - DaysInMonth(d.year, d.month));
      assert NormalizeDay(d) == NormalizeDay(e);
      RollForwardNumber(d);
      NormalizeDayNumber(e);
    }
  }

  /** Moving a day into the previous month keeps its day number. */
  lemma RollBackNumber(d: Date)
    requires 1 <= d.month <= 12
    ensures var prev := if d.month == 1 then Date(d.year - 1, 12, 0) else Date(d.year, d.month - 1, 0);
      DayNumber(prev.(day := d.day + DaysInMonth(prev.year, prev.month))) == DayNumber(d)
  {
    if d.month == 1 {
      DaysBeforeNextMonth(d.year - 1, 12);
      DaysBeforeNextYear(d.year - 1);
    } else {
      DaysBeforeNextMonth(d.year, d.month - 1);
    }
  }

  /** Moving a day into the next month keeps its day number. */
  lemma RollForwardNumber(d: Date)
    requires 1 <= d.month <= 12
    ensures var next := if d.month == 12 then Date(d.year + 1, 1, 0) else Date(d.year, d.month + 1, 0);
      DayNumber(next.(day := d.day - DaysInMonth(d.year, d.month))) == DayNumber(d)
  {
    DaysBeforeNextMonth(d.year, d.month);
    if d.month == 12 {
      DaysBeforeNextYear(d.year);
    }
  }

  /** `MakeDay(year, monthIndex, day)`: the month index counts from 0 and may
      lie outside 0..11; the excess moves into the year. */
  function MakeDate(year: int, monthIndex: int, day: int): (r: Date)
    ensures ValidDate(r)
  {
    NormalizeDay(Date(year + monthIndex / 12, monthIndex % 12 + 1, day))
  }

  /** `new Date(y, m, d)` reads a year 0..99 as 1900..1999. */
  function ConstructorYear(y: int): int
  {
    if 0 <= y <= 99 then 1900 + y else y
  }

  /** `d.setMonth(monthIndex)`: the same day in the month with that index
      (counted from 0, carried into the year), rolling over past its end. */
  function SetMonth(d: Date, monthIndex: int): (r: Date)
    ensures ValidDate(r)
  {
    MakeDate(d.year, monthIndex, d.day)
  }

  /** `d.setDate(day)`: the given day of `d`'s month, rolling over past its
      end or before its start. */
  function SetDate(d: Date, day: int): (r: Date)
    requires 1 <= d.month <= 12
    ensures ValidDate(r)
  {
    MakeDate(d.year, d.month - 1, day)
  }

  /** Date order: year, then month, then day. */
  predicate Before(a: Date, b: Date)
  {
    a.year < b.year
    || (a.year == b.year && a.month < b.month)
    || (a.year == b.year && a.month == b.month && a.day < b.day)
  }

  /** A valid date's day number lies inside its year and inside its month. */
  lemma DayNumberBounds(d: Date)
    requires ValidDate(d)
    ensures DaysBeforeYear(d.year) <= DayNumber(d) < DaysBeforeYear(d.year + 1)
    ensures DaysBeforeYear(d.year) + DaysBeforeMonth(d.year, d.month) <= DayNumber(d)
    ensures DayNumber(d) < DaysBeforeYear(d.year) + DaysBeforeMonth(d.year, d.month) + DaysInMonth(d.year, d.month)
  {
    DaysBeforeNextYear(d.year);
    DaysBeforeNextMonth(d.year, 12);
    if d.month < 12 {
      DaysBeforeMonthMonotonic(d.year, d.month, 12);
    }
  }

  /** On valid dates the day number orders dates as the calendar does. */
  lemma DayNumberOrder(a: Date, b: Date)
    requires ValidDate(a) && ValidDate(b)
    ensures Before(a, b) <==> DayNumber(a) < DayNumber(b)
    ensures a == b <==> DayNumber(a) == DayNumber(b)
  {
    if a.year < b.year {
      EarlierYear(a, b);
    } else if b.year < a.year {
      EarlierYear(b, a);
    } else if a.month < b.month {
      EarlierMonth(a, b);
    } else if b.month < a.month {
      EarlierMonth(b, a);
    }
  }

  lemma EarlierYear(a: Date, b: Date)
    requires ValidDate(a) && ValidDate(b) && a.year < b.year
    ensures DayNumber(a) < DayNumber(b)
  {
    DayNumberBounds(a);
    DayNumberBounds(b);
    DaysBeforeYearMonotonic(a.year + 1, b.year);
  }

  lemma EarlierMonth(a: Date, b: Date)
    requires ValidDate(a) && ValidDate(b) && a.year == b.year && a.month < b.month
    ensures DayNumber(a) < DayNumber(b)
  {
    DaysBeforeMonthMonotonic(a.year, a.month, b.month);
  }

  /** The day `n` days after `d`, by `setDate(getDate() + n)`. */
  function AddDays(d: Date, n: int): (r: Date)
    requires ValidDate(d)
    ensures ValidDate(r)
  {
    NormalizeDay(d.(day := d.day + n))
  }

  /** Adding `n` days moves the day number by exactly `n`. */
  lemma AddDaysNumber(d: Date, n: int)
    requires ValidDate(d)
    ensures DayNumber(AddDays(d, n)) == DayNumber(d) + n
  {
    NormalizeDayNumber(d.(day := d.day + n));
  }

  // ---------------------------------------------------------------------------
  // `YYYY-MM-DD`

  /** The year as `toISOString` prints it: four digits for 0..9999, otherwise
      a sign and six digits. */
  function IsoYear(y: int): (s: string)
    ensures |s| >= 4
  {
    if 0 <= y <= 9999 then PadStart(y, 4)
    else (if y < 0 then "-" else "+") + PadStart(if y < 0 then -y else y, 6)
  }

  /** `d.toISOString().slice(0, 10)` for a date at midnight UTC. */
  function IsoDate(d: Date): (s: string)
    requires ValidDate(d)
    ensures |s| == 10
  {
    Prefix(IsoYear(d.year) + ("-" + (PadStart(d.month, 2) + ("-" + PadStart(d.day, 2)))), 10)
  }

  /** `${y}-${m}-${day}` with month and day padded to two digits and the year
      printed as it is. */
  function LocalYmd(d: Date): string
    requires ValidDate(d)
  {
    IntToString(d.year) + ("-" + (PadStart(d.month, 2) + ("-" + PadStart(d.day, 2))))
  }

  /** The shape `DDDD-DD-DD` with a valid month and day: the strings that
      `new Date(s + "T00:00:00")` reads as a date. */
  function ParseYmd(s: string): (r: Option<Date>)
    ensures r.Some? ==> ValidDate(r.value) && 0 <= r.value.year <= 9999
  {
    if |s| == 10 && s[4] == '-' && s[7] == '-'
       && AllDigits(s[..4]) && AllDigits(s[5..7]) && AllDigits(s[8..])
    then
      var d := Date(ValueOf(s[..4]), ValueOf(s[5..7]), ValueOf(s[8..]));
      assert ValueOf(s[..4]) <= 9999 by { DigitsBound4(s[..4]); }
      if ValidDate(d) then Some(d) else None
    else None
  }

  lemma DigitsBound4(s: string)
    requires |s| == 4 && AllDigits(s)
    ensures ValueOf(s) <= 9999
  {
    ValueOf4(s);
  }

  /** The value of two and of four decimal digits. */
  lemma ValueOf2(s: string)
    requires |s| == 2 && AllDigits(s)
    ensures ValueOf(s) == DigitValue(s[0]) * 10 + DigitValue(s[1])
  {
    ValueOfSnoc([], s[0]);
    assert [] + [s[0]] == [s[0]];
    ValueOfSnoc([s[0]], s[1]);
    assert [s[0]] + [s[1]] == s;
  }

  lemma ValueOf4(s: string)
    requires |s| == 4 && AllDigits(s)
    ensures ValueOf(s) == DigitValue(s[0]) * 1000 + DigitValue(s[1]) * 100 + DigitValue(s[2]) * 10 + DigitValue(s[3])
  {
    ValueOf2(s[..2]);
    ValueOfSnoc(s[..2], s[2]);
    assert s[..2] + [s[2]] == s[..3];
    ValueOfSnoc(s[..3], s[3]);
    assert s[..3] + [s[3]] == s;
  }

  // ---------------------------------------------------------------------------
  // fixed-width digits

  lemma NatToStringStep(n: nat)
    requires n >= 10
    ensures NatToString(n) == NatToString(n / 10) + [DigitChar(n % 10)]
  {
  }

  lemma Pad2Digits(n: int)
    requires 0 <= n <= 99
    ensures PadStart(n, 2) == [DigitChar(n / 10), DigitChar(n % 10)]
  {
    if n >= 10 {
      NatToStringStep(n);
    } else {
      assert Zeros(1) == "0";
    }
  }

  lemma DivTens(n: int)
    requires 0 <= n <= 9999
    ensures n / 10 / 10 == n / 100 && n / 100 / 10 == n / 1000
  {
  }

  lemma Pad4Digits(n: int)
    requires 0 <= n <= 9999
    ensures PadStart(n, 4) == [DigitChar(n / 1000), DigitChar(n / 100 % 10), DigitChar(n / 10 % 10), DigitChar(n % 10)]
  {
    if n >= 1000 {
      FourDigits(n);
    } else if n >= 100 {
      PadThreeDigits(n);
    } else if n >= 10 {
      PadTwoDigits(n);
    } else {
      assert Zeros(3) == "000";
    }
  }

  lemma PadThreeDigits(n: int)
    requires 100 <= n <= 999
    ensures PadStart(n, 4) == [DigitChar(n / 1000), DigitChar(n / 100 % 10), DigitChar(n / 10 % 10), DigitChar(n % 10)]
  {
    ThreeDigits(n);
    assert Zeros(1) == "0";
    assert n / 1000 == 0 && n / 100 % 10 == n / 100;
  }

  lemma PadTwoDigits(n: int)
    requires 10 <= n <= 99
    ensures PadStart(n, 4) == [DigitChar(n / 1000), DigitChar(n / 100 % 10), DigitChar(n / 10 % 10), DigitChar(n % 10)]
  {
    NatToStringStep(n);
    assert Zeros(2) == "00";
    assert n / 1000 == 0 && n / 100 % 10 == 0 && n / 10 % 10 == n / 10;
  }

  lemma ThreeDigits(n: int)
    requires 100 <= n <= 999
    ensures NatToString(n) == [DigitChar(n / 100), DigitChar(n / 10 % 10), DigitChar(n % 10)]
  {
    DivTens(n);
    NatToStringStep(n / 10);
    NatToStringStep(n);
  }

  lemma FourDigits(n: int)
    requires 1000 <= n <= 9999
    ensures NatToString(n) == [DigitChar(n / 1000), DigitChar(n / 100 % 10), DigitChar(n / 10 % 10), DigitChar(n % 10)]
  {
    var m := n / 10;
    DivTens(n);
    DivTens(m);
    ThreeDigits(m);
    NatToStringStep(n);
    assert m / 100 == n / 1000 && m / 10 % 10 == n / 100 % 10;
  }

  lemma DigitCharOrder(d: int, e: int)
    requires 0 <= d <= 9 && 0 <= e <= 9
    ensures DigitChar(d) < DigitChar(e) <==> d < e
    ensures DigitChar(d) == DigitChar(e) <==> d == e
  {
    assert DigitChar(d) as int == '0' as int + d;
    assert DigitChar(e) as int == '0' as int + e;
  }

  lemma LexLtSingle(c: char, d: char)
    ensures LexLt([c], [d]) <==> c < d
  {
    assert [c][1..] == [] && [d][1..] == [];
  }

  lemma Pad2Order(a: int, b: int)
    requires 0 <= a <= 99 && 0 <= b <= 99
    ensures LexLt(PadStart(a, 2), PadStart(b, 2)) <==> a < b
    ensures PadStart(a, 2) == PadStart(b, 2) <==> a == b
  {
    Pad2Digits(a);
    Pad2Digits(b);
    var ha, la, hb, lb := DigitChar(a / 10), DigitChar(a % 10), DigitChar(b / 10), DigitChar(b % 10);
    assert PadStart(a, 2) == [ha] + [la] && PadStart(b, 2) == [hb] + [lb];
    LexConcat([ha], [hb], [la], [lb]);
    LexLtSingle(ha, hb);
    LexLtSingle(la, lb);
    DigitCharOrder(a / 10, b / 10);
    DigitCharOrder(a % 10, b % 10);
    assert a == a / 10 * 10 + a % 10 && b == b / 10 * 10 + b % 10;
  }

  /** Four padded digits are the two padded hundreds followed by the two
      padded units. */
  lemma Pad4Halves(n: int)
    requires 0 <= n <= 9999
    ensures PadStart(n, 4) == PadStart(n / 100, 2) + PadStart(n % 100, 2)
  {
    DivTens(n);
    Pad4Digits(n);
    Pad2Digits(n / 100);
    Pad2Digits(n % 100);
    assert n / 100 / 10 == n / 1000 && n / 100 % 10 == n / 100 % 10;
    assert n % 100 / 10 == n / 10 % 10 && n % 100 % 10 == n % 10;
  }

  lemma HundredsSplit(n: int, h: int, l: int)
    requires 0 <= l < 100 && n == h * 100 + l
    ensures n / 100 == h && n % 100 == l
  {
  }

  lemma Pad4Order(a: int, b: int)
    requires 0 <= a <= 9999 && 0 <= b <= 9999
    ensures LexLt(PadStart(a, 4), PadStart(b, 4)) <==> a < b
    ensures PadStart(a, 4) == PadStart(b, 4) <==> a == b
  {
    var ha, la, hb, lb := a / 100, a % 100, b / 100, b % 100;
    var sha, sla, shb, slb := PadStart(ha, 2), PadStart(la, 2), PadStart(hb, 2), PadStart(lb, 2);
    Pad4Halves(a);
    Pad4Halves(b);
    Pad2Digits(ha);
    Pad2Digits(la);
    Pad2Digits(hb);
    Pad2Digits(lb);
    assert |sha| == 2 && |sla| == 2 && |shb| == 2 && |slb| == 2;
    Pad2Order(ha, hb);
    Pad2Order(la, lb);
    LexConcat(sha, shb, sla, slb);
    if sha + sla == shb + slb {
      assert (sha + sla)[..2] == sha && (shb + slb)[..2] == shb;
      assert (sha + sla)[2..] == sla && (shb + slb)[2..] == slb;
    }
    assert a == ha * 100 + la && b == hb * 100 + lb;
  }

  lemma Pad2RoundTrip(s: string)
    requires |s| == 2 && AllDigits(s)
    ensures PadStart(ValueOf(s), 2) == s
  {
    var n := ValueOf(s);
    ValueOf2(s);
    Pad2Digits(n);
  }

  lemma Pad4RoundTrip(s: string)
    requires |s| == 4 && AllDigits(s)
    ensures PadStart(ValueOf(s), 4) == s
  {
    var n := ValueOf(s);
    var h, l := s[..2], s[2..];
    ValueOf4(s);
    assert |h| == 2 && |l| == 2;
    ValueOf2(h);
    ValueOf2(l);
    assert n == ValueOf(h) * 100 + ValueOf(l);
    HundredsSplit(n, ValueOf(h), ValueOf(l));
    Pad4Halves(n);
    Pad2RoundTrip(h);
    Pad2RoundTrip(l);
    assert h + l == s;
  }

  // ---------------------------------------------------------------------------
  // round trips and order of the printed form

  /** A date with a four-digit year prints as `YYYY-MM-DD`. */
  lemma IsoDateShape(d: Date)
    requires ValidDate(d) && 0 <= d.year <= 9999
    ensures IsoDate(d) == PadStart(d.year, 4) + ("-" + (PadStart(d.month, 2) + ("-" + PadStart(d.day, 2))))
  {
    Pad4Digits(d.year);
    Pad2Digits(d.month);
    Pad2Digits(d.day);
  }

  /** Printing and then parsing gives the date back. */
  lemma ParsePrinted(d: Date)
    requires ValidDate(d) && 0 <= d.year <= 9999
    ensures ParseYmd(IsoDate(d)) == Some(d)
  {
    IsoDateShape(d);
    PadStartValue(d.year, 4);
    PadStartValue(d.month, 2);
    PadStartValue(d.day, 2);
    Pad2Digits(d.month);
    Pad2Digits(d.day);
    YmdFields(PadStart(d.year, 4), PadStart(d.month, 2), PadStart(d.day, 2));
  }

  /** Where the three fields of `YYYY-MM-DD` sit. */
  lemma YmdFields(y: string, m: string, dd: string)
    requires |y| == 4 && |m| == 2 && |dd| == 2
    ensures var s := y + ("-" + (m + ("-" + dd)));
      |s| == 10 && s[4] == '-' && s[7] == '-' && s[..4] == y && s[5..7] == m && s[8..] == dd
  {
  }

  /** `toISOString().slice(0, 7)`: the `YYYY-MM` of a date. */
  function MonthPrefix(d: Date): (s: string)
    requires ValidDate(d)
  {
    IsoDate(d)[..7]
  }

  /** The `YYYY-MM` of a date with a four-digit year, field by field. */
  lemma MonthPrefixFields(d: Date)
    requires ValidDate(d) && 0 <= d.year <= 9999
    ensures MonthPrefix(d) == PadStart(d.year, 4) + "-" + PadStart(d.month, 2)
    ensures |PadStart(d.year, 4)| == 4 && |PadStart(d.month, 2)| == 2
  {
    var y, m, dd := PadStart(d.year, 4), PadStart(d.month, 2), PadStart(d.day, 2);
    IsoDateShape(d);
    Pad4Digits(d.year);
    Pad2Digits(d.month);
    Pad2Digits(d.day);
    assert IsoDate(d) == (y + "-" + m) + ("-" + dd);
  }

  /** Two dates with four-digit years have the same `YYYY-MM` exactly when
      they fall in the same month of the same year. */
  lemma SameMonthPrefix(a: Date, b: Date)
    requires ValidDate(a) && 0 <= a.year <= 9999
    requires ValidDate(b) && 0 <= b.year <= 9999
    ensures MonthPrefix(a) == MonthPrefix(b) <==> a.year == b.year && a.month == b.month
  {
    MonthPrefixFields(a);
    MonthPrefixFields(b);
    if MonthPrefix(a) == MonthPrefix(b) {
      var s, t := MonthPrefix(a), MonthPrefix(b);
      assert PadStart(a.year, 4) == s[..4] == t[..4] == PadStart(b.year, 4);
      assert PadStart(a.month, 2) == s[5..] == t[5..] == PadStart(b.month, 2);
      PadStartValue(a.year, 4);
      PadStartValue(b.year, 4);
      PadStartValue(a.month, 2);
      PadStartValue(b.month, 2);
    }
  }

  /** A string that parses is the printed form of the date it denotes. */
  lemma PrintParsed(s: string)
    requires ParseYmd(s).Some?
    ensures IsoDate(ParseYmd(s).value) == s
  {
    var y, m, dd := s[..4], s[5..7], s[8..];
    assert |s| == 10 && AllDigits(y) && AllDigits(m) && AllDigits(dd);
    var d := ParseYmd(s).value;
    assert d == Date(ValueOf(y), ValueOf(m), ValueOf(dd));
    Pad4RoundTrip(y);
    Pad2RoundTrip(m);
    Pad2RoundTrip(dd);
    IsoDateShape(d);
    YmdJoin(s);
  }

  /** A `DDDD-DD-DD` string is its three fields joined by dashes. */
  lemma YmdJoin(s: string)
    requires |s| == 10 && s[4] == '-' && s[7] == '-'
    ensures s == s[..4] + ("-" + (s[5..7] + ("-" + s[8..])))
  {
    assert s[7..] == "-" + s[8..];
    assert s[5..] == s[5..7] + s[7..];
    assert s[4..] == "-" + s[5..];
    assert s == s[..4] + s[4..];
  }

  /** For dates with four-digit years, string order of the printed forms is
      date order. */
  lemma IsoDateOrder(a: Date, b: Date)
    requires ValidDate(a) && 0 <= a.year <= 9999
    requires ValidDate(b) && 0 <= b.year <= 9999
    ensures LexLt(IsoDate(a), IsoDate(b)) <==> DayNumber(a) < DayNumber(b)
  {
    DayNumberOrder(a, b);
    IsoDateShape(a);
    IsoDateShape(b);
    Pad4Order(a.year, b.year);
    Pad2Order(a.month, b.month);
    Pad2Order(a.day, b.day);
    var ya, yb := PadStart(a.year, 4), PadStart(b.year, 4);
    var ma, mb := PadStart(a.month, 2), PadStart(b.month, 2);
    var da, db := PadStart(a.day, 2), PadStart(b.day, 2);
    assert IsoDate(a) == ya + ("-" + (ma + ("-" + da)));
    assert IsoDate(b) == yb + ("-" + (mb + ("-" + db)));
    LexConcat(ya, yb, "-" + (ma + ("-" + da)), "-" + (mb + ("-" + db)));
    LexConcat("-", "-", ma + ("-" + da), mb + ("-" + db));
    LexConcat(ma, mb, "-" + da, "-" + db);
    LexConcat("-", "-", da, db);
  }

  /** The unpadded local form agrees with the ISO form from year 1000 on. */
  lemma LocalYmdIsIso(d: Date)
    requires ValidDate(d) && 1000 <= d.year <= 9999
    ensures LocalYmd(d) == IsoDate(d)
  {
    FourDigits(d.year);
    Pad4Digits(d.year);
    assert IntToString(d.year) == PadStart(d.year, 4);
    IsoDateShape(d);
  }

  // ---------------------------------------------------------------------------
  // facts used by the date arithmetic of the recurring schedule

  /** Day numbers between 1 January 0 and 31 December 9999 belong to dates
      with four-digit years. */
  lemma YearInRange(q: Date)
    requires ValidDate(q)
    requires DaysBeforeYear(0) <= DayNumber(q) < DaysBeforeYear(10000)
    ensures 0 <= q.year <= 9999
  {
    DayNumberBounds(q);
    if q.year < 0 {
      DaysBeforeYearMonotonic(q.year + 1, 0);
    } else if q.year > 9999 {
      DaysBeforeYearMonotonic(10000, q.year);
    }
  }

  /** A year outside 0..9999 prints with a sign, which the parser refuses. */
  lemma ExpandedYearDoesNotParse(q: Date)
    requires ValidDate(q) && !(0 <= q.year <= 9999)
    ensures ParseYmd(IsoDate(q)) == None
  {
    var s := IsoDate(q);
    assert s[0] == IsoYear(q.year)[0];
    assert !IsDigit(s[..4][0]);
  }

  /** A date already inside its month is left alone. */
  lemma NormalizeValid(d: Date)
    requires ValidDate(d)
    ensures NormalizeDay(d) == d
  {
  }

  /** Rolling a positive day over never lands in an earlier month. */
  lemma {:induction false} NormalizeForward(d: Date)
    requires 1 <= d.month <= 12 && d.day >= 1
    ensures NormalizeDay(d).year * 12 + NormalizeDay(d).month >= d.year * 12 + d.month
    decreases d.day
  {
    if d.day > DaysInMonth(d.year, d.month) {
      var next := if d.month == 12 then Date(d.year + 1, 1, 0) else Date(d.year, d.month + 1, 0);
      NormalizeForward(next.(day := d.day - DaysInMonth(d.year, d.month)));
    }
  }

  /** The first of the month after `(y, m)`. */
  function NextMonth(y: int, m: int): (r: Date)
    requires 1 <= m <= 12
    ensures ValidDate(r) && r.day == 1
  {
    if m == 12 then Date(y + 1, 1, 1) else Date(y, m + 1, 1)
  }

  /** A day at most one month past the end of its month rolls over into the
      next month only. */
  lemma NormalizeOver(d: Date)
    requires 1 <= d.month <= 12
    requires DaysInMonth(d.year, d.month) < d.day
    requires var n := NextMonth(d.year, d.month); d.day - DaysInMonth(d.year, d.month) <= DaysInMonth(n.year, n.month)
    ensures NormalizeDay(d) == NextMonth(d.year, d.month).(day := d.day - DaysInMonth(d.year, d.month))
  {
    var n := NextMonth(d.year, d.month).(day := d.day - DaysInMonth(d.year, d.month));
    NormalizeValid(n);
  }

  /** Day 0 of month index `m` is the last day of month `m` (counted from 1). */
  lemma LastDayOf(y: int, m: int)
    requires 1 <= m <= 12
    ensures MakeDate(y, m, 0) == Date(y, m, DaysInMonth(y, m))
  {
    var prev := Date(y, m, DaysInMonth(y, m));
    NormalizeValid(prev);
    if m == 12 {
      assert y + m / 12 == y + 1 && m % 12 + 1 == 1;
    } else {
      assert y + m / 12 == y && m % 12 + 1 == m + 1;
    }
  }

  /** `new Date(y, m - 1, d)` for a month counted from 1: day `d` of that
      month, rolled over. */
  lemma MakeDateInMonth(y: int, m: int, d: int)
    requires 1 <= m <= 12
    ensures MakeDate(y, m - 1, d) == NormalizeDay(Date(y, m, d))
  {
    assert (m - 1) / 12 == 0 && (m - 1) % 12 + 1 == m;
  }

  /** Month index `m` for a month `m` counted from 1 is the month after it. */
  lemma MakeDateNextMonth(y: int, m: int, d: int)
    requires 1 <= m <= 12
    ensures MakeDate(y, m, d) == NormalizeDay(NextMonth(y, m).(day := d))
  {
    if m == 12 {
      assert m / 12 == 1 && m % 12 + 1 == 1;
    } else {
      assert m / 12 == 0 && m % 12 + 1 == m + 1;
    }
  }

  /** A day inside month `(y, m)` lies after every date of an earlier month. */
  lemma LaterMonthLaterDay(a: Date, y: int, m: int, k: int)
    requires ValidDate(a) && 1 <= m <= 12 && k >= 1
    requires a.year * 12 + a.month < y * 12 + m
    ensures DayNumber(a) < DayNumber(Date(y, m, k))
  {
    DayNumberOrder(a, Date(y, m, 1));
  }
}
