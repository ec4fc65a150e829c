/** Amount entry: `formatAmount`, which the amount fields apply on every
    keystroke (the same definition appears in the search sheet, the category
    form and the transaction form), and `parseInt`, which reads the amount
    back once its commas are removed. */
module Amounts {
  import opened Common
  import opened Text

  predicate NotComma(c: char)
  {
    c != ','
  }

  /** A character `formatAmount` may produce. */
  predicate AmountChar(c: char)
  {
    IsDigit(c) || c == ','
  }

  /** `s.replace(/,/g, '')` */
  function StripCommas(s: string): (r: string)
    ensures forall c :: c in r ==> c != ','
  {
    Filter(s, NotComma)
  }

  /** Digit strings are commas-free. */
  lemma StripCommasDigits(d: string)
    requires AllDigits(d)
    ensures StripCommas(d) == d
  {
    FilterAll(d, NotComma);
  }

  /** `num.replace(/\B(?=(\d{3})+(?!\d))/g, ',')` on a string of digits: a
      comma between two digits wherever a positive multiple of three digits
      follows. */
  function GroupThousands(d: string): (r: string)
    requires AllDigits(d)
    decreases |d|
  {
    if |d| <= 3 then d
    else GroupThousands(d[..|d| - 3]) + "," + d[|d| - 3..]
  }

  /** The shape of a grouped amount: it starts with a digit, every comma is
      followed by exactly three digits and then a comma or the end, and no
      four digits are adjacent. */
  ghost predicate Grouped(r: string)
  {
    && (r != [] ==> IsDigit(r[0]))
    && (forall i :: 0 <= i < |r| ==> AmountChar(r[i]))
    && (forall i :: 0 <= i < |r| && r[i] == ',' ==>
          i + 3 < |r| && IsDigit(r[i + 1]) && IsDigit(r[i + 2]) && IsDigit(r[i + 3])
          && (i + 4 == |r| || r[i + 4] == ','))
    && (forall i :: 0 <= i && i + 3 < |r| ==> CommaWithin(r, i))
  }

  /** One of the four characters from `i` on is a comma. */
  predicate CommaWithin(r: string, i: int)
    requires 0 <= i && i + 3 < |r|
  {
    r[i] == ',' || r[i + 1] == ',' || r[i + 2] == ',' || r[i + 3] == ','
  }

  /** Grouping has that shape. */
  lemma {:induction false} GroupThousandsGrouped(d: string)
    requires AllDigits(d)
    ensures Grouped(GroupThousands(d))
    decreases |d|
  {
    if |d| > 3 {
      GroupThousandsGrouped(d[..|d| - 3]);
      GroupedSnoc(GroupThousands(d[..|d| - 3]), d[|d| - 3..]);
    }
  }

  /** Grouping only adds commas: removing them gives the digits back. */
  lemma {:induction false} GroupThousandsDigits(d: string)
    requires AllDigits(d)
    ensures StripCommas(GroupThousands(d)) == d
    decreases |d|
  {
    if |d| <= 3 {
      StripCommasDigits(d);
    } else {
      var p, t := d[..|d| - 3], d[|d| - 3..];
      GroupThousandsDigits(p);
      StripCommasJoin(GroupThousands(p), t);
      assert d == p + t;
    }
  }

  lemma StripCommasJoin(q: string, t: string)
    requires AllDigits(t)
    ensures StripCommas(q + "," + t) == StripCommas(q) + t
  {
    FilterConcat(q + ",", t, NotComma);
    StripCommasDigits(t);
    StripCommasComma(q);
  }

  lemma StripCommasComma(q: string)
    ensures StripCommas(q + ",") == StripCommas(q)
  {
    FilterConcat(q, ",", NotComma);
    assert Filter(",", NotComma) == [];
  }

  /** A grouped amount followed by a comma and three digits is grouped. */
  lemma GroupedSnoc(q: string, t: string)
    requires Grouped(q) && q != [] && |t| == 3 && AllDigits(t)
    ensures Grouped(q + "," + t)
  {
    var r := q + "," + t;
    var n := |q|;
    forall i | 0 <= i < |r| && r[i] == ','
      ensures i + 3 < |r| && IsDigit(r[i + 1]) && IsDigit(r[i + 2]) && IsDigit(r[i + 3])
      ensures i + 4 == |r| || r[i + 4] == ','
    {
      if i < n {
        assert q[i] == ',';
      }
    }
    forall i | 0 <= i && i + 3 < |r| ensures CommaWithin(r, i) {
      if i + 3 < n {
        assert CommaWithin(q, i);
      } else {
        assert r[n] == ',';
      }
    }
  }

  /** `formatAmount(value)`: every character that is not a digit dropped,
      and the digits grouped by three with commas. */
  function FormatAmount(value: string): (r: string)
  {
    var num := Filter(StripCommas(value), IsDigit);
    DigitsOnly(num);
    GroupThousands(num)
  }

  lemma DigitsOnly(s: string)
    requires forall c :: c in s ==> IsDigit(c)
    ensures AllDigits(s)
  {
    assert forall i :: 0 <= i < |s| ==> s[i] in s;
  }

  /** The digits of the typed text, in order. */
  function DigitsOf(value: string): (d: string)
    ensures AllDigits(d)
  {
    var d := Filter(StripCommas(value), IsDigit);
    DigitsOnly(d);
    d
  }

  /** The formatted text holds only digits and commas, removing the commas
      gives the typed digits in order, and formatting it again changes
      nothing. */
  lemma FormatAmountSpec(value: string)
    ensures var r := FormatAmount(value);
      && (forall i :: 0 <= i < |r| ==> AmountChar(r[i]))
      && StripCommas(r) == DigitsOf(value)
      && FormatAmount(r) == r
  {
    var d := DigitsOf(value);
    var r := FormatAmount(value);
    GroupThousandsGrouped(d);
    GroupThousandsDigits(d);
    FilterAll(d, IsDigit);
  }

  /** The longest run of digits at the start of `s`. */
  function DigitPrefix(s: string): (r: string)
    ensures AllDigits(r) && |r| <= |s| && r == s[..|r|]
    ensures |r| < |s| ==> !IsDigit(s[|r|])
  {
    if s != [] && IsDigit(s[0]) then [s[0]] + DigitPrefix(s[1..]) else []
  }

  /** `parseInt(s)` in base ten: leading white space skipped, an optional
      sign, then the longest run of digits; `None` is `NaN`, when there is no
      digit there. */
  function ParseInt(s: string): (r: Option<int>)
    ensures r.None? <==> DigitPrefix(SignlessBody(TrimStart(s))) == []
  {
    var t := TrimStart(s);
    var body := SignlessBody(t);
    var digits := DigitPrefix(body);
    if digits == [] then None
    else if t != [] && t[0] == '-' then Some(-(ValueOf(digits) as int))
    else Some(ValueOf(digits))
  }

  /** The text after an optional leading sign. */
  function SignlessBody(t: string): (r: string)
    ensures r == t || (t != [] && (t[0] == '-' || t[0] == '+') && r == t[1..])
  {
    if t != [] && (t[0] == '-' || t[0] == '+') then t[1..] else t
  }

  /** A string of digits reads as the number it denotes. */
  lemma ParseDigits(d: string)
    requires AllDigits(d) && d != []
    ensures ParseInt(d) == Some(ValueOf(d))
  {
    assert !IsWhiteSpace(d[0]);
    assert TrimStart(d) == d;
    assert SignlessBody(d) == d;
    DigitPrefixAll(d);
  }

  lemma {:induction false} DigitPrefixAll(d: string)
    requires AllDigits(d)
    ensures DigitPrefix(d) == d
  {
    if d != [] {
      DigitPrefixAll(d[1..]);
    }
  }

  /** What an amount field holds reads back, once its commas are removed, as
      the number its digits denote; with no digit it reads as `NaN`. */
  lemma ParseFormatted(value: string)
    ensures ParseInt(StripCommas(FormatAmount(value))) ==
      if DigitsOf(value) == [] then None else Some(ValueOf(DigitsOf(value)))
  {
    FormatAmountSpec(value);
    if DigitsOf(value) != [] {
      ParseDigits(DigitsOf(value));
    }
  }

  /** `String(n)` reads back as `n`, commas removed or not. */
  lemma ParseIntToString(n: int)
    ensures ParseInt(StripCommas(IntToString(n))) == Some(n)
  {
    var d := NatToString(if n < 0 then -n else n);
    if n < 0 {
      ParseNegative(d);
    } else {
      StripCommasDigits(d);
      ParseDigits(d);
    }
  }

  /** A minus sign before digits reads as the negated number. */
  lemma ParseNegative(d: string)
    requires AllDigits(d) && d != []
    ensures ParseInt(StripCommas("-" + d)) == Some(-(ValueOf(d) as int))
  {
    NoCommaInNegative(d);
    ParseSigned(d);
  }

  lemma ParseSigned(d: string)
    requires AllDigits(d) && d != []
    ensures ParseInt("-" + d) == Some(-(ValueOf(d) as int))
  {
    var s := "-" + d;
    NoLeadingSpace(s);
    MinusBody(d);
    DigitPrefixAll(d);
    var t := TrimStart(s);
    assert t == s && t[0] == '-';
    assert DigitPrefix(SignlessBody(t)) == d;
  }

  lemma MinusBody(d: string)
    ensures SignlessBody("-" + d) == d
  {
    assert ("-" + d)[1..] == d;
  }

  lemma NoLeadingSpace(s: string)
    requires s != [] && !IsWhiteSpace(s[0])
    ensures TrimStart(s) == s
  {
  }

  lemma NoCommaInNegative(d: string)
    requires AllDigits(d)
    ensures StripCommas("-" + d) == "-" + d
  {
    var s := "-" + d;
    forall i | 0 <= i < |s| ensures NotComma(s[i]) {
      if i > 0 {
        assert s[i] == d[i - 1];
      }
    }
    FilterAll(s, NotComma);
  }
}
