/** The string operations the source borrows from JavaScript: `trim`,
    `startsWith`, `includes`, `split` on a character class, `join`,
    `toLowerCase`, and decimal rendering of integers. */
module Text {

  /** The characters JavaScript's `trim` strips and the regular-expression
      class `\s` matches: WhiteSpace and LineTerminator of ECMAScript. */
  predicate IsWhiteSpace(c: char)
  {
    || c == '\t' || c == '\n' || c == '\U{000B}' || c == '\U{000C}' || c == '\r'
    || c == ' ' || c == '\U{00A0}' || c == '\U{1680}'
    || ('\U{2000}' <= c <= '\U{200A}')
    || c == '\U{2028}' || c == '\U{2029}' || c == '\U{202F}' || c == '\U{205F}'
    || c == '\U{3000}' || c == '\U{FEFF}'
  }

  predicate AllWhiteSpace(s: string)
  {
    forall i :: 0 <= i < |s| ==> IsWhiteSpace(s[i])
  }

  function TrimStart(s: string): (r: string)
    ensures |r| <= |s|
    ensures AllWhiteSpace(s[..|s| - |r|])
    ensures r != [] ==> !IsWhiteSpace(r[0])
  {
    if s != [] && IsWhiteSpace(s[0]) then TrimStart(s[1..]) else s
  }

  /** What `TrimStart` keeps is the end of its argument. */
  lemma {:induction false} TrimStartSuffix(s: string)
    ensures TrimStart(s) == s[|s| - |TrimStart(s)|..]
  {
    if s != [] && IsWhiteSpace(s[0]) {
      TrimStartSuffix(s[1..]);
    }
  }

  function TrimEnd(s: string): (r: string)
    ensures |r| <= |s|
    ensures r == s[..|r|]
    ensures AllWhiteSpace(s[|r|..])
    ensures r != [] ==> !IsWhiteSpace(r[|r| - 1])
  {
    if s != [] && IsWhiteSpace(s[|s| - 1]) then TrimEnd(s[..|s| - 1]) else s
  }

  /** `s.trim()` */
  function Trim(s: string): string
  {
    TrimEnd(TrimStart(s))
  }

  /** A string trims to nothing exactly when all its characters are white space. */
  lemma TrimEmptyIffBlank(s: string)
    ensures Trim(s) == [] <==> AllWhiteSpace(s)
  {
    var t := TrimStart(s);
    if Trim(s) == [] {
      assert t == [];
      assert s[..|s|] == s;
    }
    BlankTrimsToEmpty(s);
  }

  lemma {:induction false} BlankTrimsToEmpty(s: string)
    ensures AllWhiteSpace(s) ==> TrimStart(s) == []
  {
    if s != [] && AllWhiteSpace(s) {
      assert IsWhiteSpace(s[0]);
      assert AllWhiteSpace(s[1..]) by {
        forall i | 0 <= i < |s[1..]| ensures IsWhiteSpace(s[1..][i]) {
          assert s[1..][i] == s[i + 1];
        }
      }
      BlankTrimsToEmpty(s[1..]);
    }
  }

  /** Trimming leaves no white space at either end of the result. */
  lemma TrimEnds(s: string)
    ensures var r := Trim(s); r != [] ==> !IsWhiteSpace(r[0]) && !IsWhiteSpace(r[|r| - 1])
  {
    var t := TrimStart(s);
    var r := TrimEnd(t);
    if r != [] {
      assert r[0] == t[0];
    }
  }

  /** White space in front of an already-trimmed, non-empty string is dropped by `trim`. */
  lemma {:induction false} TrimDropsLeadingSpace(w: string, n: string)
    requires AllWhiteSpace(w)
    requires n != [] && Trim(n) == n
    ensures Trim(w + n) == n
  {
    TrimmedStartsWithNonSpace(n);
    TrimStartSkips(w, n);
    assert TrimStart(n) == n;
  }

  lemma TrimmedStartsWithNonSpace(n: string)
    requires n != [] && Trim(n) == n
    ensures !IsWhiteSpace(n[0])
  {
    TrimEnds(n);
  }

  lemma {:induction false} TrimStartSkips(w: string, n: string)
    requires AllWhiteSpace(w)
    ensures TrimStart(w + n) == TrimStart(n)
  {
    if w != [] {
      var s := w + n;
      assert s[0] == w[0] && IsWhiteSpace(w[0]);
      assert s[1..] == w[1..] + n;
      assert AllWhiteSpace(w[1..]) by {
        forall i | 0 <= i < |w[1..]| ensures IsWhiteSpace(w[1..][i]) {
          assert w[1..][i] == w[i + 1];
        }
      }
      TrimStartSkips(w[1..], n);
    } else {
      assert w + n == n;
    }
  }

  // ---------------------------------------------------------------------------

  /** `s.startsWith(prefix)` */
  predicate StartsWith(s: string, prefix: string)
  {
    |prefix| <= |s| && s[..|prefix|] == prefix
  }

  /** `s.includes(sub)` */
  predicate Contains(s: string, sub: string)
  {
    exists i :: 0 <= i <= |s| - |sub| && OccursAt(s, sub, i)
  }

  /** `sub` occurs in `s` starting at index `i`. */
  predicate OccursAt(s: string, sub: string, i: int)
  {
    0 <= i <= |s| - |sub| && s[i..i + |sub|] == sub
  }

  lemma ContainsSelf(s: string)
    ensures Contains(s, s) && Contains(s, "")
  {
    assert s[0..|s|] == s;
    assert OccursAt(s, s, 0);
    assert OccursAt(s, "", 0);
  }

  /** `toLowerCase`, for the ASCII letters (the other scripts the
      application uses, such as Persian, have no case). */
  function LowerChar(c: char): char
  {
    if 'A' <= c <= 'Z' then (c as int + 32) as char else c
  }

  function ToLower(s: string): (r: string)
    ensures |r| == |s|
    ensures forall i :: 0 <= i < |s| ==> r[i] == LowerChar(s[i])
  {
    if s == [] then [] else [LowerChar(s[0])] + ToLower(s[1..])
  }

  /** Case-insensitive `includes`, as the search boxes use it. */
  predicate ContainsIgnoringCase(s: string, query: string)
  {
    Contains(ToLower(s), ToLower(query))
  }

  // ---------------------------------------------------------------------------
  // split and join

  predicate FreeOf(s: string, seps: set<char>)
  {
    forall i :: 0 <= i < |s| ==> s[i] !in seps
  }

  /** `s.split(/[seps]/)`: the pieces between separators, empty pieces
      included; the empty string splits into one empty piece. */
  function Split(s: string, seps: set<char>): (r: seq<string>)
    ensures |r| >= 1
    ensures forall k :: 0 <= k < |r| ==> FreeOf(r[k], seps)
  {
    if s == [] then [""]
    else if s[0] in seps then [""] + Split(s[1..], seps)
    else
      var rest := Split(s[1..], seps);
      [[s[0]] + rest[0]] + rest[1..]
  }

  /** `parts.join(sep)` */
  function Join(parts: seq<string>, sep: string): string
  {
    if parts == [] then ""
    else if |parts| == 1 then parts[0]
    else parts[0] + sep + Join(parts[1..], sep)
  }

  /** A piece without separators followed by a separator splits off as one piece. */
  lemma {:induction false} SplitAfterPiece(a: string, c: char, x: string, seps: set<char>)
    requires FreeOf(a, seps) && c in seps
    ensures Split(a + [c] + x, seps) == [a] + Split(x, seps)
  {
    if a == [] {
      assert a + [c] + x == [c] + x;
      assert ([c] + x)[1..] == x;
    } else {
      var s := a + [c] + x;
      assert s[0] == a[0];
      assert s[1..] == a[1..] + [c] + x;
      SplitAfterPiece(a[1..], c, x, seps);
      assert [a[0]] + a[1..] == a;
    }
  }

  /** A string without separators is a single piece. */
  lemma {:induction false} SplitFree(a: string, seps: set<char>)
    requires FreeOf(a, seps)
    ensures Split(a, seps) == [a]
  {
    if a != [] {
      SplitFree(a[1..], seps);
      assert [a[0]] + a[1..] == a;
    }
  }

  // ---------------------------------------------------------------------------
  // decimal digits

  predicate IsDigit(c: char)
  {
    '0' <= c <= '9'
  }

  function DigitChar(d: int): (c: char)
    requires 0 <= d <= 9
    ensures IsDigit(c)
  {
    ('0' as int + d) as char
  }

  function DigitValue(c: char): (d: int)
    requires IsDigit(c)
    ensures 0 <= d <= 9
  {
    c as int - '0' as int
  }

  lemma DigitRoundTrip(d: int)
    requires 0 <= d <= 9
    ensures DigitValue(DigitChar(d)) == d
  {
  }

  predicate AllDigits(s: string)
  {
    forall i :: 0 <= i < |s| ==> IsDigit(s[i])
  }

  /** The number a string of decimal digits denotes. */
  function ValueOf(s: string): (n: nat)
    requires AllDigits(s)
  {
    if s == [] then 0 else ValueOf(s[..|s| - 1]) * 10 + DigitValue(s[|s| - 1])
  }

  lemma ValueOfSnoc(s: string, c: char)
    requires AllDigits(s) && IsDigit(c)
    ensures AllDigits(s + [c]) && ValueOf(s + [c]) == ValueOf(s) * 10 + DigitValue(c)
  {
    assert (s + [c])[..|s|] == s;
  }

  /** `String(n)` for a natural number: no leading zeros. */
  function NatToString(n: nat): (s: string)
    ensures AllDigits(s) && s != []
    ensures ValueOf(s) == n
    ensures |s| > 1 ==> s[0] != '0'
  {
    if n < 10 then [DigitChar(n)]
    else
      var init := NatToString(n / 10);
      var s := init + [DigitChar(n % 10)];
      assert s[..|s| - 1] == init;
      s
  }

  /** `String(n)` for an integer. */
  function IntToString(n: int): string
  {
    if n < 0 then "-" + NatToString(-n) else NatToString(n)
  }

  /** `String(n).padStart(width, "0")` for a natural number. */
  function PadStart(n: nat, width: nat): (s: string)
    ensures |s| >= width
  {
    var digits := NatToString(n);
    if |digits| >= width then digits else Zeros(width - |digits|) + digits
  }

  /** Padding with zeros does not change the value. */
  lemma PadStartValue(n: nat, width: nat)
    ensures AllDigits(PadStart(n, width)) && ValueOf(PadStart(n, width)) == n
  {
    var digits := NatToString(n);
    if |digits| < width {
      ValueOfZerosPrefix(width - |digits|, digits);
    }
  }

  lemma {:induction false} ValueOfZerosPrefix(k: nat, d: string)
    requires AllDigits(d)
    ensures AllDigits(Zeros(k) + d) && ValueOf(Zeros(k) + d) == ValueOf(d)
  {
    var s := Zeros(k) + d;
    ZerosAreZero(k);
    if d != [] {
      assert s[..|s| - 1] == Zeros(k) + d[..|d| - 1];
      ValueOfZerosPrefix(k, d[..|d| - 1]);
    } else {
      assert s == Zeros(k);
    }
  }

  function Zeros(k: nat): (s: string)
    ensures |s| == k
  {
    if k == 0 then "" else Zeros(k - 1) + "0"
  }

  lemma {:induction false} ZerosAreZero(k: nat)
    ensures AllDigits(Zeros(k)) && ValueOf(Zeros(k)) == 0
    ensures forall i :: 0 <= i < k ==> Zeros(k)[i] == '0'
  {
    if k > 0 {
      ZerosAreZero(k - 1);
      assert Zeros(k)[..k - 1] == Zeros(k - 1);
    }
  }

  // ---------------------------------------------------------------------------
  // relational comparison of strings (`a < b`, `a <= b`): code unit by code unit

  predicate LexLt(a: string, b: string)
  {
    if a == [] then b != []
    else if b == [] then false
    else if a[0] != b[0] then a[0] < b[0]
    else LexLt(a[1..], b[1..])
  }

  predicate LexLe(a: string, b: string)
  {
    a == b || LexLt(a, b)
  }

  lemma {:induction false} LexLtIrreflexive(a: string)
    ensures !LexLt(a, a)
  {
    if a != [] {
      LexLtIrreflexive(a[1..]);
    }
  }

  lemma {:induction false} LexLtTransitive(a: string, b: string, c: string)
    requires LexLt(a, b) && LexLt(b, c)
    ensures LexLt(a, c)
  {
    if a != [] && b != [] && c != [] && a[0] == b[0] && b[0] == c[0] {
      LexLtTransitive(a[1..], b[1..], c[1..]);
    }
  }

  lemma LexLeTransitive(a: string, b: string, c: string)
    requires LexLe(a, b) && LexLe(b, c)
    ensures LexLe(a, c)
  {
    if LexLt(a, b) && LexLt(b, c) {
      LexLtTransitive(a, b, c);
    }
  }

  /** Cutting two ordered strings to the same length keeps them in order. */
  lemma {:induction false} LexLePrefix(a: string, b: string, n: nat)
    requires LexLe(a, b)
    ensures LexLe(Prefix(a, n), Prefix(b, n))
  {
    if n > 0 && a != [] && b != [] {
      assert Prefix(a, n)[0] == a[0] && Prefix(b, n)[0] == b[0];
      if a[0] == b[0] {
        LexLePrefix(a[1..], b[1..], n - 1);
        assert Prefix(a, n)[1..] == Prefix(a[1..], n - 1);
        assert Prefix(b, n)[1..] == Prefix(b[1..], n - 1);
      }
    }
  }

  /** Exactly one of `a < b`, `a == b`, `b < a` holds. */
  lemma {:induction false} LexTrichotomy(a: string, b: string)
    ensures LexLt(a, b) || a == b || LexLt(b, a)
    ensures !(LexLt(a, b) && LexLt(b, a))
  {
    if a != [] && b != [] && a[0] == b[0] {
      LexTrichotomy(a[1..], b[1..]);
      if a[1..] == b[1..] {
        assert a == [a[0]] + a[1..] && b == [b[0]] + b[1..];
      }
    }
  }

  /** Comparing two strings that start with prefixes of the same length
      compares the prefixes first. */
  lemma {:induction false} LexConcat(a: string, b: string, x: string, y: string)
    requires |a| == |b|
    ensures LexLt(a + x, b + y) == if a == b then LexLt(x, y) else LexLt(a, b)
  {
    if a == [] {
      assert a + x == x && b + y == y;
    } else {
      assert (a + x)[1..] == a[1..] + x && (b + y)[1..] == b[1..] + y;
      LexConcat(a[1..], b[1..], x, y);
      if a[0] == b[0] && a[1..] == b[1..] {
        assert a == [a[0]] + a[1..] && b == [b[0]] + b[1..];
      }
    }
  }

  /** `s.slice(0, n)` */
  function Prefix<T>(s: seq<T>, n: nat): (r: seq<T>)
    ensures |r| == if |s| <= n then |s| else n
    ensures r == s[..|r|]
  {
    if |s| <= n then s else s[..n]
  }
}
