/** Generic building blocks shared by the whole model: an optional value,
    the `filter`, `reduce`, `sort` and `Set` idioms of the source written as
    functions, and the per-key running totals that the reports accumulate in a
    plain object (`acc[k] = (acc[k] || 0) + v`). */
module Common {

  datatype Option<T> = None | Some(value: T)

  /** `s || null` and `s || undefined` on optional text: the empty text
      counts as missing. */
  function OrMissing(s: Option<string>): (r: Option<string>)
    ensures r.Some? <==> s.Some? && s.value != ""
    ensures r.Some? ==> r == s
  {
    if s.Some? && s.value != "" then s else None
  }

  function GetOr<T>(o: Option<T>, default: T): T
  {
    match o
    case Some(v) => v
    case None => default
  }

  // ---------------------------------------------------------------------------
  // filter

  /** `s.filter(p)`: the elements satisfying `p`, in their original order. */
  function Filter<T>(s: seq<T>, p: T -> bool): (r: seq<T>)
    ensures |r| <= |s|
    ensures forall x :: x in r ==> x in s && p(x)
    ensures forall x :: x in s && p(x) ==> x in r
  {
    if s == [] then [] else (if p(s[0]) then [s[0]] else []) + Filter(s[1..], p)
  }

  lemma {:induction false} FilterConcat<T>(a: seq<T>, b: seq<T>, p: T -> bool)
    ensures Filter(a + b, p) == Filter(a, p) + Filter(b, p)
  {
    if a == [] {
      assert a + b == b;
    } else {
      assert (a + b)[1..] == a[1..] + b;
      FilterConcat(a[1..], b, p);
    }
  }

  /** Filtering keeps every element that passes, with its multiplicity. */
  lemma {:induction false} FilterMultiset<T>(s: seq<T>, p: T -> bool)
    ensures forall x :: multiset(Filter(s, p))[x] == if p(x) then multiset(s)[x] else 0
  {
    if s != [] {
      FilterMultiset(s[1..], p);
      assert s == [s[0]] + s[1..];
    }
  }

  /** A filter whose predicate holds everywhere is the identity. */
  lemma {:induction false} FilterAll<T>(s: seq<T>, p: T -> bool)
    requires forall i :: 0 <= i < |s| ==> p(s[i])
    ensures Filter(s, p) == s
  {
    if s != [] {
      FilterAll(s[1..], p);
    }
  }

  /** A filter whose predicate holds nowhere is empty. */
  lemma {:induction false} FilterNone<T>(s: seq<T>, p: T -> bool)
    requires forall i :: 0 <= i < |s| ==> !p(s[i])
    ensures Filter(s, p) == []
  {
    if s != [] {
      FilterNone(s[1..], p);
    }
  }

  // ---------------------------------------------------------------------------
  // map(x => p(x) ? f(x) : x)

  /** `s.map(x => p(x) ? f(x) : x)`: the elements satisfying `p` replaced by
      their image, the others kept, each in its place. */
  function MapWhere<T>(s: seq<T>, p: T -> bool, f: T -> T): (r: seq<T>)
    ensures |r| == |s|
    ensures forall i :: 0 <= i < |s| ==> r[i] == if p(s[i]) then f(s[i]) else s[i]
  {
    seq(|s|, i requires 0 <= i < |s| => if p(s[i]) then f(s[i]) else s[i])
  }

  /** Nothing satisfying `p`, nothing replaced. */
  lemma MapWhereNone<T>(s: seq<T>, p: T -> bool, f: T -> T)
    requires forall i :: 0 <= i < |s| ==> !p(s[i])
    ensures MapWhere(s, p, f) == s
  {
  }

  // ---------------------------------------------------------------------------
  // map

  /** `s.map(f)` */
  function Map<T, U>(s: seq<T>, f: T -> U): (r: seq<U>)
    ensures |r| == |s|
    ensures forall i :: 0 <= i < |s| ==> r[i] == f(s[i])
  {
    seq(|s|, i requires 0 <= i < |s| => f(s[i]))
  }

  /** `Math.round(x)` on an exact number: the nearest integer, a half
      rounded up. */
  function Round(x: real): (r: int)
    ensures r as real - 0.5 <= x < r as real + 0.5
  {
    (x + 0.5).Floor
  }

  /** For a positive divisor, `x / b >= c` exactly when `x >= c * b`. */
  lemma AtLeastShare(x: real, b: real, c: real)
    requires b > 0.0
    ensures x / b >= c <==> x >= c * b
  {
    var q := x / b;
    assert q * b == x;
    if q >= c {
      assert (q - c) * b >= 0.0;
    } else {
      assert (c - q) * b > 0.0;
    }
  }

  // ---------------------------------------------------------------------------
  // reduce((a, x) => a + f(x), 0)

  function SumOf<T>(s: seq<T>, f: T -> int): int
  {
    if s == [] then 0 else f(s[0]) + SumOf(s[1..], f)
  }

  lemma {:induction false} SumOfConcat<T>(a: seq<T>, b: seq<T>, f: T -> int)
    ensures SumOf(a + b, f) == SumOf(a, f) + SumOf(b, f)
  {
    if a == [] {
      assert a + b == b;
    } else {
      assert (a + b)[1..] == a[1..] + b;
      SumOfConcat(a[1..], b, f);
    }
  }

  /** `f` where `p` holds, zero elsewhere. */
  function Masked<T>(p: T -> bool, f: T -> int): T -> int
  {
    (x: T) => if p(x) then f(x) else 0
  }

  /** Summing over the elements that pass a filter is summing over all of
      them with the others counted as zero. */
  lemma {:induction false} SumOfFilter<T>(s: seq<T>, p: T -> bool, f: T -> int)
    ensures SumOf(Filter(s, p), f) == SumOf(s, Masked(p, f))
  {
    if s != [] {
      SumOfFilter(s[1..], p, f);
      SumOfConcat(if p(s[0]) then [s[0]] else [], Filter(s[1..], p), f);
      if p(s[0]) {
        assert ([s[0]] + Filter(s[1..], p))[1..] == Filter(s[1..], p);
      }
    }
  }

  /** Sums of terms that agree on every element agree. */
  lemma {:induction false} SumOfPointwise<T>(s: seq<T>, f: T -> int, g: T -> int)
    requires forall i :: 0 <= i < |s| ==> f(s[i]) == g(s[i])
    ensures SumOf(s, f) == SumOf(s, g)
  {
    if s != [] {
      SumOfPointwise(s[1..], f, g);
    }
  }

  /** Adding one to the term of a single element adds one to the sum, when
      that element occurs once. */
  lemma {:induction false} SumOfBump<T>(s: seq<T>, f: T -> int, g: T -> int, x: T)
    requires NoDuplicates(s)
    requires forall i :: 0 <= i < |s| ==> g(s[i]) == f(s[i]) + (if s[i] == x then 1 else 0)
    ensures SumOf(s, g) == SumOf(s, f) + (if x in s then 1 else 0)
  {
    if s != [] {
      SumOfBump(s[1..], f, g, x);
      assert s[0] == x ==> x !in s[1..];
      assert x in s <==> s[0] == x || x in s[1..];
    }
  }

  /** A sum of smaller terms is smaller. */
  lemma {:induction false} SumOfMonotonic<T>(s: seq<T>, f: T -> int, g: T -> int)
    requires forall i :: 0 <= i < |s| ==> f(s[i]) <= g(s[i])
    ensures SumOf(s, f) <= SumOf(s, g)
  {
    if s != [] {
      SumOfMonotonic(s[1..], f, g);
    }
  }

  lemma {:induction false} SumOfNonNegative<T>(s: seq<T>, f: T -> int)
    requires forall i :: 0 <= i < |s| ==> f(s[i]) >= 0
    ensures SumOf(s, f) >= 0
  {
    if s != [] {
      SumOfNonNegative(s[1..], f);
    }
  }

  // ---------------------------------------------------------------------------
  // Array.prototype.sort with a numeric comparator (stable since ES2019)

  ghost predicate SortedBy<T>(s: seq<T>, key: T -> real)
  {
    forall i, j :: 0 <= i < j < |s| ==> key(s[i]) <= key(s[j])
  }

  /** Inserts `x` before the first element whose key is not smaller, so that
      elements of equal key keep their relative order. */
  function Insert<T>(x: T, s: seq<T>, key: T -> real): (r: seq<T>)
    requires SortedBy(s, key)
    ensures |r| == |s| + 1
    ensures multiset(r) == multiset(s) + multiset{x}
    ensures r[0] == x || (s != [] && r[0] == s[0])
    ensures SortedBy(r, key)
  {
    if s == [] || key(x) <= key(s[0]) then
      SortedCons(x, s, key);
      [x] + s
    else
      SortedTail(s, key);
      var rest := Insert(x, s[1..], key);
      InsertBehindHead(x, s, rest, key);
      [s[0]] + rest
  }

  lemma SortedTail<T>(s: seq<T>, key: T -> real)
    requires SortedBy(s, key) && s != []
    ensures SortedBy(s[1..], key)
    ensures |s| > 1 ==> key(s[0]) <= key(s[1])
  {
    var t := s[1..];
    forall i, j | 0 <= i < j < |t| ensures key(t[i]) <= key(t[j]) {
      assert t[i] == s[i + 1] && t[j] == s[j + 1];
    }
  }

  /** The head stays in front of the tail with `x` inserted in it. */
  lemma InsertBehindHead<T>(x: T, s: seq<T>, rest: seq<T>, key: T -> real)
    requires SortedBy(s, key) && s != [] && key(s[0]) < key(x)
    requires SortedBy(rest, key) && |rest| == |s[1..]| + 1
    requires rest[0] == x || (s[1..] != [] && rest[0] == s[1..][0])
    requires multiset(rest) == multiset(s[1..]) + multiset{x}
    ensures SortedBy([s[0]] + rest, key)
    ensures multiset([s[0]] + rest) == multiset(s) + multiset{x}
  {
    SortedTail(s, key);
    SortedCons(s[0], rest, key);
    assert s == [s[0]] + s[1..];
    assert multiset([s[0]] + rest) == multiset{s[0]} + multiset(rest);
  }

  lemma SortedCons<T>(h: T, s: seq<T>, key: T -> real)
    requires SortedBy(s, key)
    requires s != [] ==> key(h) <= key(s[0])
    ensures SortedBy([h] + s, key)
  {
    var r := [h] + s;
    forall i, j | 0 <= i < j < |r| ensures key(r[i]) <= key(r[j]) {
      if i == 0 && j > 1 {
        assert key(s[0]) <= key(s[j - 1]);
      }
    }
  }

  /** `[...s].sort((a, b) => key(a) - key(b))`: ascending by key, stable. */
  function SortBy<T>(s: seq<T>, key: T -> real): (r: seq<T>)
    ensures |r| == |s|
    ensures multiset(r) == multiset(s)
    ensures SortedBy(r, key)
  {
    if s == [] then []
    else
      assert s == [s[0]] + s[1..];
      Insert(s[0], SortBy(s[1..], key), key)
  }

  /** The first element of an ascending sort has the least key. */
  lemma SortByFirstIsLeast<T>(s: seq<T>, key: T -> real)
    requires s != []
    ensures SortBy(s, key)[0] in s
    ensures forall x :: x in s ==> key(SortBy(s, key)[0]) <= key(x)
  {
    var r := SortBy(s, key);
    assert r[0] in multiset(r);
    forall x | x in s ensures key(r[0]) <= key(x) {
      assert x in multiset(s);
      assert x in r;
      var k :| 0 <= k < |r| && r[k] == x;
    }
  }

  /** Sorting a list that is already in order changes nothing. */
  lemma {:induction false} SortBySorted<T>(s: seq<T>, key: T -> real)
    requires SortedBy(s, key)
    ensures SortBy(s, key) == s
  {
    if s != [] {
      assert SortedBy(s[1..], key);
      SortBySorted(s[1..], key);
      assert s == [s[0]] + s[1..];
    }
  }

  // ---------------------------------------------------------------------------
  // findIndex

  /** `s.findIndex(p)`: the first position whose element satisfies `p`, or -1. */
  function FindIndex<T>(s: seq<T>, p: T -> bool): (i: int)
    ensures -1 <= i < |s|
    ensures i == -1 <==> forall k :: 0 <= k < |s| ==> !p(s[k])
    ensures i >= 0 ==> p(s[i]) && forall k :: 0 <= k < i ==> !p(s[k])
  {
    if s == [] then -1
    else if p(s[0]) then 0
    else
      var j := FindIndex(s[1..], p);
      if j == -1 then -1 else j + 1
  }

  // ---------------------------------------------------------------------------
  // Array.from(new Set(s)): distinct values in first-occurrence order

  ghost predicate NoDuplicates<T>(s: seq<T>)
  {
    forall i, j :: 0 <= i < j < |s| ==> s[i] != s[j]
  }

  /** A list without repeats holds each value at most once. */
  lemma {:induction false} NoDuplicatesCountOne<T>(s: seq<T>, x: T)
    requires NoDuplicates(s)
    ensures multiset(s)[x] <= 1
  {
    if s != [] {
      assert s == [s[0]] + s[1..];
      assert NoDuplicates(s[1..]);
      NoDuplicatesCountOne(s[1..], x);
      if s[0] == x {
        assert x !in s[1..];
      }
    }
  }

  function Distinct<T(==,!new)>(s: seq<T>): (r: seq<T>)
    ensures NoDuplicates(r)
    ensures forall x :: x in r <==> x in s
    ensures |r| <= |s|
  {
    if s == [] then []
    else
      var d := Distinct(s[..|s| - 1]);
      var last := s[|s| - 1];
      assert s == s[..|s| - 1] + [last];
      if last in d then d else d + [last]
  }

  // ---------------------------------------------------------------------------
  // per-key totals accumulated in an object: `acc[k] = (acc[k] || 0) + v`

  /** `acc[k] || 0` */
  function Lookup<K(==)>(acc: seq<(K, int)>, k: K): int
  {
    if acc == [] then 0
    else if acc[0].0 == k then acc[0].1
    else Lookup(acc[1..], k)
  }

  function Keys<K, V>(acc: seq<(K, V)>): (r: seq<K>)
    ensures |r| == |acc|
    ensures forall i :: 0 <= i < |acc| ==> r[i] == acc[i].0
  {
    if acc == [] then [] else [acc[0].0] + Keys(acc[1..])
  }

  /** One `acc[k] = (acc[k] || 0) + v` step: an existing key is updated in
      place, a new key is appended (JavaScript objects list string keys in
      insertion order). */
  function AddTo<K(==,!new)>(acc: seq<(K, int)>, k: K, v: int): (r: seq<(K, int)>)
    requires NoDuplicates(Keys(acc))
    ensures NoDuplicates(Keys(r))
    ensures Keys(r) == if k in Keys(acc) then Keys(acc) else Keys(acc) + [k]
    ensures forall q :: Lookup(r, q) == Lookup(acc, q) + (if q == k then v else 0)
  {
    if acc == [] then
      [(k, v)]
    else if acc[0].0 == k then
      assert k !in Keys(acc[1..]) by {
        assert Keys(acc) == [k] + Keys(acc[1..]);
      }
      LookupAbsent(acc[1..], k);
      var r := [(k, acc[0].1 + v)] + acc[1..];
      assert r[1..] == acc[1..];
      assert forall q :: Lookup(r, q) == Lookup(acc, q) + (if q == k then v else 0);
      r
    else
      var rest := AddTo(acc[1..], k, v);
      assert Keys(acc) == [acc[0].0] + Keys(acc[1..]);
      assert acc[0].0 !in Keys(rest);
      NoDuplicatesCons(acc[0].0, Keys(rest));
      var r := [acc[0]] + rest;
      assert r[1..] == rest && Keys(r) == [acc[0].0] + Keys(rest);
      assert forall q :: Lookup(r, q) == if q == acc[0].0 then acc[0].1 else Lookup(rest, q);
      r
  }

  lemma NoDuplicatesCons<T>(x: T, s: seq<T>)
    requires NoDuplicates(s) && x !in s
    ensures NoDuplicates([x] + s)
  {
  }

  /** In an object without repeated keys, each entry is what its key looks up. */
  lemma {:induction false} LookupEntry<K>(acc: seq<(K, int)>, i: int)
    requires NoDuplicates(Keys(acc)) && 0 <= i < |acc|
    ensures Lookup(acc, acc[i].0) == acc[i].1
  {
    if i > 0 {
      assert Keys(acc)[0] != Keys(acc)[i];
      assert Keys(acc[1..]) == Keys(acc)[1..];
      LookupEntry(acc[1..], i - 1);
    }
  }

  lemma {:induction false} LookupAbsent<K>(acc: seq<(K, int)>, k: K)
    requires k !in Keys(acc)
    ensures Lookup(acc, k) == 0
  {
    if acc != [] {
      assert Keys(acc) == [acc[0].0] + Keys(acc[1..]);
      LookupAbsent(acc[1..], k);
    }
  }

  /** The sum of the values recorded under key `k`. */
  function SumFor<K(==)>(s: seq<(K, int)>, k: K): int
  {
    if s == [] then 0 else (if s[0].0 == k then s[0].1 else 0) + SumFor(s[1..], k)
  }

  lemma {:induction false} SumForSnoc<K>(s: seq<(K, int)>, x: (K, int), k: K)
    ensures SumFor(s + [x], k) == SumFor(s, k) + (if x.0 == k then x.1 else 0)
  {
    if s == [] {
      assert s + [x] == [x];
    } else {
      assert (s + [x])[1..] == s[1..] + [x];
      SumForSnoc(s[1..], x, k);
    }
  }

  /** The value of an object entry. */
  function EntryValue<K>(e: (K, int)): int
  {
    e.1
  }

  /** The object built by `forEach(([k, v]) => acc[k] = (acc[k] || 0) + v)`
      over the pairs `s`, left to right. */
  function Totals<K(==,!new)>(s: seq<(K, int)>): (r: seq<(K, int)>)
    ensures NoDuplicates(Keys(r))
    ensures Keys(r) == Distinct(Keys(s))
  {
    if s == [] then []
    else
      var init := s[..|s| - 1];
      var last := s[|s| - 1];
      assert Keys(s)[..|s| - 1] == Keys(init) && Keys(s)[|s| - 1] == last.0;
      AddTo(Totals(init), last.0, last.1)
  }

  /** Each key's entry in `Totals` is the sum of the values recorded under it. */
  lemma {:induction false} TotalsLookup<K(!new)>(s: seq<(K, int)>, k: K)
    ensures Lookup(Totals(s), k) == SumFor(s, k)
  {
    if s != [] {
      var init := s[..|s| - 1];
      var last := s[|s| - 1];
      assert s == init + [last];
      TotalsLookup(init, k);
      SumForSnoc(init, last, k);
    }
  }

  /** The entry values of `Totals` add up to the sum of all recorded values. */
  lemma {:induction false} TotalsPreserveSum<K(!new)>(s: seq<(K, int)>)
    ensures SumOf(Totals(s), EntryValue) == SumOf(s, EntryValue)
  {
    if s != [] {
      var init := s[..|s| - 1];
      var last := s[|s| - 1];
      assert s == init + [last];
      TotalsPreserveSum(init);
      AddToSum(Totals(init), last.0, last.1);
      SumOfConcat(init, [last], EntryValue);
    }
  }

  lemma {:induction false} AddToSum<K(!new)>(acc: seq<(K, int)>, k: K, v: int)
    requires NoDuplicates(Keys(acc))
    ensures SumOf(AddTo(acc, k, v), EntryValue) == SumOf(acc, EntryValue) + v
  {
    if acc != [] && acc[0].0 != k {
      assert Keys(acc) == [acc[0].0] + Keys(acc[1..]);
      AddToSum(acc[1..], k, v);
    }
  }

  function ValueDesc<K>(e: (K, int)): real
  {
    -(e.1 as real)
  }

  /** `Object.entries(acc).sort((a, b) => b[1] - a[1])`: the entries largest
      value first, equal values in their order. */
  function ByValueDesc<K>(acc: seq<(K, int)>): (r: seq<(K, int)>)
    ensures multiset(r) == multiset(acc)
    ensures forall i, j :: 0 <= i < j < |r| ==> r[j].1 <= r[i].1
  {
    var r := SortBy(acc, ValueDesc);
    assert forall i, j :: 0 <= i < j < |r| ==> ValueDesc(r[i]) <= ValueDesc(r[j]);
    r
  }

  /** The first entry of that order has the greatest value. */
  lemma ByValueDescFirst<K>(acc: seq<(K, int)>)
    requires acc != []
    ensures var r := ByValueDesc(acc);
      |r| == |acc| && r[0] in acc && forall e :: e in acc ==> e.1 <= r[0].1
  {
    var r := ByValueDesc(acc);
    assert |multiset(r)| == |multiset(acc)|;
    assert r[0] in multiset(r);
    forall e | e in acc ensures e.1 <= r[0].1 {
      assert e in multiset(r);
      var k :| 0 <= k < |r| && r[k] == e;
    }
  }

  /** The index of an entry with the greatest value, the first one among equals. */
  function ArgMaxFirst<K(==)>(acc: seq<(K, int)>): (i: nat)
    requires acc != []
    ensures i < |acc|
    ensures forall j :: 0 <= j < |acc| ==> acc[j].1 <= acc[i].1
    ensures forall j :: 0 <= j < i ==> acc[j].1 < acc[i].1
  {
    if |acc| == 1 then 0
    else
      var t := ArgMaxFirst(acc[1..]) + 1;
      if acc[0].1 >= acc[t].1 then 0 else t
  }
}
